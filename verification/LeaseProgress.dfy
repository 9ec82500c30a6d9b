/**
 What a caller of the lease protocol achieves when nobody disturbs it: from every reachable state the whole effect of
 acquireLease, releaseLease, renewLease and owner quarantine, and who gets nothing.
 */
module LeaseProgress {
  import opened Common
  import opened Lease

  // ----- one caller alone -----

  /** n steps of one task, as long as no other action comes between. */
  function Alone(s: State, t: Task, n: nat): State {
    if n == 0 then s else Apply(Alone(s, t, n - 1), Advance(t), true)
  }

  /** The same, of the storage and the task's position only. */
  function Solo(o: Outcome, t: Task, p: Proc, n: nat): Outcome
    decreases n
  {
    if n == 0 then o else Solo(Next(o.disk, t, p, o.pc), t, p, n - 1)
  }

  lemma {:induction false} SoloLast(o: Outcome, t: Task, p: Proc, n: nat)
    requires n > 0
    ensures var before := Solo(o, t, p, n - 1); Solo(o, t, p, n) == Next(before.disk, t, p, before.pc)
    decreases n
  {
    if n > 1 { SoloLast(Next(o.disk, t, p, o.pc), t, p, n - 1); }
  }

  lemma {:induction false} SoloAdd(o: Outcome, t: Task, p: Proc, m: nat, n: nat)
    ensures Solo(o, t, p, m + n) == Solo(Solo(o, t, p, m), t, p, n)
    decreases m
  {
    if m > 0 { SoloAdd(Next(o.disk, t, p, o.pc), t, p, m - 1, n); }
  }

  lemma DeadFixed(d: Disk, t: Task, p: Proc, pc: PC)
    ensures Next(d, t, p, pc).disk.dead == d.dead
  {
  }

  /** A task alone takes its own steps and changes nothing but the storage and its position. */
  lemma {:induction false} AloneIsSolo(s: State, t: Task, o: Outcome, n: nat)
    requires Alive(s, t) && o.disk.dead == s.disk.dead
    ensures Alone(Put(s, t, o), t, n) == Put(s, t, Solo(o, t, s.home[t], n))
    ensures Solo(o, t, s.home[t], n).disk.dead == s.disk.dead
  {
    if n > 0 {
      AloneIsSolo(s, t, o, n - 1);
      SoloLast(o, t, s.home[t], n);
      var before := Solo(o, t, s.home[t], n - 1);
      DeadFixed(before.disk, t, s.home[t], before.pc);
      assert Alive(Put(s, t, before), t);
    }
  }

  /** Some number of steps of the task alone leads from one outcome to the other. */
  ghost predicate Gets(o: Outcome, t: Task, p: Proc, o': Outcome) {
    exists n :: Solo(o, t, p, n) == o'
  }

  lemma GetsOne(o: Outcome, t: Task, p: Proc)
    ensures Gets(o, t, p, Next(o.disk, t, p, o.pc))
  {
    assert Solo(Next(o.disk, t, p, o.pc), t, p, 0) == Next(o.disk, t, p, o.pc);
    assert Solo(o, t, p, 1) == Next(o.disk, t, p, o.pc);
  }

  lemma GetsTrans(o: Outcome, t: Task, p: Proc, o1: Outcome, o2: Outcome)
    requires Gets(o, t, p, o1) && Gets(o1, t, p, o2)
    ensures Gets(o, t, p, o2)
  {
    var m :| Solo(o, t, p, m) == o1;
    var n :| Solo(o1, t, p, n) == o2;
    SoloAdd(o, t, p, m, n);
  }

  /** One more step. */
  lemma GetsNext(o: Outcome, t: Task, p: Proc, o1: Outcome, o2: Outcome)
    requires Gets(o, t, p, o1) && o2 == Next(o1.disk, t, p, o1.pc)
    ensures Gets(o, t, p, o2)
  {
    GetsOne(o1, t, p);
    GetsTrans(o, t, p, o1, o2);
  }

  /** A task that starts an operation and is left alone comes to this outcome. */
  ghost predicate Achieves(s: State, start: Action, t: Task, o: Outcome) {
    exists n :: Alone(Apply(s, start, true), t, n) == Put(s, t, o)
  }

  lemma AchievesWhatItGets(s: State, start: Action, t: Task, o: Outcome, o': Outcome)
    requires Alive(s, t) && o.disk == s.disk && Apply(s, start, true) == Put(s, t, o)
    requires Gets(o, t, s.home[t], o')
    ensures Achieves(s, start, t, o')
  {
    var n :| Solo(o, t, s.home[t], n) == o';
    AloneIsSolo(s, t, o, n);
  }

  // ----- the recovery mutex is free, or a dead process has left it -----

  /** Identities in the recovery lock are fresh, so the place that evidence of its owner would take is free. */
  ghost predicate MutexFresh(s: State) {
    && FreshDisk(s.disk)
    && (forall t :: t in s.pcs ==> SeenOld(s.disk, s.pcs[t]))
  }

  predicate FreshDisk(d: Disk) {
    && (d.mutex.Some? ==> d.mutex.value.instance < d.nextInstance && d.mutex.value.instance !in d.mutexEvidence)
    && (forall i :: i in d.mutexEvidence ==> i < d.nextInstance)
  }

  predicate SeenOld(d: Disk, pc: PC) {
    && (pc.MutexProbe? ==> pc.seen.instance < d.nextInstance)
    && (pc.MutexPreserve? ==> pc.seen.instance < d.nextInstance)
  }

  lemma StepKeepsFresh(d: Disk, t: Task, p: Proc, pc: PC)
    requires FreshDisk(d) && SeenOld(d, pc)
    ensures var o := Next(d, t, p, pc);
            FreshDisk(o.disk) && SeenOld(o.disk, o.pc) && o.disk.nextInstance >= d.nextInstance
  {
  }

  lemma NextKeepsFresh(s: State, t: Task)
    requires MutexFresh(s) && Alive(s, t)
    ensures MutexFresh(Put(s, t, Next(s.disk, t, s.home[t], s.pcs[t])))
  {
    assert SeenOld(s.disk, s.pcs[t]);
    var o := Next(s.disk, t, s.home[t], s.pcs[t]);
    StepKeepsFresh(s.disk, t, s.home[t], s.pcs[t]);
    forall u | u in s.pcs && u != t ensures SeenOld(o.disk, s.pcs[u]) {
      assert SeenOld(s.disk, s.pcs[u]);
    }
  }

  lemma {:induction false} RunKeepsFresh(s: State, actions: seq<Action>)
    requires Initial(s)
    ensures MutexFresh(Run(s, actions, true))
  {
    if actions != [] {
      var before, a := Run(s, actions[..|actions| - 1], true), actions[|actions| - 1];
      RunKeepsFresh(s, actions[..|actions| - 1]);
      if a.Advance? && Alive(before, a.task) {
        NextKeepsFresh(before, a.task);
      } else if !a.Die? && Alive(before, a.task) {
        assert SeenOld(before.disk, before.pcs[a.task]);
      }
    }
  }

  /** Nobody holds the recovery mutex but, possibly, a process of this host that is gone. */
  predicate MutexFree(d: Disk, p: Proc) {
    d.mutex.Some? ==> ProvenDead(d, p, d.mutex.value.owner)
  }

  /** The storage once a caller has entered, having displaced a dead owner if there was one. */
  function Entered(d: Disk, t: Task, p: Proc): Disk {
    d.(mutex := Some(Mutex(d.nextInstance, p)), nextInstance := d.nextInstance + 1,
       issuedMutex := d.issuedMutex[d.nextInstance := t],
       mutexEvidence := if d.mutex.Some? then d.mutexEvidence + {d.mutex.value.instance} else d.mutexEvidence)
  }

  lemma Enters(d: Disk, t: Task, p: Proc, purpose: Purpose)
    requires MutexFree(d, p) && (d.mutex.Some? ==> d.mutex.value.instance !in d.mutexEvidence)
    ensures Gets(Outcome(d, MutexRename(purpose)), t, p,
                 Outcome(Entered(d, t, p), LockedStat(purpose, Mutex(d.nextInstance, p))))
  {
    var o := Outcome(d, MutexRename(purpose));
    GetsOne(o, t, p);
    if d.mutex.Some? {
      var seen := d.mutex.value;
      GetsNext(o, t, p, Outcome(d, MutexRead(purpose)), Outcome(d, MutexProbe(purpose, seen)));
      GetsNext(o, t, p, Outcome(d, MutexProbe(purpose, seen)), Outcome(d, MutexPreserve(purpose, seen)));
      var d1 := d.(mutex := None, mutexEvidence := d.mutexEvidence + {seen.instance});
      GetsNext(o, t, p, Outcome(d, MutexPreserve(purpose, seen)), Outcome(d1, MutexRename(purpose)));
      GetsNext(o, t, p, Outcome(d1, MutexRename(purpose)),
               Outcome(Entered(d, t, p), LockedStat(purpose, Mutex(d.nextInstance, p))));
    }
  }

  /** A caller that is done under the mutex gives it up. */
  lemma Leaves(d: Disk, t: Task, p: Proc, mine: Mutex, again: bool)
    requires d.mutex == Some(mine)
    ensures Gets(Outcome(d, MutexReleaseRead(mine, again)), t, p, Outcome(d.(mutex := None), AfterMutex(again)))
  {
    var o, d1 := Outcome(d, MutexReleaseRead(mine, again)), d.(mutex := None);
    GetsOne(o, t, p);
    GetsNext(o, t, p, Outcome(d, MutexReleaseRename(mine, again)), Outcome(d1, MutexReleaseCheck(mine, mine, again)));
    GetsNext(o, t, p, Outcome(d1, MutexReleaseCheck(mine, mine, again)), Outcome(d1, AfterMutex(again)));
  }

  // ----- acquiring -----

  /** The storage after a caller has acquired the free lock, and the lease that it then holds. */
  function Granted(d: Disk, p: Proc): DispatcherLease {
    DispatcherLease(d.nextInstance, d.generation + 1, p, d.clock + 1)
  }

  predicate HasAcquired(before: Disk, t: Task, p: Proc, o: Outcome) {
    && o.pc == Holding(Granted(before, p))
    && o.disk.lock.Some? && o.disk.lock.value.lease == Some(Granted(before, p)) && o.disk.lock.value.creator == t
    && o.disk.generation == before.generation + 1 && o.disk.granted == before.granted + [Granted(before, p)]
    && o.disk.mutex == before.mutex && o.disk.leaseEvidence == before.leaseEvidence
  }

  lemma GetsFreeLease(d: Disk, t: Task, p: Proc) returns (o: Outcome)
    requires d.lock.None?
    ensures Gets(Outcome(d, Acquire), t, p, o) && HasAcquired(d, t, p, o) && o.disk.dead == d.dead
  {
    var start := Outcome(d, Acquire);
    GetsOne(start, t, p);
    var o1 := StepAcquire(d, t);
    var o2 := Outcome(o1.disk, WritingGeneration(d.generation + 1));
    GetsNext(start, t, p, o1, o2);
    var o3 := StepWriteGeneration(o1.disk, d.generation + 1);
    GetsNext(start, t, p, o2, o3);
    o := StepWriteLease(o3.disk, t, p, d.generation + 1);
    GetsNext(start, t, p, o3, o);
  }

  /** Up to the liveness probe of the lease that is on disk. */
  lemma GetsToProbe(d: Disk, t: Task, p: Proc, lease: DispatcherLease)
    requires d.lock.Some? && d.lock.value.lease == Some(lease)
    ensures Gets(Outcome(d, Acquire), t, p, StepInspectProbe(d, p, d.lock.value.stat, lease))
  {
    var start, stat := Outcome(d, Acquire), d.lock.value.stat;
    GetsOne(start, t, p);
    GetsNext(start, t, p, Outcome(d, InspectStat), Outcome(d, InspectRead(stat)));
    GetsNext(start, t, p, Outcome(d, InspectRead(stat)), Outcome(d, InspectProbe(stat, lease)));
    GetsNext(start, t, p, Outcome(d, InspectProbe(stat, lease)), StepInspectProbe(d, p, stat, lease));
  }

  /** The storage after the directory of a dead owner, or of a quarantined initializer, has been moved away. */
  function Moved(d: Disk, t: Task, p: Proc, token: Token): Disk {
    Entered(d, t, p).(mutex := None, lock := None, leaseEvidence := d.leaseEvidence + {token},
                      emptyEvidence := d.emptyEvidence - {token})
  }

  /** From the double inspection under the mutex to its release, for the directory that the token describes. */
  lemma MovesUnderMutex(d: Disk, t: Task, p: Proc, purpose: Purpose, mine: Mutex)
    requires d.lock.Some? && purpose.token == TokenOf(d.lock.value) && !Taken(d, purpose.token) && d.mutex == Some(mine)
    requires purpose.Recover? ==> d.lock.value.lease.Some? && ProvenDead(d, p, d.lock.value.lease.value.owner)
    ensures Gets(Outcome(d, LockedStat(purpose, mine)), t, p,
                 Outcome(d.(lock := None, leaseEvidence := d.leaseEvidence + {purpose.token}, mutex := None,
                            emptyEvidence := d.emptyEvidence - {purpose.token}), AfterMutex(purpose.Recover?)))
  {
    var token, start := purpose.token, Outcome(d, LockedStat(purpose, mine));
    GetsOne(start, t, p);
    var o1 := Outcome(d, LockedRead(purpose, mine, token.stat));
    var o3 := Outcome(d, LockedPreserve(purpose, mine));
    if purpose.Recover? {
      GetsNext(start, t, p, o1, Outcome(d, LockedProbe(purpose, mine, token)));
      GetsNext(start, t, p, Outcome(d, LockedProbe(purpose, mine, token)), o3);
    } else {
      GetsNext(start, t, p, o1, o3);
    }
    var o4 := StepLockedPreserve(d, purpose, mine);
    GetsNext(start, t, p, o3, o4);
    var o5 := StepLockedRecord(o4.disk, purpose, mine);
    GetsNext(start, t, p, o4, o5);
    assert o5.disk.emptyEvidence == d.emptyEvidence - {token};
    Leaves(o5.disk, t, p, mine, purpose.Recover?);
    GetsTrans(start, t, p, o5, Outcome(o5.disk.(mutex := None), AfterMutex(purpose.Recover?)));
  }

  lemma MovesAway(d: Disk, t: Task, p: Proc, purpose: Purpose)
    requires MutexFree(d, p) && (d.mutex.Some? ==> d.mutex.value.instance !in d.mutexEvidence)
    requires d.lock.Some? && purpose.token == TokenOf(d.lock.value) && !Taken(d, purpose.token)
    requires purpose.Recover? ==> d.lock.value.lease.Some? && ProvenDead(d, p, d.lock.value.lease.value.owner)
    ensures Gets(Outcome(d, MutexRename(purpose)), t, p,
                 Outcome(Moved(d, t, p, purpose.token), AfterMutex(purpose.Recover?)))
  {
    var mine, inside := Mutex(d.nextInstance, p), Entered(d, t, p);
    Enters(d, t, p, purpose);
    MovesUnderMutex(inside, t, p, purpose, mine);
    GetsTrans(Outcome(d, MutexRename(purpose)), t, p, Outcome(inside, LockedStat(purpose, mine)),
              Outcome(Moved(d, t, p, purpose.token), AfterMutex(purpose.Recover?)));
  }

  // ----- the results -----

  /** An idle caller in a state that some run has reached. */
  ghost predicate Ready(s: State, actions: seq<Action>, before: State, t: Task) {
    && Initial(s) && Trusted(s, actions) && before == Run(s, actions, true)
    && Alive(before, t) && before.pcs[t].Idle?
  }

  lemma NotTaken(s: State)
    requires Inv(s) && s.disk.lock.Some?
    ensures !Taken(s.disk, TokenOf(s.disk.lock.value))
  {
  }

  /** Whoever finds no lock directory gets the lease, with the next generation. */
  lemma FreeLeaseIsGranted(s: State, actions: seq<Action>, before: State, t: Task) returns (o: Outcome)
    requires Ready(s, actions, before, t) && before.disk.lock.None?
    ensures Achieves(before, StartAcquire(t), t, o) && HasAcquired(before.disk, t, before.home[t], o)
  {
    o := GetsFreeLease(before.disk, t, before.home[t]);
    AchievesWhatItGets(before, StartAcquire(t), t, Outcome(before.disk, Acquire), o);
  }

  /**
   A dead owner's lease is recovered: whoever finds it on its own host, with the recovery mutex free or left behind by
   a dead process, moves the old directory to its evidence place and gets the lease, with a generation above the dead
   one's.
   */
  lemma DeadLeaseIsRecovered(s: State, actions: seq<Action>, before: State, t: Task, dead: DispatcherLease)
    returns (o: Outcome)
    requires Ready(s, actions, before, t) && MutexFree(before.disk, before.home[t])
    requires before.disk.lock.Some? && before.disk.lock.value.lease == Some(dead)
    requires ProvenDead(before.disk, before.home[t], dead.owner)
    ensures Achieves(before, StartAcquire(t), t, o) && HasLease(Put(before, t, o), t)
    ensures o.pc.Holding? && o.pc.lease.owner == before.home[t] && o.pc.lease.generation > dead.generation
    ensures o.disk.lock.Some? && o.disk.lock.value.lease == Some(o.pc.lease) && o.disk.lock.value.creator == t
    ensures o.disk.leaseEvidence == before.disk.leaseEvidence + {TokenOf(before.disk.lock.value)}
    ensures o.disk.mutex == None
  {
    RunKeeps(s, actions);
    RunKeepsFresh(s, actions);
    var d, p, token := before.disk, before.home[t], TokenOf(before.disk.lock.value);
    var start := Outcome(d, Acquire);
    NotTaken(before);
    GetsToProbe(d, t, p, dead);
    MovesAway(d, t, p, Recover(token));
    GetsTrans(start, t, p, Outcome(d, MutexRename(Recover(token))), Outcome(Moved(d, t, p, token), Acquire));
    o := GetsFreeLease(Moved(d, t, p, token), t, p);
    GetsTrans(start, t, p, Outcome(Moved(d, t, p, token), Acquire), o);
    AchievesWhatItGets(before, StartAcquire(t), t, start, o);
    assert dead.generation <= d.generation;
  }

  /** Any lease whose owner is alive or on another host keeps everyone else out: the call ends and changes nothing. */
  lemma OwnedLeaseIsRefused(s: State, actions: seq<Action>, before: State, t: Task, lease: DispatcherLease)
    requires Ready(s, actions, before, t)
    requires before.disk.lock.Some? && before.disk.lock.value.lease == Some(lease)
    requires !ProvenDead(before.disk, before.home[t], lease.owner)
    ensures Achieves(before, StartAcquire(t), t, Outcome(before.disk, Idle))
  {
    GetsToProbe(before.disk, t, before.home[t], lease);
    AchievesWhatItGets(before, StartAcquire(t), t, Outcome(before.disk, Acquire), Outcome(before.disk, Idle));
  }

  /** So does a lock directory without a lease, which only its owner may have quarantined. */
  lemma InitializingLeaseIsRefused(s: State, actions: seq<Action>, before: State, t: Task)
    requires Ready(s, actions, before, t) && before.disk.lock.Some? && before.disk.lock.value.lease.None?
    ensures Achieves(before, StartAcquire(t), t, Outcome(before.disk, Idle))
  {
    var d, p := before.disk, before.home[t];
    var start, stat := Outcome(d, Acquire), d.lock.value.stat;
    GetsOne(start, t, p);
    GetsNext(start, t, p, Outcome(d, InspectStat), Outcome(d, InspectRead(stat)));
    GetsNext(start, t, p, Outcome(d, InspectRead(stat)), Outcome(d, Idle));
    AchievesWhatItGets(before, StartAcquire(t), t, start, Outcome(d, Idle));
  }

  /** A recovery mutex of a live process, or of another host, holds recovery of a dead lease back. */
  lemma HeldMutexRefuses(s: State, actions: seq<Action>, before: State, t: Task, dead: DispatcherLease)
    requires Ready(s, actions, before, t) && !MutexFree(before.disk, before.home[t])
    requires before.disk.lock.Some? && before.disk.lock.value.lease == Some(dead)
    requires ProvenDead(before.disk, before.home[t], dead.owner)
    ensures Achieves(before, StartAcquire(t), t, Outcome(before.disk, Idle))
  {
    var d, p := before.disk, before.home[t];
    var start, purpose := Outcome(d, Acquire), Recover(TokenOf(before.disk.lock.value));
    GetsToProbe(d, t, p, dead);
    GetsNext(start, t, p, Outcome(d, MutexRename(purpose)), Outcome(d, MutexRead(purpose)));
    GetsNext(start, t, p, Outcome(d, MutexRead(purpose)), Outcome(d, MutexProbe(purpose, d.mutex.value)));
    GetsNext(start, t, p, Outcome(d, MutexProbe(purpose, d.mutex.value)), Outcome(d, Idle));
    AchievesWhatItGets(before, StartAcquire(t), t, start, Outcome(d, Idle));
  }

  /** Quarantine of a lease-less directory whose creator is gone leaves no lock, and the directory as evidence. */
  lemma QuarantineFrees(s: State, actions: seq<Action>, before: State, t: Task) returns (o: Outcome)
    requires Ready(s, actions, before, t) && MutexFree(before.disk, before.home[t]) && MayQuarantine(before, true)
    ensures Achieves(before, StartQuarantine(t), t, o) && o.pc == Idle
    ensures o.disk.lock == None && o.disk.mutex == None && o.disk.granted == before.disk.granted
    ensures o.disk.leaseEvidence == before.disk.leaseEvidence + {TokenOf(before.disk.lock.value)}
  {
    RunKeeps(s, actions);
    RunKeepsFresh(s, actions);
    var d, p, token := before.disk, before.home[t], TokenOf(before.disk.lock.value);
    NotTaken(before);
    MovesAway(d, t, p, Quarantine(token));
    o := Outcome(Moved(d, t, p, token), Idle);
    AchievesWhatItGets(before, StartQuarantine(t), t, Outcome(d, MutexRename(Quarantine(token))), o);
  }

  // ----- a holder's own calls -----

  ghost predicate Holder(s: State, actions: seq<Action>, before: State, t: Task) {
    && Initial(s) && Trusted(s, actions) && before == Run(s, actions, true)
    && Alive(before, t) && before.pcs[t].Holding?
  }

  /** A release leaves no lock directory. */
  lemma ReleaseFrees(s: State, actions: seq<Action>, before: State, t: Task)
    requires Holder(s, actions, before, t)
    ensures Achieves(before, Release(t), t, Outcome(before.disk.(lock := None), Idle))
  {
    RunKeeps(s, actions);
    HolderOnDisk(before, t);
    assert TaskOk(before.disk, before.home, t, before.home[t], before.pcs[t]);
    var d, p, lease := before.disk, before.home[t], before.pcs[t].lease;
    GetsReleased(d, t, p, lease);
    AchievesWhatItGets(before, Release(t), t, Outcome(d, ReleaseRename(lease)), Outcome(d.(lock := None), Idle));
  }

  lemma GetsReleased(d: Disk, t: Task, p: Proc, lease: DispatcherLease)
    requires d.lock.Some?
    ensures Gets(Outcome(d, ReleaseRename(lease)), t, p, Outcome(d.(lock := None), Idle))
  {
    var start, o := Outcome(d, ReleaseRename(lease)), Outcome(d.(lock := None), ReleaseCheck(lease, d.lock.value));
    GetsOne(start, t, p);
    GetsNext(start, t, p, o, Outcome(d.(lock := None), Idle));
  }

  /** A renewal rewrites the heartbeat and nothing else of the lease, which its holder keeps. */
  lemma RenewalKeepsLease(s: State, actions: seq<Action>, before: State, t: Task, now: nat) returns (o: Outcome)
    requires Holder(s, actions, before, t)
    ensures Achieves(before, Renew(t, now), t, o)
    ensures o.pc == Holding(before.pcs[t].lease.(heartbeat := now))
    ensures o.disk.lock.Some? && o.disk.lock.value.lease == Some(o.pc.lease) && o.disk.lock.value.creator == t
    ensures o.disk.granted == before.disk.granted && o.disk.generation == before.disk.generation
  {
    RunKeeps(s, actions);
    HolderOnDisk(before, t);
    assert TaskOk(before.disk, before.home, t, before.home[t], before.pcs[t]);
    var d, p, lease := before.disk, before.home[t], before.pcs[t].lease;
    var start := Outcome(d, RenewWrite(lease, now));
    o := Next(d, t, p, RenewWrite(lease, now));
    GetsOne(start, t, p);
    AchievesWhatItGets(before, Renew(t, now), t, start, o);
  }

  /** A caller whose acquisition fails half-way removes the directory that it made. */
  lemma FailedAcquisitionFrees(s: State, actions: seq<Action>, before: State, t: Task)
    requires Initial(s) && Trusted(s, actions) && before == Run(s, actions, true) && Alive(before, t)
    requires before.pcs[t].Initializing? || before.pcs[t].WritingGeneration? || before.pcs[t].WritingLease?
    ensures Achieves(before, Fail(t), t, Outcome(before.disk.(lock := None), Idle)) && Mine(before.disk, t)
  {
    RunKeeps(s, actions);
    assert TaskOk(before.disk, before.home, t, before.home[t], before.pcs[t]);
    var start := Outcome(before.disk, Aborting);
    GetsOne(start, t, before.home[t]);
    AchievesWhatItGets(before, Fail(t), t, start, Outcome(before.disk.(lock := None), Idle));
  }
}
