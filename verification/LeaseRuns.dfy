/** Runs of the lease protocol that show which of the conditions in module Lease are needed. */
module LeaseRuns {
  import opened Common
  import opened Lease

  // ----- continuations -----

  /** Some continuation leads from one state to the other. */
  ghost predicate Leads(s: State, s': State, careful: bool) {
    exists actions :: Run(s, actions, careful) == s'
  }

  lemma {:induction false} RunConcat(s: State, first: seq<Action>, second: seq<Action>, careful: bool)
    ensures Run(s, first + second, careful) == Run(Run(s, first, careful), second, careful)
  {
    if second == [] {
      assert first + second == first;
    } else {
      assert (first + second)[..|first + second| - 1] == first + second[..|second| - 1];
      RunConcat(s, first, second[..|second| - 1], careful);
    }
  }

  lemma LeadsTrans(s: State, s1: State, s2: State, careful: bool)
    requires Leads(s, s1, careful) && Leads(s1, s2, careful)
    ensures Leads(s, s2, careful)
  {
    var first :| Run(s, first, careful) == s1;
    var second :| Run(s1, second, careful) == s2;
    RunConcat(s, first, second, careful);
  }

  lemma LeadsOne(s: State, a: Action, careful: bool)
    ensures Leads(s, Apply(s, a, careful), careful)
  {
    assert [a][..0] == [];
    assert Run(s, [a], careful) == Apply(s, a, careful);
  }

  lemma LeadsSelf(s: State, careful: bool)
    ensures Leads(s, s, careful)
  {
    assert Run(s, [], careful) == s;
  }

  /** One step of a live task, when its outcome is known. */
  lemma Advances(s: State, s1: State, t: Task, o: Outcome, careful: bool)
    requires Leads(s, s1, careful) && Alive(s1, t) && o == Next(s1.disk, t, s1.home[t], s1.pcs[t])
    ensures Leads(s, Put(s1, t, o), careful)
  {
    LeadsOne(s1, Advance(t), careful);
    LeadsTrans(s, s1, Put(s1, t, o), careful);
  }

  lemma PutPut(s: State, t: Task, o: Outcome, o': Outcome)
    ensures Put(Put(s, t, o), t, o') == Put(s, t, o')
  {
  }

  // ----- stale reads of the recovery mutex -----

  /** A task that finds the owner it read dead displaces whoever is inside the mutex by then, and enters. */
  lemma DisplacesHolder(s: State, t: Task, u: Task) returns (s': State)
    requires t != u && Alive(s, t) && HasMutex(s, u) && s.disk.mutex.Some?
    requires s.pcs[t].MutexProbe? && ProvenDead(s.disk, s.home[t], s.pcs[t].seen.owner)
    requires s.pcs[t].seen.instance !in s.disk.mutexEvidence
    ensures Leads(s, s', true) && HasMutex(s', t) && HasMutex(s', u)
    ensures s' == Put(s, t, StepMutexRename(Displaced(s.disk, s.pcs[t].seen), t, s.home[t], s.pcs[t].purpose))
  {
    var purpose, seen, d := s.pcs[t].purpose, s.pcs[t].seen, s.disk;
    var o1, o2 := Outcome(d, MutexPreserve(purpose, seen)), Outcome(Displaced(d, seen), MutexRename(purpose));
    LeadsSelf(s, true);
    Advances(s, s, t, o1, true);
    Continues(s, t, o1, o2, true);
    var o3 := StepMutexRename(o2.disk, t, s.home[t], purpose);
    Continues(s, t, o2, o3, true);
    s' := Put(s, t, o3);
  }

  function Displaced(d: Disk, seen: Mutex): Disk {
    d.(mutex := None, mutexEvidence := d.mutexEvidence + {seen.instance})
  }

  /** A task that takes the free mutex is inside. */
  lemma TakesMutex(s: State, u: Task)
    requires Alive(s, u) && s.pcs[u].MutexRename? && s.disk.mutex.None?
    ensures var s1 := Put(s, u, StepMutexRename(s.disk, u, s.home[u], s.pcs[u].purpose));
            Leads(s, s1, true) && HasMutex(s1, u) && s1.disk.mutex.Some?
  {
    LeadsSelf(s, true);
    Advances(s, s, u, StepMutexRename(s.disk, u, s.home[u], s.pcs[u].purpose), true);
  }

  /**
   The converse of exclusion under safe deaths: in every reachable state in which a death is unsafe because of t's
   stale read, if another live task is inside the mutex or about to take it while it is free, that death has a
   continuation with both tasks inside.
   */
  lemma UnsafeDeathBreaksMutex(s: State, actions: seq<Action>, before: State, victim: Proc, t: Task, u: Task)
    requires Initial(s) && SafeDeaths(s, actions) && before == Run(s, actions, true)
    requires StaleRead(before, t, victim) && t != u && Alive(before, u) && before.home[u] != victim
    requires HasMutex(before, u) || (before.pcs[u].MutexRename? && before.disk.mutex.None?)
    ensures exists s' :: Leads(Apply(before, Die(victim), true), s', true) && HasMutex(s', t) && HasMutex(s', u)
  {
    RunKeepsAll(s, actions);
    assert MutexTaskOk(before.disk, u, before.home[u], before.pcs[u]);
    var after := Apply(before, Die(victim), true);
    if HasMutex(before, u) {
      var _ := DisplacesHolder(after, t, u);
    } else {
      TakesMutex(after, u);
      var s1 := Put(after, u, StepMutexRename(after.disk, u, after.home[u], after.pcs[u].purpose));
      var s' := DisplacesHolder(s1, t, u);
      LeadsTrans(after, s1, s', true);
    }
  }

  // ----- quarantine of a live initializer's directory -----

  /** The storage after q has moved the lease-less lock directory away. */
  function MovedAway(d: Disk, q: Task, p: Proc): Disk
    requires d.lock.Some?
  {
    var token := TokenOf(d.lock.value);
    Entered(d, q, p).(lock := None, leaseEvidence := d.leaseEvidence + {token},
                      emptyEvidence := d.emptyEvidence + {token})
  }

  /** The storage after q has taken the recovery mutex. */
  function Entered(d: Disk, q: Task, p: Proc): Disk {
    d.(mutex := Some(Mutex(d.nextInstance, p)), nextInstance := d.nextInstance + 1,
       issuedMutex := d.issuedMutex[d.nextInstance := q])
  }

  /** An owner that does not ask whether the creator is gone may quarantine any lease-less directory. */
  lemma QuarantineEnters(s: State, q: Task, careful: bool)
    requires Alive(s, q) && s.pcs[q].Idle? && s.disk.mutex.None? && MayQuarantine(s, careful)
    ensures var purpose := Quarantine(TokenOf(s.disk.lock.value)); var mine := Mutex(s.disk.nextInstance, s.home[q]);
            Leads(s, Put(s, q, Outcome(Entered(s.disk, q, s.home[q]), LockedStat(purpose, mine))), careful)
  {
    var purpose := Quarantine(TokenOf(s.disk.lock.value));
    LeadsOne(s, StartQuarantine(q), careful);
    Continues(s, q, Outcome(s.disk, MutexRename(purpose)),
              Outcome(Entered(s.disk, q, s.home[q]), LockedStat(purpose, Mutex(s.disk.nextInstance, s.home[q]))),
                  careful);
  }

  /** Inside the mutex a quarantiner that finds its token goes on to the move. */
  lemma QuarantineMatches(s: State, q: Task, careful: bool)
    requires Alive(s, q) && s.pcs[q].LockedStat? && s.disk.lock.Some?
             && s.pcs[q].purpose == Quarantine(TokenOf(s.disk.lock.value))
    ensures Leads(s, Put(s, q, Outcome(s.disk, LockedPreserve(s.pcs[q].purpose, s.pcs[q].mine))), careful)
  {
    var pc := s.pcs[q];
    LeadsSelf(s, careful);
    var o := Outcome(s.disk, LockedRead(pc.purpose, pc.mine, s.disk.lock.value.stat));
    Advances(s, s, q, o, careful);
    Continues(s, q, o, Outcome(s.disk, LockedPreserve(pc.purpose, pc.mine)), careful);
  }

  lemma QuarantineMoves(s: State, q: Task)
    requires Alive(s, q) && s.pcs[q].Idle? && s.disk.mutex.None?
    requires s.disk.lock.Some? && s.disk.lock.value.lease.None? && !Taken(s.disk, TokenOf(s.disk.lock.value))
    ensures var purpose := Quarantine(TokenOf(s.disk.lock.value)); var mine := Mutex(s.disk.nextInstance, s.home[q]);
            Leads(s, Put(s, q, Outcome(MovedAway(s.disk, q, s.home[q]), LockedRecord(purpose, mine))), false)
  {
    var purpose, mine := Quarantine(TokenOf(s.disk.lock.value)), Mutex(s.disk.nextInstance, s.home[q]);
    var o1 := Outcome(Entered(s.disk, q, s.home[q]), LockedStat(purpose, mine));
    var o2 := Outcome(o1.disk, LockedPreserve(purpose, mine));
    QuarantineEnters(s, q, false);
    QuarantineMatches(Put(s, q, o1), q, false);
    PutPut(s, q, o1, o2);
    LeadsTrans(s, Put(s, q, o1), Put(s, q, o2), false);
    Continues(s, q, o2, Outcome(MovedAway(s.disk, q, s.home[q]), LockedRecord(purpose, mine)), false);
  }

  /** Two steps of one task in a row. */
  lemma Continues(s: State, t: Task, o: Outcome, o': Outcome, careful: bool)
    requires Leads(s, Put(s, t, o), careful) && Alive(s, t) && o.disk.dead == s.disk.dead
    requires o' == Next(o.disk, t, s.home[t], o.pc)
    ensures Leads(s, Put(s, t, o'), careful)
  {
    Advances(s, Put(s, t, o), t, o', careful);
    PutPut(s, t, o, o');
  }

  /** The storage and position of a task that has just acquired the free lock. */
  function Acquired(d: Disk, t: Task, p: Proc): Outcome {
    var made := d.(lock := Some(LockDir(Stat(d.clock, d.clock), None, t)), clock := d.clock + 1,
                   generation := d.generation + 1);
    StepWriteLease(made, t, p, d.generation + 1)
  }

  /** Whoever finds no lock directory can acquire the lease. */
  lemma Acquires(s: State, w: Task, careful: bool)
    requires Alive(s, w) && s.pcs[w].Idle? && s.disk.lock.None?
    ensures Leads(s, Put(s, w, Acquired(s.disk, w, s.home[w])), careful)
  {
    var d := s.disk;
    LeadsOne(s, StartAcquire(w), careful);
    var d1 := d.(lock := Some(LockDir(Stat(d.clock, d.clock), None, w)), clock := d.clock + 1);
    Continues(s, w, Outcome(d, Acquire), Outcome(d1, Initializing), careful);
    var o2 := Outcome(d1, WritingGeneration(d.generation + 1));
    Continues(s, w, Outcome(d1, Initializing), o2, careful);
    var o3 := Outcome(d1.(generation := d.generation + 1), WritingLease(d.generation + 1));
    Continues(s, w, o2, o3, careful);
    Continues(s, w, o3, Acquired(d, w, s.home[w]), careful);
  }

  /**
   An initializer goes on to hold the lease whatever has become of its directory; one that gives up can start again.
   */
  lemma SetsUp(s: State, c: Task) returns (s': State)
    requires Alive(s, c) && SettingUp(s.pcs[c])
    ensures Leads(s, s', false) && HasLease(s', c)
    ensures forall u :: u != c && HasLease(s, u) ==> HasLease(s', u)
  {
    LeadsSelf(s, false);
    if s.pcs[c].Aborting? {
      var gone := Put(s, c, Outcome(s.disk.(lock := None), Idle));
      Advances(s, s, c, Outcome(s.disk.(lock := None), Idle), false);
      Acquires(gone, c, false);
      s' := Put(gone, c, Acquired(gone.disk, c, s.home[c]));
      LeadsTrans(s, gone, s', false);
    } else {
      var o := Outcome(s.disk, s.pcs[c]);
      assert s == Put(s, c, o);
      if o.pc.Initializing? {
        Continues(s, c, o, Outcome(o.disk, WritingGeneration(o.disk.generation + 1)), false);
        o := Outcome(o.disk, WritingGeneration(o.disk.generation + 1));
      }
      if o.pc.WritingGeneration? {
        Continues(s, c, o, StepWriteGeneration(o.disk, o.pc.next), false);
        o := StepWriteGeneration(o.disk, o.pc.next);
      }
      var last := StepWriteLease(o.disk, c, s.home[c], o.pc.next);
      Continues(s, c, o, last, false);
      s' := Put(s, c, last);
    }
  }

  /**
   The converse for quarantine: in every reachable state with a lease-less lock directory whose creator is alive, a
   second task free to quarantine it and a third free to acquire, there is a continuation with two lease holders.
   */
  lemma CarelessQuarantineBreaksLease(s: State, actions: seq<Action>, before: State, q: Task, w: Task)
    requires Initial(s) && Trusted(s, actions) && before == Run(s, actions, true)
    requires before.disk.lock.Some? && before.disk.lock.value.lease.None? && before.disk.mutex.None?
    requires var c := before.disk.lock.value.creator; Alive(before, c) && c != q && c != w && q != w
    requires Alive(before, q) && before.pcs[q].Idle? && Alive(before, w) && before.pcs[w].Idle?
    ensures exists s' :: Leads(before, s', false) && HasLease(s', before.disk.lock.value.creator) && HasLease(s', w)
  {
    RunKeeps(s, actions);
    var d, c := before.disk, before.disk.lock.value.creator;
    var token := TokenOf(d.lock.value);
    assert token !in d.leaseEvidence;
    QuarantineMoves(before, q);
    var s1 := Put(before, q, Outcome(MovedAway(d, q, before.home[q]),
                                     LockedRecord(Quarantine(token), Mutex(d.nextInstance, before.home[q]))));
    Acquires(s1, w, false);
    var s2 := Put(s1, w, Acquired(s1.disk, w, s1.home[w]));
    LeadsTrans(before, s1, s2, false);
    var s3 := SetsUp(s2, c);
    LeadsTrans(before, s2, s3, false);
  }

  // ----- two callers inside the mutex -----

  /** One more action. */
  lemma Then(s: State, s1: State, a: Action, careful: bool)
    requires Leads(s, s1, careful)
    ensures Leads(s, Apply(s1, a, careful), careful)
  {
    LeadsOne(s1, a, careful);
    LeadsTrans(s, s1, Apply(s1, a, careful), careful);
  }

  /** Idle callers a, b, c and d in different processes of one host. */
  predicate Callers(s: State, a: Task, b: Task, c: Task, d: Task) {
    && {a, b, c, d} <= s.pcs.Keys && s.home.Keys == s.pcs.Keys
    && s.home[a].host == s.home[b].host
    && s.home[a] != s.home[b] && s.home[a] != s.home[c] && s.home[d] !in {s.home[a], s.home[b], s.home[c]}
    && a != b && a != c && b != c && d !in {a, b, c}
  }

  /** An initializer whose process has died leaves a lease-less lock directory. */
  lemma InitializerDies(s: State, c: Task) returns (s': State)
    requires Initial(s) && c in s.pcs
    ensures Leads(s, s', true)
    ensures s' == State(Empty(s.disk.strict).(dead := {s.home[c]}, lock := Some(LockDir(Stat(0, 0), None, c)),
                                              clock := 1),
                        s.home, s.pcs[c := Initializing])
  {
    LeadsOne(s, StartAcquire(c), true);
    var d1 := s.disk.(lock := Some(LockDir(Stat(0, 0), None, c)), clock := 1);
    Continues(s, c, Outcome(s.disk, Acquire), Outcome(d1, Initializing), true);
    var s1 := Put(s, c, Outcome(d1, Initializing));
    Then(s, s1, Die(s.home[c]), true);
    s' := Apply(s1, Die(s.home[c]), true);
  }

  /** The second caller reads that the first is inside the mutex. */
  lemma MutexRead2(s: State, t: Task, u: Task, m: Mutex, purpose: Purpose) returns (s': State)
    requires Alive(s, u) && s.pcs[u].Idle? && MayQuarantine(s, true) && s.disk.mutex == Some(m)
    requires purpose == Quarantine(TokenOf(s.disk.lock.value))
    ensures Leads(s, s', true) && s' == Put(s, u, Outcome(s.disk, MutexProbe(purpose, m)))
  {
    LeadsOne(s, StartQuarantine(u), true);
    Continues(s, u, Outcome(s.disk, MutexRename(purpose)), Outcome(s.disk, MutexRead(purpose)), true);
    Continues(s, u, Outcome(s.disk, MutexRead(purpose)), Outcome(s.disk, MutexProbe(purpose, m)), true);
    s' := Put(s, u, Outcome(s.disk, MutexProbe(purpose, m)));
  }

  /** A caller inside the mutex gives up its operation and releases the mutex. */
  lemma GivesUp(s: State, t: Task) returns (s': State)
    requires HasMutex(s, t) && s.pcs[t].LockedStat? && s.disk.mutex == Some(s.pcs[t].mine)
    ensures Leads(s, s', true)
    ensures s' == Put(s, t, Outcome(s.disk.(mutex := None), MutexReleaseCheck(s.pcs[t].mine, s.pcs[t].mine, false)))
  {
    var mine := s.pcs[t].mine;
    LeadsOne(s, Fail(t), true);
    Continues(s, t, Outcome(s.disk, MutexReleaseRead(mine, false)), Outcome(s.disk, MutexReleaseRename(mine, false)),
              true);
    Continues(s, t, Outcome(s.disk, MutexReleaseRename(mine, false)),
              Outcome(s.disk.(mutex := None), MutexReleaseCheck(mine, mine, false)), true);
    s' := Put(s, t, Outcome(s.disk.(mutex := None), MutexReleaseCheck(mine, mine, false)));
  }

  const LEFT := Quarantine(Token(None, Stat(0, 0)))

  /** The storage once the initializer d is dead. */
  function Left(strict: bool, d: Task, p: Proc): Disk {
    Empty(strict).(dead := {p}, lock := Some(LockDir(Stat(0, 0), None, d)), clock := 1)
  }

  /** Callers a and b want to quarantine what d left, and b reads that a is inside. */
  lemma ReadWhileInside(s: State, a: Task, b: Task, c: Task, d: Task) returns (s': State)
    requires Initial(s) && Callers(s, a, b, c, d)
    ensures Leads(s, s', true) && s'.disk == Entered(Left(s.disk.strict, d, s.home[d]), a, s.home[a])
    ensures s'.home == s.home
    ensures s'.pcs == s.pcs[d := Initializing][a := LockedStat(LEFT, Mutex(0, s.home[a]))]
                      [b := MutexProbe(LEFT, Mutex(0, s.home[a]))]
  {
    var s1 := InitializerDies(s, d);
    var m := Mutex(0, s.home[a]);
    QuarantineEnters(s1, a, true);
    var s2 := Put(s1, a, Outcome(Entered(s1.disk, a, s.home[a]), LockedStat(LEFT, m)));
    LeadsTrans(s, s1, s2, true);
    s' := MutexRead2(s2, a, b, m, LEFT);
    LeadsTrans(s, s2, s', true);
  }

  /** Then a leaves the mutex, and c wants to enter. */
  lemma StaleReadArises(s: State, a: Task, b: Task, c: Task, d: Task) returns (s': State)
    requires Initial(s) && Callers(s, a, b, c, d)
    ensures Leads(s, s', true) && s'.home == s.home
    ensures s'.disk == Entered(Left(s.disk.strict, d, s.home[d]), a, s.home[a]).(mutex := None)
    ensures var m := Mutex(0, s.home[a]);
            s'.pcs == s.pcs[d := Initializing][a := MutexReleaseCheck(m, m, false)]
                      [b := MutexProbe(LEFT, m)][c := MutexRename(LEFT)]
  {
    var m := Mutex(0, s.home[a]);
    var s3 := ReadWhileInside(s, a, b, c, d);
    var s4 := GivesUp(s3, a);
    LeadsTrans(s, s3, s4, true);
    Then(s, s4, StartQuarantine(c), true);
    s' := Apply(s4, StartQuarantine(c), true);
    assert s'.pcs == s.pcs[d := Initializing][a := MutexReleaseCheck(m, m, false)]
                     [b := MutexProbe(LEFT, m)][c := MutexRename(LEFT)];
  }

  /** The process of a exits, and c enters the mutex. */
  lemma OwnerExits(s: State, a: Task, b: Task, c: Task, d: Task) returns (s': State)
    requires Initial(s) && Callers(s, a, b, c, d)
    ensures Leads(s, s', true) && s'.home == s.home
    ensures s'.disk == Entered(Entered(Left(s.disk.strict, d, s.home[d]), a, s.home[a])
                               .(mutex := None, dead := {s.home[d]} + {s.home[a]}), c, s.home[c])
    ensures var m := Mutex(0, s.home[a]);
            s'.pcs == s.pcs[d := Initializing][a := MutexReleaseCheck(m, m, false)][b := MutexProbe(LEFT, m)]
                      [c := LockedStat(LEFT, Mutex(1, s.home[c]))]
  {
    var s1 := StaleReadArises(s, a, b, c, d);
    Then(s, s1, Die(s.home[a]), true);
    var s2 := Apply(s1, Die(s.home[a]), true);
    TakesMutex(s2, c);
    s' := Put(s2, c, StepMutexRename(s2.disk, c, s2.home[c], LEFT));
    LeadsTrans(s, s2, s', true);
    var m := Mutex(0, s.home[a]);
    assert s'.pcs == s.pcs[d := Initializing][a := MutexReleaseCheck(m, m, false)][b := MutexProbe(LEFT, m)]
                     [c := LockedStat(LEFT, Mutex(1, s.home[c]))];
  }

  /** The late probe of b displaces c: two live callers are inside the mutex. */
  lemma BothEnter(s: State, a: Task, b: Task, c: Task, d: Task) returns (s': State)
    requires Initial(s) && Callers(s, a, b, c, d)
    ensures Leads(s, s', true) && HasMutex(s', b) && HasMutex(s', c)
    ensures s'.home == s.home && s'.pcs.Keys == s.pcs.Keys && s'.disk.dead == {s.home[d]} + {s.home[a]}
    ensures s'.disk.lock == Some(LockDir(Stat(0, 0), None, d)) && s'.disk.leaseEvidence == {}
            && s'.disk.strict == s.disk.strict
    ensures s'.pcs[b].LockedStat? && s'.pcs[b].purpose == LEFT && s'.pcs[c].LockedStat? && s'.pcs[c].purpose == LEFT
    ensures forall u :: u in s.pcs && u !in {a, b, c, d} ==> s'.pcs[u] == s.pcs[u]
  {
    var s1 := OwnerExits(s, a, b, c, d);
    s' := DisplacesHolder(s1, b, c);
    LeadsTrans(s, s1, s', true);
  }

  /**
   From every initial state with four callers in different processes of one host some run, with a careful owner,
   puts two live callers inside the mutex.
   */
  lemma UnsafeDeathReachable(s: State, a: Task, b: Task, c: Task, d: Task) returns (actions: seq<Action>)
    requires Initial(s) && Callers(s, a, b, c, d)
    ensures HasMutex(Run(s, actions, true), b) && HasMutex(Run(s, actions, true), c)
  {
    var s' := BothEnter(s, a, b, c, d);
    actions :| Run(s, actions, true) == s';
  }

  // ----- renaming onto an empty directory -----

  /**
   Two quarantiners inside the mutex that have both matched the same lease-less directory: where a rename replaces an
   empty directory, the second one moves the directory of whoever acquired the lease in between.
   */
  lemma EmptyRenameDisplaces(s: State, b: Task, c: Task, w: Task, x: Task) returns (s': State)
    requires !s.disk.strict && s.disk.lock.Some? && s.disk.lock.value.lease.None?
    requires Alive(s, b) && Alive(s, c) && Alive(s, w) && Alive(s, x)
    requires b != c && w !in {b, c} && x !in {b, c, w}
    requires s.pcs[b].LockedPreserve? && s.pcs[c].LockedPreserve? && s.pcs[w].Idle? && s.pcs[x].Idle?
    requires s.pcs[b].purpose.token == TokenOf(s.disk.lock.value) == s.pcs[c].purpose.token
    requires s.pcs[b].purpose.token !in s.disk.leaseEvidence
    ensures Leads(s, s', true) && HasLease(s', w) && HasLease(s', x)
  {
    LeadsSelf(s, true);
    var ob := StepLockedPreserve(s.disk, s.pcs[b].purpose, s.pcs[b].mine);
    Advances(s, s, b, ob, true);
    var s1 := Put(s, b, ob);
    Acquires(s1, w, true);
    var s2 := Put(s1, w, Acquired(s1.disk, w, s.home[w]));
    LeadsTrans(s, s1, s2, true);
    var oc := StepLockedPreserve(s2.disk, s.pcs[c].purpose, s.pcs[c].mine);
    Advances(s, s2, c, oc, true);
    var s3 := Put(s2, c, oc);
    Acquires(s3, x, true);
    s' := Put(s3, x, Acquired(s3.disk, x, s.home[x]));
    LeadsTrans(s, s3, s', true);
  }

  /** Both callers inside the mutex match the directory that d left. */
  lemma BothMatch(s: State, a: Task, b: Task, c: Task, d: Task) returns (s': State)
    requires Initial(s) && Callers(s, a, b, c, d)
    ensures Leads(s, s', true) && s'.home == s.home && s'.pcs.Keys == s.pcs.Keys
            && s'.disk.dead == {s.home[d]} + {s.home[a]}
    ensures s'.disk.lock == Some(LockDir(Stat(0, 0), None, d)) && s'.disk.leaseEvidence == {}
            && s'.disk.strict == s.disk.strict
    ensures s'.pcs[b].LockedPreserve? && s'.pcs[b].purpose == LEFT && s'.pcs[c].LockedPreserve?
            && s'.pcs[c].purpose == LEFT
    ensures forall u :: u in s.pcs && u !in {a, b, c, d} ==> s'.pcs[u] == s.pcs[u]
  {
    var s1 := BothEnter(s, a, b, c, d);
    QuarantineMatches(s1, b, true);
    var s2 := Put(s1, b, Outcome(s1.disk, LockedPreserve(LEFT, s1.pcs[b].mine)));
    LeadsTrans(s, s1, s2, true);
    QuarantineMatches(s2, c, true);
    s' := Put(s2, c, Outcome(s2.disk, LockedPreserve(LEFT, s2.pcs[c].mine)));
    LeadsTrans(s, s2, s', true);
  }

  /**
   Where a rename replaces an empty directory, the lease is not exclusive in every run even with a careful owner:
   from every initial state with six callers some run gives two lease holders.
   */
  lemma EmptyRenameBreaksLease(s: State, a: Task, b: Task, c: Task, d: Task, w: Task, x: Task)
    returns (actions: seq<Action>)
    requires Initial(s) && !s.disk.strict && Callers(s, a, b, c, d)
    requires w in s.pcs && x in s.pcs && w !in {a, b, c, d} && x !in {a, b, c, d, w}
    requires s.home[w] !in {s.home[a], s.home[d]} && s.home[x] !in {s.home[a], s.home[d]}
    ensures HasLease(Run(s, actions, true), w) && HasLease(Run(s, actions, true), x)
  {
    var s1 := BothMatch(s, a, b, c, d);
    var s' := EmptyRenameDisplaces(s1, b, c, w, x);
    LeadsTrans(s, s1, s', true);
    actions :| Run(s, actions, true) == s';
  }
}
