/**
 The dispatcher lease and the recovery mutex, as a state machine over single file-system steps.

 Any number of tasks, spread over any number of processes and hosts, run acquire, renew, release,
 dead-owner recovery and owner quarantine.  A process may die between any two steps, which freezes
 all of its tasks.  `Apply` is total: an action that is not enabled leaves the state alone, so a
 theorem about every sequence of actions is a theorem about every interleaving.
 */
module Lease {
  import opened Common

  /** A process; pids are meaningful on their own host only. */
  datatype Proc = Proc(host: nat, pid: nat)

  /** One call in flight inside a process. */
  type Task = nat

  /** Contents of lease.json; `heartbeat` stands for the fields a renewal rewrites. */
  datatype DispatcherLease = DispatcherLease(instance: nat, generation: nat, owner: Proc, heartbeat: nat)

  /** Contents of the recovery lock's owner.json. */
  datatype Mutex = Mutex(instance: nat, owner: Proc)

  datatype Stat = Stat(birth: nat, mtime: nat)

  /** The lock directory.  `creator` is a history variable: nothing on disk records it and no step reads it. */
  datatype LockDir = LockDir(stat: Stat, lease: Option<DispatcherLease>, creator: Task)

  /** The evidence token: a hash of the raw lease file and the directory times, taken as injective. */
  datatype Token = Token(raw: Option<DispatcherLease>, stat: Stat)

  /** Why a task wants the recovery mutex, with the evidence token it expects to find. */
  datatype Purpose = Recover(token: Token) | Quarantine(token: Token)

  datatype PC =
    | Idle
    // acquireLease
    | Acquire
    | Initializing
    | WritingGeneration(next: nat)
    | WritingLease(next: nat)
    | Aborting
    // inspectLease outside the mutex
    | InspectStat
    | InspectRead(stat: Stat)
    | InspectProbe(stat: Stat, found: DispatcherLease)
    // acquireReconciliationMutex
    | MutexRename(purpose: Purpose)
    | MutexRead(purpose: Purpose)
    | MutexProbe(purpose: Purpose, seen: Mutex)
    | MutexPreserve(purpose: Purpose, seen: Mutex)
    // the operation run under the mutex
    | LockedStat(purpose: Purpose, mine: Mutex)
    | LockedRead(purpose: Purpose, mine: Mutex, stat: Stat)
    | LockedProbe(purpose: Purpose, mine: Mutex, current: Token)
    | LockedPreserve(purpose: Purpose, mine: Mutex)
    | LockedRecord(purpose: Purpose, mine: Mutex)
    // releaseReconciliationMutex
    | MutexReleaseRead(mine: Mutex, again: bool)
    | MutexReleaseRename(mine: Mutex, again: bool)
    | MutexReleaseCheck(mine: Mutex, movedMutex: Mutex, again: bool)
    // holding, renewing, releasing
    | Holding(lease: DispatcherLease)
    | RenewWrite(lease: DispatcherLease, now: nat)
    | ReleaseRename(lease: DispatcherLease)
    | ReleaseCheck(lease: DispatcherLease, moved: LockDir)

  /**
   Shared storage and process liveness.  `leaseEvidence` are the paths that directories have been moved to and
   `emptyEvidence` those of them whose directory holds no file yet.  `strict` is the file system's rule for renaming
   a directory onto an existing one: always refused, or refused only if that one is not empty.  `clock` and
   `nextInstance` supply fresh directory times and fresh random identities; `issued`, `issuedMutex` and `granted`
   are history variables.
   */
  datatype Disk = Disk(
    dead: set<Proc>,
    lock: Option<LockDir>,
    generation: nat,
    mutex: Option<Mutex>,
    leaseEvidence: set<Token>,
    emptyEvidence: set<Token>,
    strict: bool,
    mutexEvidence: set<nat>,
    clock: nat,
    nextInstance: nat,
    issued: map<nat, Proc>,
    issuedMutex: map<nat, Task>,
    granted: seq<DispatcherLease>)

  datatype State = State(disk: Disk, home: map<Task, Proc>, pcs: map<Task, PC>)

  datatype Action =
    | Die(victim: Proc)
    | StartAcquire(task: Task)
    | StartQuarantine(task: Task)
    | Renew(task: Task, now: nat)
    | Release(task: Task)
    | Fail(task: Task)
    | Advance(task: Task)

  function Empty(strict: bool): Disk {
    Disk({}, None, 0, None, {}, {}, strict, {}, 0, 0, map[], map[], [])
  }

  predicate Initial(s: State) {
    && s.disk == Empty(s.disk.strict)
    && s.home.Keys == s.pcs.Keys
    && (forall t :: t in s.pcs ==> s.pcs[t] == Idle)
  }

  predicate Alive(s: State, t: Task) {
    t in s.pcs && t in s.home && s.home[t] !in s.disk.dead
  }

  function TokenOf(dir: LockDir): Token {
    Token(dir.lease, dir.stat)
  }

  predicate SameLease(left: DispatcherLease, right: DispatcherLease) {
    left.instance == right.instance && left.generation == right.generation
  }

  // ----- single steps -----

  /** What one step of a task does: the storage it leaves and its next position. */
  datatype Outcome = Outcome(disk: Disk, pc: PC)

  /** Exclusive mkdir of the lock directory. */
  function StepAcquire(d: Disk, t: Task): Outcome {
    if d.lock.None? then
      Outcome(d.(lock := Some(LockDir(Stat(d.clock, d.clock), None, t)), clock := d.clock + 1), Initializing)
    else
      Outcome(d, InspectStat)
  }

  function StepWriteGeneration(d: Disk, next: nat): Outcome {
    Outcome(d.(generation := next), WritingLease(next))
  }

  /** The atomic write of lease.json; it recreates a missing parent directory. */
  function PutLease(d: Disk, t: Task, lease: DispatcherLease): Disk {
    var dir := match d.lock
               case Some(dir) => dir.(lease := Some(lease), stat := dir.stat.(mtime := d.clock))
               case None => LockDir(Stat(d.clock, d.clock), Some(lease), t);
    d.(lock := Some(dir), clock := d.clock + 1)
  }

  function StepWriteLease(d: Disk, t: Task, p: Proc, generation: nat): Outcome {
    var lease := DispatcherLease(d.nextInstance, generation, p, d.clock);
    Outcome(PutLease(d, t, lease).(nextInstance := d.nextInstance + 1,
                                   issued := d.issued[lease.instance := p],
                                   granted := d.granted + [lease]),
            Holding(lease))
  }

  function StepInspectRead(d: Disk, stat: Stat): Outcome {
    match d.lock
    case Some(LockDir(_, Some(lease), _)) => Outcome(d, InspectProbe(stat, lease))
    case _ => Outcome(d, Idle)
  }

  /** Only a dead owner on this host leads to recovery. */
  predicate ProvenDead(d: Disk, p: Proc, owner: Proc) {
    owner.host == p.host && owner in d.dead
  }

  function StepInspectProbe(d: Disk, p: Proc, stat: Stat, lease: DispatcherLease): Outcome {
    Outcome(d, if ProvenDead(d, p, lease.owner) then MutexRename(Recover(Token(Some(lease), stat))) else Idle)
  }

  /** Rename of the staged owner directory; it fails while the recovery lock exists. */
  function StepMutexRename(d: Disk, t: Task, p: Proc, purpose: Purpose): Outcome {
    if d.mutex.None? then
      var mine := Mutex(d.nextInstance, p);
      Outcome(d.(mutex := Some(mine), nextInstance := d.nextInstance + 1,
                 issuedMutex := d.issuedMutex[mine.instance := t]),
              LockedStat(purpose, mine))
    else
      Outcome(d, MutexRead(purpose))
  }

  function StepMutexRead(d: Disk, purpose: Purpose): Outcome {
    Outcome(d, if d.mutex.Some? then MutexProbe(purpose, d.mutex.value) else Idle)
  }

  function StepMutexProbe(d: Disk, p: Proc, purpose: Purpose, seen: Mutex): Outcome {
    Outcome(d, if ProvenDead(d, p, seen.owner) then MutexPreserve(purpose, seen) else Idle)
  }

  /** Moves whatever the recovery lock now is to the path named by the owner that was read. */
  function StepMutexPreserve(d: Disk, purpose: Purpose, seen: Mutex): Outcome {
    if d.mutex.None? || seen.instance in d.mutexEvidence then
      Outcome(d, Idle)
    else
      Outcome(d.(mutex := None, mutexEvidence := d.mutexEvidence + {seen.instance}), MutexRename(purpose))
  }

  function StepLockedStat(d: Disk, purpose: Purpose, mine: Mutex): Outcome {
    Outcome(d, match d.lock
               case Some(dir) => LockedRead(purpose, mine, dir.stat)
               case None => MutexReleaseRead(mine, false))
  }

  function StepLockedRead(d: Disk, purpose: Purpose, mine: Mutex, stat: Stat): Outcome {
    var raw := match d.lock case Some(dir) => dir.lease case None => None;
    var current := Token(raw, stat);
    Outcome(d, match purpose
               case Recover(_) =>
                 if raw.Some? then LockedProbe(purpose, mine, current) else MutexReleaseRead(mine, false)
               case Quarantine(expected) =>
                 if current == expected then LockedPreserve(purpose, mine) else MutexReleaseRead(mine, false))
  }

  function StepLockedProbe(d: Disk, p: Proc, purpose: Purpose, mine: Mutex, current: Token): Outcome {
    Outcome(d, if current == purpose.token && current.raw.Some? && ProvenDead(d, p, current.raw.value.owner)
               then LockedPreserve(purpose, mine) else MutexReleaseRead(mine, false))
  }

  /** A rename onto this evidence path is refused. */
  predicate Taken(d: Disk, token: Token) {
    token in d.leaseEvidence && (d.strict || token !in d.emptyEvidence)
  }

  /** Moves whatever the lock directory now is to the path named by the expected token. */
  function StepLockedPreserve(d: Disk, purpose: Purpose, mine: Mutex): Outcome {
    if d.lock.None? || Taken(d, purpose.token) then
      Outcome(d, MutexReleaseRead(mine, false))
    else
      var token := purpose.token;
      Outcome(d.(lock := None, leaseEvidence := d.leaseEvidence + {token},
                 emptyEvidence := if d.lock.value.lease.None? then d.emptyEvidence + {token}
                     else d.emptyEvidence - {token}),
              LockedRecord(purpose, mine))
  }

  /** Writes reconciliation.json into the evidence directory. */
  function StepLockedRecord(d: Disk, purpose: Purpose, mine: Mutex): Outcome {
    Outcome(d.(emptyEvidence := d.emptyEvidence - {purpose.token}), MutexReleaseRead(mine, purpose.Recover?))
  }

  function AfterMutex(again: bool): PC {
    if again then Acquire else Idle
  }

  function StepMutexReleaseRead(d: Disk, mine: Mutex, again: bool): Outcome {
    Outcome(d, if d.mutex.Some? && d.mutex.value.instance == mine.instance
               then MutexReleaseRename(mine, again) else AfterMutex(again))
  }

  function StepMutexReleaseRename(d: Disk, mine: Mutex, again: bool): Outcome {
    if d.mutex.None? then Outcome(d, AfterMutex(again))
    else Outcome(d.(mutex := None), MutexReleaseCheck(mine, d.mutex.value, again))
  }

  function StepReleaseRename(d: Disk, lease: DispatcherLease): Outcome {
    if d.lock.None? then Outcome(d, Idle)
    else Outcome(d.(lock := None), ReleaseCheck(lease, d.lock.value))
  }

  /** The next step of a task that is in the middle of an operation. */
  function Next(d: Disk, t: Task, p: Proc, pc: PC): Outcome {
    match pc
    case Idle => Outcome(d, Idle)
    case Acquire => StepAcquire(d, t)
    case Initializing => Outcome(d, WritingGeneration(d.generation + 1))
    case WritingGeneration(next) => StepWriteGeneration(d, next)
    case WritingLease(generation) => StepWriteLease(d, t, p, generation)
    case Aborting => Outcome(d.(lock := None), Idle)
    case InspectStat => Outcome(d, if d.lock.Some? then InspectRead(d.lock.value.stat) else Idle)
    case InspectRead(stat) => StepInspectRead(d, stat)
    case InspectProbe(stat, lease) => StepInspectProbe(d, p, stat, lease)
    case MutexRename(purpose) => StepMutexRename(d, t, p, purpose)
    case MutexRead(purpose) => StepMutexRead(d, purpose)
    case MutexProbe(purpose, seen) => StepMutexProbe(d, p, purpose, seen)
    case MutexPreserve(purpose, seen) => StepMutexPreserve(d, purpose, seen)
    case LockedStat(purpose, mine) => StepLockedStat(d, purpose, mine)
    case LockedRead(purpose, mine, stat) => StepLockedRead(d, purpose, mine, stat)
    case LockedProbe(purpose, mine, current) => StepLockedProbe(d, p, purpose, mine, current)
    case LockedPreserve(purpose, mine) => StepLockedPreserve(d, purpose, mine)
    case LockedRecord(purpose, mine) => StepLockedRecord(d, purpose, mine)
    case MutexReleaseRead(mine, again) => StepMutexReleaseRead(d, mine, again)
    case MutexReleaseRename(mine, again) => StepMutexReleaseRename(d, mine, again)
    case MutexReleaseCheck(mine, moved, again) =>
      Outcome(d, if moved.instance == mine.instance then AfterMutex(again) else Idle)
    case Holding(_) => Outcome(d, pc)
    case RenewWrite(lease, now) =>
      var renewed := lease.(heartbeat := now);
      Outcome(PutLease(d, t, renewed), Holding(renewed))
    case ReleaseRename(lease) => StepReleaseRename(d, lease)
    case ReleaseCheck(_, _) => Outcome(d, Idle)
  }

  /** An error inside an operation: acquisition removes its directory, a locked operation releases the mutex. */
  function Failed(pc: PC): PC {
    match pc
    case Initializing => Aborting
    case WritingGeneration(_) => Aborting
    case WritingLease(_) => Aborting
    case LockedStat(_, mine) => MutexReleaseRead(mine, false)
    case LockedRead(_, mine, _) => MutexReleaseRead(mine, false)
    case LockedProbe(_, mine, _) => MutexReleaseRead(mine, false)
    case LockedPreserve(_, mine) => MutexReleaseRead(mine, false)
    case LockedRecord(_, mine) => MutexReleaseRead(mine, false)
    case _ => pc
  }

  /** readLease plus the ownership checks of renewLease. */
  predicate StillMine(d: Disk, p: Proc, lease: DispatcherLease) {
    && d.lock.Some?
    && d.lock.value.lease.Some?
    && SameLease(d.lock.value.lease.value, lease)
    && d.lock.value.lease.value.owner == p
  }

  /**
   The owner approves quarantine of a lock directory without lease.json.  A careful owner does so only
   after verifying that the process that created the directory is gone.
   */
  predicate MayQuarantine(s: State, careful: bool) {
    && s.disk.lock.Some?
    && s.disk.lock.value.lease.None?
    && (careful ==> s.disk.lock.value.creator in s.home && s.home[s.disk.lock.value.creator] in s.disk.dead)
  }

  function Put(s: State, t: Task, o: Outcome): State {
    s.(disk := o.disk, pcs := s.pcs[t := o.pc])
  }

  function Apply(s: State, a: Action, careful: bool): State {
    if a.Die? then s.(disk := s.disk.(dead := s.disk.dead + {a.victim}))
    else if !Alive(s, a.task) then s
    else
      var t, pc, p := a.task, s.pcs[a.task], s.home[a.task];
      match a
      case StartAcquire(_) => if pc.Idle? then Put(s, t, Outcome(s.disk, Acquire)) else s
      case StartQuarantine(_) =>
        if pc.Idle? && MayQuarantine(s, careful)
        then Put(s, t, Outcome(s.disk, MutexRename(Quarantine(TokenOf(s.disk.lock.value))))) else s
      case Renew(_, now) =>
        if !pc.Holding? then s
        else if StillMine(s.disk, p, pc.lease)
        then Put(s, t, Outcome(s.disk, RenewWrite(s.disk.lock.value.lease.value, now)))
        else Put(s, t, Outcome(s.disk, Idle))
      case Release(_) =>
        if !pc.Holding? then s
        else if StillMine(s.disk, p, pc.lease) then Put(s, t, Outcome(s.disk, ReleaseRename(pc.lease)))
        else Put(s, t, Outcome(s.disk, Idle))
      case Fail(_) => Put(s, t, Outcome(s.disk, Failed(pc)))
      case Advance(_) => Put(s, t, Next(s.disk, t, p, pc))
  }

  function Run(s: State, actions: seq<Action>, careful: bool): State {
    if actions == [] then s
    else Apply(Run(s, actions[..|actions| - 1], careful), actions[|actions| - 1], careful)
  }

  // ----- the lease invariant -----

  /** This caller created the current lock directory. */
  predicate Mine(d: Disk, t: Task) {
    d.lock.Some? && d.lock.value.creator == t
  }

  predicate Issued(d: Disk, lease: DispatcherLease) {
    lease.instance in d.issued && d.issued[lease.instance] == lease.owner
  }

  /** The lock directory carries this token and its creator is gone. */
  predicate Abandoned(d: Disk, home: map<Task, Proc>, token: Token) {
    && d.lock.Some?
    && TokenOf(d.lock.value) == token
    && d.lock.value.creator in home
    && home[d.lock.value.creator] in d.dead
  }

  /** The directory a task means to move is already at its evidence path, or is an abandoned lock directory. */
  predicate Movable(d: Disk, home: map<Task, Proc>, token: Token) {
    token in d.leaseEvidence || Abandoned(d, home, token)
  }

  predicate PurposeOk(d: Disk, home: map<Task, Proc>, purpose: Purpose) {
    match purpose
    case Recover(token) => token.raw.Some? && Issued(d, token.raw.value) && token.raw.value.owner in d.dead
    case Quarantine(token) => token.raw.None? && Movable(d, home, token)
  }

  /** While the expected lease is in the lock directory, the directory times read earlier are still its times. */
  predicate StatCurrent(d: Disk, expected: DispatcherLease, stat: Stat) {
    d.lock.Some? && d.lock.value.lease.Some? && d.lock.value.lease.value.instance == expected.instance
    ==> d.lock.value.stat == stat
  }

  predicate HoldsOnDisk(d: Disk, t: Task, p: Proc, lease: DispatcherLease) {
    Mine(d, t) && d.lock.value.lease == Some(lease) && lease.owner == p
  }

  /** What a live task knows at each position. */
  predicate TaskOk(d: Disk, home: map<Task, Proc>, t: Task, p: Proc, pc: PC) {
    match pc
    case Initializing => Mine(d, t) && d.lock.value.lease.None?
    case WritingGeneration(next) => Mine(d, t) && d.lock.value.lease.None? && next == d.generation + 1
    case WritingLease(next) =>
      && Mine(d, t) && d.lock.value.lease.None? && next == d.generation
      && (forall i :: 0 <= i < |d.granted| ==> d.granted[i].generation < next)
    case Aborting => Mine(d, t)
    case InspectProbe(_, lease) => Issued(d, lease)
    case MutexRename(purpose) => PurposeOk(d, home, purpose)
    case MutexRead(purpose) => PurposeOk(d, home, purpose)
    case MutexProbe(purpose, _) => PurposeOk(d, home, purpose)
    case MutexPreserve(purpose, _) => PurposeOk(d, home, purpose)
    case LockedStat(purpose, _) => PurposeOk(d, home, purpose)
    case LockedRead(purpose, _, stat) =>
      PurposeOk(d, home, purpose) && (purpose.Recover? ==> StatCurrent(d, purpose.token.raw.value, stat))
    case LockedProbe(purpose, _, current) =>
      && PurposeOk(d, home, purpose) && purpose.Recover?
      && (current == purpose.token ==> Movable(d, home, current))
    case LockedPreserve(purpose, _) =>
      Movable(d, home, purpose.token) && (purpose.Recover? ==> purpose.token.raw.Some?)
    case Holding(lease) => HoldsOnDisk(d, t, p, lease)
    case RenewWrite(lease, _) => HoldsOnDisk(d, t, p, lease)
    case ReleaseRename(lease) => HoldsOnDisk(d, t, p, lease)
    case ReleaseCheck(lease, moved) => moved.lease == Some(lease)
    case _ => true
  }

  predicate GrantsOk(d: Disk) {
    && (forall i, j :: 0 <= i < j < |d.granted| ==> d.granted[i].generation < d.granted[j].generation)
    && (forall i :: 0 <= i < |d.granted| ==> d.granted[i].generation <= d.generation)
  }

  /** The lease on disk is the latest grant and names its creator's process. */
  predicate LockOk(d: Disk, home: map<Task, Proc>) {
    && (forall i :: i in d.issued ==> i < d.nextInstance)
    && (d.lock.Some? ==> d.lock.value.creator in home)
    && (d.lock.Some? && d.lock.value.lease.Some? ==>
          var lease := d.lock.value.lease.value;
          && Issued(d, lease)
          && lease.owner == home[d.lock.value.creator]
          && d.granted != [] && SameLease(lease, d.granted[|d.granted| - 1]))
  }

  /**
   Directory births are fresh, evidence keeps the births of what was moved, and only lease-less directories are
   empty.
   */
  predicate EvidenceOk(d: Disk) {
    && (d.lock.Some? ==> d.lock.value.stat.birth < d.clock)
    && (forall token :: token in d.leaseEvidence ==> token.stat.birth < d.clock)
    && (forall token :: token in d.leaseEvidence && d.lock.Some? ==> token.stat.birth != d.lock.value.stat.birth)
    && (forall token :: token in d.emptyEvidence ==> token in d.leaseEvidence && token.raw.None?)
  }

  /** The live creator of a lock directory without a lease is still setting it up, or giving up. */
  predicate CreatorOk(s: State) {
    s.disk.lock.Some? && s.disk.lock.value.lease.None? && Alive(s, s.disk.lock.value.creator) ==>
      SettingUp(s.pcs[s.disk.lock.value.creator])
  }

  predicate SettingUp(pc: PC) {
    pc.Initializing? || pc.WritingGeneration? || pc.WritingLease? || pc.Aborting?
  }

  ghost predicate Inv(s: State) {
    && s.home.Keys == s.pcs.Keys
    && CreatorOk(s)
    && GrantsOk(s.disk)
    && LockOk(s.disk, s.home)
    && EvidenceOk(s.disk)
    && (forall t :: Alive(s, t) ==> TaskOk(s.disk, s.home, t, s.home[t], s.pcs[t]))
  }

  // ----- preservation -----

  /** What a step of live task t must establish so that every other live task keeps its knowledge. */
  ghost predicate OthersKeep(s: State, t: Task, d': Disk) {
    forall u :: u != t && Alive(s, u) ==> TaskOk(d', s.home, u, s.home[u], s.pcs[u])
  }

  lemma PutKeepsInv(s: State, t: Task, o: Outcome)
    requires Inv(s) && Alive(s, t)
    requires o.disk.dead == s.disk.dead
    requires GrantsOk(o.disk) && LockOk(o.disk, s.home) && EvidenceOk(o.disk)
    requires TaskOk(o.disk, s.home, t, s.home[t], o.pc)
    requires OthersKeep(s, t, o.disk) && CreatorOk(Put(s, t, o))
    ensures Inv(Put(s, t, o))
  {
    var s' := Put(s, t, o);
    forall u | Alive(s', u) ensures TaskOk(s'.disk, s'.home, u, s'.home[u], s'.pcs[u]) {
      assert u == t || Alive(s, u);
    }
  }

  lemma QuietStep(s: State, t: Task, o: Outcome)
    requires Inv(s) && Alive(s, t)
    requires o.disk == s.disk && (SettingUp(s.pcs[t]) ==> SettingUp(o.pc))
    requires TaskOk(o.disk, s.home, t, s.home[t], o.pc)
    ensures Inv(Put(s, t, o))
  {
    PutKeepsInv(s, t, o);
  }

  lemma MutexOnlyStep(s: State, t: Task, o: Outcome)
    requires Inv(s) && Alive(s, t)
    requires o.disk.(mutex := s.disk.mutex, mutexEvidence := s.disk.mutexEvidence,
                     nextInstance := s.disk.nextInstance, issuedMutex := s.disk.issuedMutex) == s.disk
    requires o.disk.nextInstance >= s.disk.nextInstance && !SettingUp(s.pcs[t])
    requires TaskOk(s.disk, s.home, t, s.home[t], o.pc)
    ensures Inv(Put(s, t, o))
  {
    forall u | Alive(s, u) ensures TaskOk(o.disk, s.home, u, s.home[u], s.pcs[u]) {
      MutexIrrelevant(s.disk, o.disk, s.home, u, s.home[u], s.pcs[u]);
    }
    MutexIrrelevant(s.disk, o.disk, s.home, t, s.home[t], o.pc);
    PutKeepsInv(s, t, o);
  }

  lemma MutexIrrelevant(d: Disk, d': Disk, home: map<Task, Proc>, t: Task, p: Proc, pc: PC)
    requires d'.(mutex := d.mutex, mutexEvidence := d.mutexEvidence,
                 nextInstance := d.nextInstance, issuedMutex := d.issuedMutex) == d
    requires TaskOk(d, home, t, p, pc)
    ensures TaskOk(d', home, t, p, pc)
  {
  }

  lemma AcquireKeeps(s: State, t: Task)
    requires Inv(s) && Alive(s, t) && s.pcs[t].Acquire?
    ensures Inv(Put(s, t, StepAcquire(s.disk, t)))
  {
    var o := StepAcquire(s.disk, t);
    if s.disk.lock.None? {
      assert OthersKeep(s, t, o.disk);
      PutKeepsInv(s, t, o);
    } else {
      QuietStep(s, t, o);
    }
  }

  lemma WriteGenerationKeeps(s: State, t: Task)
    requires Inv(s) && Alive(s, t) && s.pcs[t].WritingGeneration?
    ensures Inv(Put(s, t, StepWriteGeneration(s.disk, s.pcs[t].next)))
  {
    var o := StepWriteGeneration(s.disk, s.pcs[t].next);
    assert TaskOk(s.disk, s.home, t, s.home[t], s.pcs[t]);
    PutKeepsInv(s, t, o);
  }

  lemma WriteLeaseKeeps(s: State, t: Task)
    requires Inv(s) && Alive(s, t) && s.pcs[t].WritingLease?
    ensures Inv(Put(s, t, StepWriteLease(s.disk, t, s.home[t], s.pcs[t].next)))
  {
    var o := StepWriteLease(s.disk, t, s.home[t], s.pcs[t].next);
    assert TaskOk(s.disk, s.home, t, s.home[t], s.pcs[t]);
    PutKeepsInv(s, t, o);
  }

  lemma RenewWriteKeeps(s: State, t: Task)
    requires Inv(s) && Alive(s, t) && s.pcs[t].RenewWrite?
    ensures Inv(Put(s, t, Next(s.disk, t, s.home[t], s.pcs[t])))
  {
    var o := Next(s.disk, t, s.home[t], s.pcs[t]);
    assert TaskOk(s.disk, s.home, t, s.home[t], s.pcs[t]);
    PutKeepsInv(s, t, o);
  }

  /** Abort and release take away a directory that its own caller created. */
  lemma OwnRemovalKeeps(s: State, t: Task, o: Outcome)
    requires Inv(s) && Alive(s, t) && Mine(s.disk, t)
    requires o.disk == s.disk.(lock := None)
    requires o.pc.Idle? || (o.pc.ReleaseCheck? && o.pc.moved.lease == Some(o.pc.lease))
    ensures Inv(Put(s, t, o))
  {
    assert OthersKeep(s, t, o.disk);
    PutKeepsInv(s, t, o);
  }

  /** What a task about to move the lock directory knows: it is the abandoned one, or the move will be refused. */
  predicate Firm(d: Disk, home: map<Task, Proc>, token: Token) {
    Abandoned(d, home, token) || Taken(d, token)
  }

  /** Recovery and quarantine move exactly the abandoned directory they inspected. */
  lemma PreserveKeeps(s: State, t: Task)
    requires Inv(s) && Alive(s, t) && s.pcs[t].LockedPreserve?
    requires Firm(s.disk, s.home, s.pcs[t].purpose.token)
    ensures Inv(Put(s, t, StepLockedPreserve(s.disk, s.pcs[t].purpose, s.pcs[t].mine)))
  {
    var token := s.pcs[t].purpose.token;
    var o := StepLockedPreserve(s.disk, s.pcs[t].purpose, s.pcs[t].mine);
    assert TaskOk(s.disk, s.home, t, s.home[t], s.pcs[t]);
    if s.disk.lock.None? || Taken(s.disk, token) {
      QuietStep(s, t, o);
    } else {
      assert OthersKeep(s, t, o.disk);
      PutKeepsInv(s, t, o);
    }
  }

  lemma RecordKeeps(s: State, t: Task)
    requires Inv(s) && Alive(s, t) && s.pcs[t].LockedRecord?
    ensures Inv(Put(s, t, StepLockedRecord(s.disk, s.pcs[t].purpose, s.pcs[t].mine)))
  {
    PutKeepsInv(s, t, StepLockedRecord(s.disk, s.pcs[t].purpose, s.pcs[t].mine));
  }

  lemma LockedKeeps(s: State, t: Task)
    requires Inv(s) && Alive(s, t)
    requires s.pcs[t].LockedStat? || s.pcs[t].LockedRead? || s.pcs[t].LockedProbe?
    ensures Inv(Put(s, t, Next(s.disk, t, s.home[t], s.pcs[t])))
  {
    var o := Next(s.disk, t, s.home[t], s.pcs[t]);
    assert TaskOk(s.disk, s.home, t, s.home[t], s.pcs[t]);
    assert TaskOk(s.disk, s.home, t, s.home[t], o.pc);
    QuietStep(s, t, o);
  }

  lemma MutexKeeps(s: State, t: Task)
    requires Inv(s) && Alive(s, t)
    requires s.pcs[t].MutexRename? || s.pcs[t].MutexRead? || s.pcs[t].MutexProbe? || s.pcs[t].MutexPreserve?
          || s.pcs[t].MutexReleaseRead? || s.pcs[t].MutexReleaseRename? || s.pcs[t].MutexReleaseCheck?
    ensures Inv(Put(s, t, Next(s.disk, t, s.home[t], s.pcs[t])))
  {
    assert TaskOk(s.disk, s.home, t, s.home[t], s.pcs[t]);
    MutexOnlyStep(s, t, Next(s.disk, t, s.home[t], s.pcs[t]));
  }

  /** The next step of t, if it moves the lock directory, moves an abandoned one. */
  predicate FirmStep(s: State, t: Task)
    requires t in s.pcs
  {
    s.pcs[t].LockedPreserve? ==> Firm(s.disk, s.home, s.pcs[t].purpose.token)
  }

  lemma NextKeeps(s: State, t: Task)
    requires Inv(s) && Alive(s, t) && FirmStep(s, t)
    ensures Inv(Put(s, t, Next(s.disk, t, s.home[t], s.pcs[t])))
  {
    var pc := s.pcs[t];
    var o := Next(s.disk, t, s.home[t], pc);
    assert TaskOk(s.disk, s.home, t, s.home[t], pc);
    match pc
    case Acquire => AcquireKeeps(s, t);
    case WritingGeneration(_) => WriteGenerationKeeps(s, t);
    case WritingLease(_) => WriteLeaseKeeps(s, t);
    case RenewWrite(_, _) => RenewWriteKeeps(s, t);
    case Aborting => OwnRemovalKeeps(s, t, o);
    case ReleaseRename(_) => OwnRemovalKeeps(s, t, o);
    case LockedPreserve(_, _) => PreserveKeeps(s, t);
    case LockedRecord(_, _) => RecordKeeps(s, t);
    case LockedStat(_, _) => LockedKeeps(s, t);
    case LockedRead(_, _, _) => LockedKeeps(s, t);
    case LockedProbe(_, _, _) => LockedKeeps(s, t);
    case MutexRename(_) => MutexKeeps(s, t);
    case MutexRead(_) => MutexKeeps(s, t);
    case MutexProbe(_, _) => MutexKeeps(s, t);
    case MutexPreserve(_, _) => MutexKeeps(s, t);
    case MutexReleaseRead(_, _) => MutexKeeps(s, t);
    case MutexReleaseRename(_, _) => MutexKeeps(s, t);
    case MutexReleaseCheck(_, _, _) => MutexKeeps(s, t);
    case _ => QuietStep(s, t, o);
  }

  lemma DeathKeeps(s: State, victim: Proc)
    requires Inv(s)
    ensures Inv(s.(disk := s.disk.(dead := s.disk.dead + {victim})))
  {
    var s' := s.(disk := s.disk.(dead := s.disk.dead + {victim}));
    forall t | Alive(s', t) ensures TaskOk(s'.disk, s'.home, t, s'.home[t], s'.pcs[t]) {
      assert Alive(s, t);
    }
  }

  lemma ApplyKeeps(s: State, a: Action)
    requires Inv(s) && (a.Advance? && Alive(s, a.task) ==> FirmStep(s, a.task))
    ensures Inv(Apply(s, a, true))
  {
    if a.Die? {
      DeathKeeps(s, a.victim);
    } else if Alive(s, a.task) {
      var t := a.task;
      assert TaskOk(s.disk, s.home, t, s.home[t], s.pcs[t]);
      match a
      case Advance(_) => NextKeeps(s, t);
      case StartAcquire(_) => if s.pcs[t].Idle? { QuietStep(s, t, Outcome(s.disk, Acquire)); }
      case StartQuarantine(_) =>
        if s.pcs[t].Idle? && MayQuarantine(s, true) {
          QuietStep(s, t, Outcome(s.disk, MutexRename(Quarantine(TokenOf(s.disk.lock.value)))));
        }
      case Renew(_, now) =>
        if s.pcs[t].Holding? {
          QuietStep(s, t, Outcome(s.disk, RenewWrite(s.disk.lock.value.lease.value, now)));
        }
      case Release(_) =>
        if s.pcs[t].Holding? { QuietStep(s, t, Outcome(s.disk, ReleaseRename(s.pcs[t].lease))); }
      case Fail(_) => QuietStep(s, t, Outcome(s.disk, Failed(s.pcs[t])));
    }
  }

  // ----- the recovery mutex -----

  /** A live caller is inside the operation that the recovery mutex protects. */
  predicate HasMutex(s: State, t: Task) {
    Alive(s, t) && InsideMutex(s.pcs[t])
  }

  predicate InsideMutex(pc: PC) {
    pc.LockedStat? || pc.LockedRead? || pc.LockedProbe? || pc.LockedPreserve? || pc.LockedRecord?
    || pc.MutexReleaseRead? || pc.MutexReleaseRename?
  }

  /** The recovery lock still belongs to the owner that was read, or that owner's evidence path is taken. */
  predicate StillSeen(d: Disk, seen: Mutex) {
    seen.instance in d.mutexEvidence || d.mutex == Some(seen)
  }

  predicate MutexTaskOk(d: Disk, t: Task, p: Proc, pc: PC) {
    && (InsideMutex(pc) ==>
          && d.mutex == Some(pc.mine) && pc.mine.owner == p
          && pc.mine.instance in d.issuedMutex && d.issuedMutex[pc.mine.instance] == t)
    && (pc.MutexProbe? ==> (ProvenDead(d, p, pc.seen.owner) ==> StillSeen(d, pc.seen)))
    && (pc.MutexPreserve? ==> ProvenDead(d, p, pc.seen.owner) && StillSeen(d, pc.seen))
  }

  ghost predicate MutexInv(s: State) {
    && (forall i :: i in s.disk.issuedMutex ==> i < s.disk.nextInstance)
    && (forall t :: Alive(s, t) ==> MutexTaskOk(s.disk, t, s.home[t], s.pcs[t]))
  }

  /**
   This caller has read a mutex of the victim's, on the same host, and will find it gone when it probes the victim.
   */
  predicate StaleRead(s: State, t: Task, victim: Proc) {
    && Alive(s, t) && s.home[t] != victim && s.home[t].host == victim.host
    && s.pcs[t].MutexProbe? && s.pcs[t].seen.owner == victim
    && !StillSeen(s.disk, s.pcs[t].seen)
  }

  /** A process goes away safely when nobody holds a stale read of its recovery mutex. */
  ghost predicate SafeDeath(s: State, victim: Proc) {
    forall t :: !StaleRead(s, t, victim)
  }

  ghost predicate SafeDeaths(s: State, actions: seq<Action>) {
    forall k :: 0 <= k < |actions| && actions[k].Die? ==>
      SafeDeath(Run(s, actions[..k], true), actions[k].victim)
  }

  lemma PutKeepsMutex(s: State, t: Task, o: Outcome)
    requires MutexInv(s) && Alive(s, t)
    requires o.disk.dead == s.disk.dead
    requires forall i :: i in o.disk.issuedMutex ==> i < o.disk.nextInstance
    requires MutexTaskOk(o.disk, t, s.home[t], o.pc)
    requires forall u :: u != t && Alive(s, u) ==> MutexTaskOk(o.disk, u, s.home[u], s.pcs[u])
    ensures MutexInv(Put(s, t, o))
  {
    var s' := Put(s, t, o);
    forall u | Alive(s', u) ensures MutexTaskOk(s'.disk, u, s'.home[u], s'.pcs[u]) {
      assert u == t || Alive(s, u);
    }
  }

  lemma MutexUntouched(s: State, t: Task, o: Outcome)
    requires MutexInv(s) && Alive(s, t)
    requires o.disk.dead == s.disk.dead && o.disk.mutex == s.disk.mutex
    requires o.disk.mutexEvidence == s.disk.mutexEvidence && o.disk.issuedMutex == s.disk.issuedMutex
    requires o.disk.nextInstance >= s.disk.nextInstance
    requires MutexTaskOk(s.disk, t, s.home[t], o.pc)
    ensures MutexInv(Put(s, t, o))
  {
    PutKeepsMutex(s, t, o);
  }

  lemma MutexChanged(s: State, t: Task, pc: PC, o: Outcome)
    requires MutexInv(s) && Alive(s, t) && pc == s.pcs[t] && o == Next(s.disk, t, s.home[t], pc)
    requires pc.MutexRename? || pc.MutexPreserve? || pc.MutexReleaseRename?
    ensures MutexInv(Put(s, t, o))
  {
    assert MutexTaskOk(s.disk, t, s.home[t], pc);
    forall u | u != t && Alive(s, u) ensures MutexTaskOk(o.disk, u, s.home[u], s.pcs[u]) {
      assert MutexTaskOk(s.disk, u, s.home[u], s.pcs[u]);
    }
    PutKeepsMutex(s, t, o);
  }

  lemma NextKeepsMutex(s: State, t: Task)
    requires MutexInv(s) && Alive(s, t)
    ensures MutexInv(Put(s, t, Next(s.disk, t, s.home[t], s.pcs[t])))
  {
    var pc := s.pcs[t];
    var o := Next(s.disk, t, s.home[t], pc);
    assert MutexTaskOk(s.disk, t, s.home[t], pc);
    if pc.MutexRename? || pc.MutexPreserve? || pc.MutexReleaseRename? {
      MutexChanged(s, t, pc, o);
    } else {
      assert MutexTaskOk(s.disk, t, s.home[t], o.pc);
      MutexUntouched(s, t, o);
    }
  }

  lemma ApplyKeepsMutex(s: State, a: Action)
    requires MutexInv(s)
    requires a.Die? ==> SafeDeath(s, a.victim)
    ensures MutexInv(Apply(s, a, true))
  {
    var s' := Apply(s, a, true);
    if a.Advance? && Alive(s, a.task) {
      NextKeepsMutex(s, a.task);
    } else {
      forall u | Alive(s', u) ensures MutexTaskOk(s'.disk, u, s'.home[u], s'.pcs[u]) {
        assert Alive(s, u);
        assert MutexTaskOk(s.disk, u, s.home[u], s.pcs[u]);
        if a.Die? { assert !StaleRead(s, u, a.victim); }
      }
    }
  }

  lemma TwoInside(s: State, t: Task, u: Task)
    requires MutexInv(s) && HasMutex(s, t) && HasMutex(s, u)
    ensures t == u
  {
    assert MutexTaskOk(s.disk, t, s.home[t], s.pcs[t]);
    assert MutexTaskOk(s.disk, u, s.home[u], s.pcs[u]);
  }

  // ----- moves under an exclusive mutex -----

  /** A quarantiner inside the mutex that has matched its token knows that the directory is still there. */
  predicate FirmTask(d: Disk, home: map<Task, Proc>, pc: PC) {
    && (pc.LockedRead? && pc.purpose.Quarantine? && pc.stat == pc.purpose.token.stat ==>
          Firm(d, home, pc.purpose.token))
    && (pc.LockedPreserve? && pc.purpose.Quarantine? ==> Firm(d, home, pc.purpose.token))
  }

  ghost predicate FirmInv(s: State) {
    forall t :: Alive(s, t) ==> FirmTask(s.disk, s.home, s.pcs[t])
  }

  lemma OwnStepFirm(s: State, t: Task)
    requires Inv(s) && FirmInv(s) && Alive(s, t)
    ensures FirmTask(s.disk, s.home, Next(s.disk, t, s.home[t], s.pcs[t]).pc)
  {
    assert TaskOk(s.disk, s.home, t, s.home[t], s.pcs[t]);
    assert FirmTask(s.disk, s.home, s.pcs[t]);
  }

  /** A step of another caller cannot take the directory away. */
  lemma OtherStepFirm(s: State, t: Task, u: Task, token: Token)
    requires Inv(s) && MutexInv(s) && Alive(s, t) && HasMutex(s, u) && t != u && Firm(s.disk, s.home, token)
    ensures Firm(Next(s.disk, t, s.home[t], s.pcs[t]).disk, s.home, token)
  {
    assert TaskOk(s.disk, s.home, t, s.home[t], s.pcs[t]);
    if s.pcs[t].LockedPreserve? { TwoInside(s, t, u); }
  }

  lemma NextKeepsFirm(s: State, t: Task)
    requires Inv(s) && MutexInv(s) && FirmInv(s) && Alive(s, t)
    ensures FirmInv(Put(s, t, Next(s.disk, t, s.home[t], s.pcs[t])))
  {
    var o := Next(s.disk, t, s.home[t], s.pcs[t]);
    var s' := Put(s, t, o);
    forall u | Alive(s', u) ensures FirmTask(s'.disk, s'.home, s'.pcs[u]) {
      assert Alive(s, u) && FirmTask(s.disk, s.home, s.pcs[u]);
      if u == t {
        OwnStepFirm(s, t);
        assert o.pc.LockedRead? || o.pc.LockedPreserve? ==> o.disk == s.disk;
      } else if (s.pcs[u].LockedRead? || s.pcs[u].LockedPreserve?) && Firm(s.disk, s.home, s.pcs[u].purpose.token) {
        OtherStepFirm(s, t, u, s.pcs[u].purpose.token);
      }
    }
  }

  lemma ApplyKeepsFirm(s: State, a: Action)
    requires Inv(s) && MutexInv(s) && FirmInv(s)
    ensures FirmInv(Apply(s, a, true))
  {
    var s' := Apply(s, a, true);
    if a.Advance? && Alive(s, a.task) {
      NextKeepsFirm(s, a.task);
    } else {
      forall u | Alive(s', u) ensures FirmTask(s'.disk, s'.home, s'.pcs[u]) {
        assert Alive(s, u) && FirmTask(s.disk, s.home, s.pcs[u]);
      }
    }
  }

  // ----- runs -----

  /** What the lease needs: a file system that never renames onto an existing directory, or safe deaths. */
  ghost predicate Trusted(s: State, actions: seq<Action>) {
    s.disk.strict || SafeDeaths(s, actions)
  }

  lemma SafeDeathsPrefix(s: State, actions: seq<Action>)
    requires actions != [] && SafeDeaths(s, actions)
    ensures SafeDeaths(s, actions[..|actions| - 1])
    ensures actions[|actions| - 1].Die? ==> SafeDeath(Run(s, actions[..|actions| - 1], true),
                                                      actions[|actions| - 1].victim)
  {
    var prefix := actions[..|actions| - 1];
    assert forall k :: 0 <= k < |prefix| ==> prefix[k] == actions[k] && prefix[..k] == actions[..k];
  }

  lemma FirmStepHolds(s: State, t: Task)
    requires Inv(s) && (s.disk.strict || FirmInv(s)) && Alive(s, t)
    ensures FirmStep(s, t)
  {
    assert TaskOk(s.disk, s.home, t, s.home[t], s.pcs[t]);
    if !s.disk.strict { assert FirmTask(s.disk, s.home, s.pcs[t]); }
  }

  lemma StrictFixed(s: State, a: Action)
    ensures Apply(s, a, true).disk.strict == s.disk.strict
  {
  }

  lemma {:induction false} RunKeepsStrict(s: State, actions: seq<Action>)
    requires Initial(s) && s.disk.strict
    ensures Inv(Run(s, actions, true)) && Run(s, actions, true).disk.strict
  {
    if actions != [] {
      var before, a := Run(s, actions[..|actions| - 1], true), actions[|actions| - 1];
      RunKeepsStrict(s, actions[..|actions| - 1]);
      if a.Advance? && Alive(before, a.task) { FirmStepHolds(before, a.task); }
      ApplyKeeps(before, a);
      StrictFixed(before, a);
    }
  }

  lemma {:induction false} RunKeepsAll(s: State, actions: seq<Action>)
    requires Initial(s) && SafeDeaths(s, actions)
    ensures Inv(Run(s, actions, true)) && MutexInv(Run(s, actions, true)) && FirmInv(Run(s, actions, true))
  {
    if actions != [] {
      SafeDeathsPrefix(s, actions);
      var before, a := Run(s, actions[..|actions| - 1], true), actions[|actions| - 1];
      RunKeepsAll(s, actions[..|actions| - 1]);
      if a.Advance? && Alive(before, a.task) { FirmStepHolds(before, a.task); }
      ApplyKeeps(before, a);
      ApplyKeepsMutex(before, a);
      ApplyKeepsFirm(before, a);
    }
  }

  lemma RunKeeps(s: State, actions: seq<Action>)
    requires Initial(s) && Trusted(s, actions)
    ensures Inv(Run(s, actions, true))
  {
    if s.disk.strict { RunKeepsStrict(s, actions); } else { RunKeepsAll(s, actions); }
  }

  // ----- main results -----

  /** A live caller believes it has the dispatcher lease, from the return of acquireLease to the release rename. */
  predicate HasLease(s: State, t: Task) {
    Alive(s, t) && (s.pcs[t].Holding? || s.pcs[t].RenewWrite? || s.pcs[t].ReleaseRename?)
  }

  lemma HolderOnDisk(s: State, t: Task)
    requires Inv(s) && HasLease(s, t)
    ensures Mine(s.disk, t) && s.disk.lock.value.lease == Some(s.pcs[t].lease)
    ensures s.disk.granted != [] && SameLease(s.pcs[t].lease, s.disk.granted[|s.disk.granted| - 1])
  {
    assert TaskOk(s.disk, s.home, t, s.home[t], s.pcs[t]);
  }

  /**
   In every interleaving at most one live task has the lease; its lease is the one on disk, it is the
   latest grant, and the identity check after the release rename never fails.
   */
  lemma LeaseExclusive(s: State, actions: seq<Action>, s': State)
    requires Initial(s) && Trusted(s, actions) && s' == Run(s, actions, true)
    ensures forall t, u :: HasLease(s', t) && HasLease(s', u) ==> t == u
    ensures forall t :: HasLease(s', t) ==>
              && s'.disk.lock.Some? && s'.disk.lock.value.lease == Some(s'.pcs[t].lease)
              && s'.disk.granted != []
              && SameLease(s'.pcs[t].lease, s'.disk.granted[|s'.disk.granted| - 1])
    ensures forall t :: Alive(s', t) && s'.pcs[t].ReleaseCheck? ==>
              s'.pcs[t].moved.lease == Some(s'.pcs[t].lease)
  {
    RunKeeps(s, actions);
    forall t | HasLease(s', t)
      ensures Mine(s'.disk, t) && s'.disk.lock.value.lease == Some(s'.pcs[t].lease)
      ensures s'.disk.granted != [] && SameLease(s'.pcs[t].lease, s'.disk.granted[|s'.disk.granted| - 1])
    {
      HolderOnDisk(s', t);
    }
  }

  /** Lease generations strictly increase over every run. */
  lemma GenerationsIncrease(s: State, actions: seq<Action>, i: nat, j: nat)
    requires Initial(s) && Trusted(s, actions)
    requires i < j < |Run(s, actions, true).disk.granted|
    ensures Run(s, actions, true).disk.granted[i].generation < Run(s, actions, true).disk.granted[j].generation
  {
    RunKeeps(s, actions);
  }

  lemma StepOfAnother(s: State, t: Task)
    requires Inv(s) && Alive(s, t) && FirmStep(s, t)
    requires s.disk.lock.Some? && Alive(s, s.disk.lock.value.creator) && t != s.disk.lock.value.creator
    ensures Next(s.disk, t, s.home[t], s.pcs[t]).disk.lock == s.disk.lock
  {
    assert TaskOk(s.disk, s.home, t, s.home[t], s.pcs[t]);
  }

  /**
   Nobody displaces a live owner: whatever a step does, a lock directory whose creator is alive and is
   not the acting task is unchanged afterwards, however late a recoverer runs.
   */
  lemma LiveOwnerStays(s: State, actions: seq<Action>, before: State, a: Action)
    requires Initial(s) && Trusted(s, actions) && before == Run(s, actions, true)
    requires before.disk.lock.Some? && Alive(before, before.disk.lock.value.creator)
    requires a.Die? || a.task != before.disk.lock.value.creator
    ensures Apply(before, a, true).disk.lock == before.disk.lock
  {
    RunKeeps(s, actions);
    if s.disk.strict { RunKeepsStrict(s, actions); } else { RunKeepsAll(s, actions); }
    if a.Advance? && Alive(before, a.task) {
      FirmStepHolds(before, a.task);
      StepOfAnother(before, a.task);
    }
  }

  /** If every death is safe, at most one live task is inside the recovery mutex, in every interleaving. */
  lemma MutexExclusive(s: State, actions: seq<Action>, s': State)
    requires Initial(s) && SafeDeaths(s, actions) && s' == Run(s, actions, true)
    ensures forall t, u :: HasMutex(s', t) && HasMutex(s', u) ==> t == u
  {
    RunKeepsAll(s, actions);
    forall t, u | HasMutex(s', t) && HasMutex(s', u) ensures t == u {
      TwoInside(s', t, u);
    }
  }
}
