/**
 The dispatch protocol: queue items, attempts, the dispatcher's volatile state, clients that cancel and retry,
 crashes, and the startup recovery.  Each action is one record update; the compare-and-swap behaviour of those
 updates is what module Journal proves, so an update here either finds exactly the value its author read or
 does not happen.  An action that is not enabled leaves the state alone.
 */
module Dispatch {
  import opened Common
  import opened Completion

  type JobId = nat
  type OpId = nat

  datatype Item = Item(
    status: ItemStatus,
    op: Option<OpId>,
    attempt: Option<AttemptId>,
    completion: Option<Evidence>,
    retries: nat,
    dependsOn: seq<JobId>,
    revision: nat)

  /**
   `workspace` says that the manifest names a worktree; `removing`, that after the attempt ended the removal of its
   worktree was registered and has not been proven.  `launched` is a history variable: the attempt passed from claimed
   to preparing.
   */
  datatype Attempt = Attempt(
    job: JobId,
    op: Option<OpId>,
    status: AttemptStatus,
    verification: VerificationStatus,
    cleanup: CleanupStatus,
    workspace: bool,
    removing: bool,
    parents: seq<AttemptId>,
    launched: bool)

  /** Where dispatchAvailable is with an item, and the item value it last wrote. */
  datatype Dispatching = Marked(mine: Item, parents: seq<AttemptId>) | Held(mine: Item, attempt: AttemptId)

  /** Where executeItem is with an active item. */
  datatype Execution =
    | Bound
    | Claiming(attempt: AttemptId, op: OpId)
    | Launching(attempt: AttemptId, op: OpId)
    | Waiting(attempt: AttemptId)
    | Ended

  /** Startup recovery; `Finishing` remembers the terminal attempt it is about to project onto an item. */
  datatype Recovery = Off | On | Finishing(job: JobId, attempt: AttemptId)

  /**
   `reading` holds, for items that recovery has listed as active, the attempt they named then; `vouched`, the items
   whose attempt recovery found safe to retry; `retrying`, the items that passed the checks of a client's retry.
   */
  datatype State = State(
    items: map<JobId, Item>,
    attempts: map<AttemptId, Attempt>,
    maxRetries: map<JobId, nat>,
    listed: map<JobId, Item>,
    dispatching: map<JobId, Dispatching>,
    active: map<JobId, Execution>,
    executing: set<AttemptId>,
    recovery: Recovery,
    reading: map<JobId, AttemptId>,
    vouched: map<JobId, Item>,
    retrying: map<JobId, Item>,
    nextOp: OpId)

  datatype Action =
    | Enqueue(job: JobId, dependsOn: seq<JobId>)
    // dispatchAvailable
    | List
    | Block(job: JobId)
    | Mark(job: JobId)
    | Reserve(job: JobId, attempt: AttemptId)
    | RejectLineage(job: JobId)
    | Bind(job: JobId)
    | Abandon(job: JobId)
    // executeItem and the attempt's execution
    | ReadBound(job: JobId)
    | Claim(job: JobId)
    | Launch(job: JobId)
    | Progress(attempt: AttemptId, next: AttemptStatus, verification: VerificationStatus, workspace: bool)
    | CleanupChange(attempt: AttemptId, cleanup: CleanupStatus)
    | EndExecution(attempt: AttemptId)
    | Finish(job: JobId)
    | ExecutionError(job: JobId)
    | Drop(job: JobId)
    // clients
    | CancelRunning(job: JobId)
    | CancelAttempt(attempt: AttemptId)
    | CancelItem(job: JobId)
    | RetryCheck(job: JobId)
    | RetryCommit(job: JobId)
    | RemovalStart(attempt: AttemptId)
    | RemovalEnd(attempt: AttemptId, proven: bool)
    // crash and startup recovery
    | Crash
    | RecoverUnreserved(job: JobId)
    | RecoverBind(job: JobId, attempt: AttemptId)
    | RecoverRead(job: JobId)
    | RecoverForget(job: JobId)
    | RecoverSeeTerminal(job: JobId)
    | RecoverFinish
    | RecoverAttempt(attempt: AttemptId)
    | RecoverWithdraw(job: JobId)
    | RecoverCheck(job: JobId)
    | RecoverRequeue(job: JobId)
    | RecoverCancelled(job: JobId)
    | RecoverNeedsInput(job: JobId)
    | RecoverDone

  predicate Initial(s: State) {
    && s.items == map[] && s.attempts == map[] && s.listed == map[] && s.dispatching == map[]
    && s.active == map[] && s.executing == {} && s.recovery == On
    && s.reading == map[] && s.vouched == map[] && s.retrying == map[]
  }

  /** The update of a queue item: merges a patch, bumps the revision; the caller checks the transition. */
  function Write(s: State, job: JobId, next: Item): State
    requires job in s.items
  {
    s.(items := s.items[job := next.(revision := s.items[job].revision + 1)])
  }

  function Result(s: State, a: AttemptId): Evidence
    requires a in s.attempts
  {
    Evidence(a, s.attempts[a].status, s.attempts[a].verification, s.attempts[a].cleanup)
  }

  /** finishItem's patch. */
  function Projected(item: Item, result: Evidence): Item {
    item.(status := ProjectStatus(result), attempt := Some(result.attempt), completion := Some(result))
  }

  predicate TerminalAttempt(s: State, a: AttemptId) {
    a in s.attempts && AttemptTerminal(s.attempts[a].status)
  }

  /** Every dependency was completed with attempt evidence when the queue was listed. */
  predicate DependenciesListed(s: State, item: Item) {
    forall i :: 0 <= i < |item.dependsOn| ==>
      && item.dependsOn[i] in s.listed
      && s.listed[item.dependsOn[i]].status == ItemCompleted
      && s.listed[item.dependsOn[i]].completion.Some?
  }

  function Parents(s: State, item: Item): seq<AttemptId>
    requires DependenciesListed(s, item)
  {
    seq(|item.dependsOn|, i requires 0 <= i < |item.dependsOn| => s.listed[item.dependsOn[i]].completion.value.attempt)
  }

  /** The attempts reserved by one dispatch operation of a job. */
  predicate ReservedBy(attempt: Attempt, job: JobId, op: OpId) {
    attempt.job == job && attempt.op == Some(op)
  }

  predicate Is(s: State, job: JobId, status: ItemStatus) {
    job in s.items && s.items[job].status == status
  }

  predicate ActiveItem(s: State, job: JobId) {
    Is(s, job, Running) || Is(s, job, Cancelling)
  }

  // ----- dispatchAvailable -----

  function ApplyEnqueue(s: State, job: JobId, dependsOn: seq<JobId>): State {
    if job in s.items || job !in s.maxRetries then s
    else s.(items := s.items[job := Item(Queued, None, None, None, 0, dependsOn, 0)])
  }

  function ApplyBlock(s: State, job: JobId): State {
    if !Is(s, job, Queued) then s else Write(s, job, s.items[job].(status := ItemNeedsInput))
  }

  function ApplyMark(s: State, job: JobId): State {
    if !Is(s, job, Queued) || job !in s.listed || s.listed[job] != s.items[job] || job in s.active
       || job in s.dispatching || !DependenciesListed(s, s.items[job]) then s
    else
      var marked := s.items[job].(status := Dispatching, op := Some(s.nextOp), attempt := None);
      var s1 := Write(s, job, marked);
      s1.(dispatching := s.dispatching[job := Marked(s1.items[job], Parents(s, s.items[job]))], nextOp := s.nextOp + 1)
  }

  /** A reservation that has not been claimed. */
  function NewAttempt(job: JobId, op: Option<OpId>, parents: seq<AttemptId>): Attempt {
    Attempt(job, op, Reserved, NotRun, NotRequired, false, false, parents, false)
  }

  function ApplyReserve(s: State, job: JobId, a: AttemptId): State {
    if job !in s.dispatching || !s.dispatching[job].Marked? || a in s.attempts then s
    else
      var Marked(mine, parents) := s.dispatching[job];
      s.(attempts := s.attempts[a := NewAttempt(job, mine.op, parents)],
         dispatching := s.dispatching[job := Held(mine, a)])
  }

  function ApplyRejectLineage(s: State, job: JobId): State {
    if job !in s.dispatching || !s.dispatching[job].Marked? || job !in s.items then s
    else
      var s1 := s.(dispatching := s.dispatching - {job});
      if s.items[job] != s.dispatching[job].mine then s1
      else Write(s1, job, s.items[job].(status := ItemNeedsInput))
  }

  function ApplyBind(s: State, job: JobId): State {
    if job !in s.dispatching || !s.dispatching[job].Held? || job !in s.items then s
    else
      var s1 := s.(dispatching := s.dispatching - {job});
      if s.items[job] != s.dispatching[job].mine then s1
      else Write(s1, job, s.items[job].(status := Running, attempt := Some(s.dispatching[job].attempt)))
           .(active := s.active[job := Bound])
  }

  // ----- executeItem -----

  function ApplyReadBound(s: State, job: JobId): State {
    if job !in s.active || !s.active[job].Bound? || job !in s.items then s
    else
      var item := s.items[job];
      s.(active := s.active[job := if item.status == Running && item.attempt.Some? && item.op.Some?
                                   then Claiming(item.attempt.value, item.op.value) else Ended])
  }

  /** claimReservedAttempt succeeds on a reserved attempt of the same operation. */
  predicate Claimable(s: State, a: AttemptId, op: OpId) {
    a in s.attempts && s.attempts[a].status == Reserved && (s.attempts[a].op.None? || s.attempts[a].op == Some(op))
  }

  function ApplyClaim(s: State, job: JobId): State {
    if job !in s.active || !s.active[job].Claiming? then s
    else
      var Claiming(a, op) := s.active[job];
      if !Claimable(s, a, op) then s
      else s.(attempts := s.attempts[a := s.attempts[a].(status := Claimed, op := Some(op))],
              active := s.active[job := Launching(a, op)])
  }

  function ApplyLaunch(s: State, job: JobId): State {
    if job !in s.active || !s.active[job].Launching? || s.active[job].attempt !in s.attempts then s
    else
      var Launching(a, op) := s.active[job];
      if s.attempts[a].status != Claimed || s.attempts[a].op != Some(op) || a in s.executing then s
      else s.(executing := s.executing + {a}, active := s.active[job := Waiting(a)])
  }

  /** One update of the manifest by the running execution; only a completed attempt is ever eligible. */
  function ApplyProgress(s: State, a: AttemptId, next: AttemptStatus, verification: VerificationStatus,
                         workspace: bool): State
  {
    if a !in s.executing || a !in s.attempts || !AttemptMay(s.attempts[a].status, next)
       || (verification == Eligible && next != Completed) then s
    else
      var known := s.attempts[a];
      s.(attempts := s.attempts[a := known.(status := next, verification := verification,
                                            workspace := known.workspace || (next == Preparing && workspace),
                                            launched := known.launched || next == Preparing)])
  }

  /**
   Requirements are registered and observed by an execution after its preparing commit and by the recovery of an
   attempt past its claim; once the attempt has ended, only unresolved requirements get further observations.
   */
  predicate CleanupOpen(attempt: Attempt) {
    || attempt.status in {Preparing, AttemptRunning, Verifying}
    || (AttemptTerminal(attempt.status) && !CleanupSafe(attempt.cleanup) && !attempt.removing)
  }

  function ApplyCleanupChange(s: State, a: AttemptId, cleanup: CleanupStatus): State {
    if a !in s.attempts || !CleanupOpen(s.attempts[a]) then s
    else s.(attempts := s.attempts[a := s.attempts[a].(cleanup := cleanup)])
  }

  /** removeAttemptWorkspace registers the worktree of an ended attempt, which opens its cleanup again. */
  function ApplyRemovalStart(s: State, a: AttemptId): State {
    if a !in s.attempts || !AttemptTerminal(s.attempts[a].status) || !s.attempts[a].workspace then s
    else
      var cleanup := if CleanupSafe(s.attempts[a].cleanup) then Pending else s.attempts[a].cleanup;
      s.(attempts := s.attempts[a := s.attempts[a].(cleanup := cleanup, removing := true)])
  }

  /** removeAttemptWorkspace records the outcome; everything else was proven before it began. */
  function ApplyRemovalEnd(s: State, a: AttemptId, proven: bool): State {
    if a !in s.attempts || !s.attempts[a].removing then s
    else s.(attempts := s.attempts[a := s.attempts[a].(cleanup := if proven then Proven else CleanupFailed,
                                                       removing := !proven)])
  }

  function ApplyFinish(s: State, job: JobId): State {
    if job !in s.active || !s.active[job].Waiting? || job !in s.items then s
    else
      var a := s.active[job].attempt;
      if a in s.executing || !TerminalAttempt(s, a) then s
      else
        var next := Projected(s.items[job], Result(s, a));
        if ItemMay(s.items[job].status, next.status)
        then Write(s, job, next).(active := s.active[job := Ended]) else s
  }

  function ApplyExecutionError(s: State, job: JobId): State {
    if job !in s.active || s.active[job].Ended? || job !in s.items then s
    else
      var s1 := s.(active := s.active[job := Ended]);
      if s.items[job].status == ItemCancelled || !ItemMay(s.items[job].status, ItemFailed) then s1
      else Write(s1, job, s.items[job].(status := ItemFailed))
  }

  // ----- cancel and retry -----

  function ApplyCancelRunning(s: State, job: JobId): State {
    if !Is(s, job, Running) || s.items[job].attempt.None? then s
    else Write(s, job, s.items[job].(status := Cancelling))
  }

  function ApplyCancelAttempt(s: State, a: AttemptId): State {
    if a !in s.attempts || s.attempts[a].status !in {Reserved, Claimed} then s
    else s.(attempts := s.attempts[a := s.attempts[a].(status := Cancelled, verification := Ineligible)])
  }

  /** Cancel's last update: of an unstarted item, or of a cancelling item whose attempt turned out terminal. */
  function ApplyCancelItem(s: State, job: JobId): State {
    if job !in s.items then s
    else
      var item := s.items[job];
      if item.status in {Queued, Dispatching} || (item.status == Running && item.attempt.None?)
         || (item.status == Cancelling && item.attempt.Some? && TerminalAttempt(s, item.attempt.value))
      then Write(s, job, item.(status := ItemCancelled)) else s
  }

  /** An attempt that has ended with its cleanup resolved. */
  predicate Clean(s: State, a: AttemptId) {
    TerminalAttempt(s, a) && CleanupSafe(s.attempts[a].cleanup)
  }

  /** The checks of retry, up to its queue update. */
  function ApplyRetryCheck(s: State, job: JobId): State {
    if job !in s.items || !ItemTerminal(s.items[job].status) then s
    else if s.items[job].attempt.Some? && !Clean(s, s.items[job].attempt.value) then s
    else s.(retrying := s.retrying[job := s.items[job]])
  }

  /** The queue update of retry: only the item is compared. */
  function ApplyRetryCommit(s: State, job: JobId): State {
    if job !in s.retrying || job !in s.items then s
    else
      var s1 := s.(retrying := s.retrying - {job});
      if s.items[job] != s.retrying[job] then s1 else Write(s1, job, Requeued(s.items[job]))
  }

  function Requeued(item: Item): Item {
    item.(status := Queued, op := None, attempt := None, completion := None)
  }

  // ----- startup recovery -----

  /** The attempts that recovery listed may be out of date, so a reservation made since does not hold it back. */
  function ApplyRecoverUnreserved(s: State, job: JobId): State {
    if !Is(s, job, Dispatching) || s.items[job].op.None? then s
    else Write(s, job, s.items[job].(status := Queued, op := None, attempt := None))
  }

  function ApplyRecoverBind(s: State, job: JobId, a: AttemptId): State {
    if !Is(s, job, Dispatching) || s.items[job].op.None? || a !in s.attempts
       || !ReservedBy(s.attempts[a], job, s.items[job].op.value) then s
    else Write(s, job, s.items[job].(status := Running, attempt := Some(a)))
  }

  function ApplyRecoverRead(s: State, job: JobId): State {
    if !ActiveItem(s, job) || s.items[job].attempt.None? then s
    else s.(reading := s.reading[job := s.items[job].attempt.value])
  }

  function ApplyRecoverSeeTerminal(s: State, job: JobId): State {
    if job !in s.reading || !TerminalAttempt(s, s.reading[job]) then s
    else s.(recovery := Finishing(job, s.reading[job]), reading := s.reading - {job})
  }

  function ApplyRecoverFinish(s: State, job: JobId, a: AttemptId): State {
    if job !in s.items || a !in s.attempts then s
    else
      var next := Projected(s.items[job], Result(s, a));
      if ItemMay(s.items[job].status, next.status) then Write(s, job, next).(recovery := On) else s.(recovery := On)
  }

  /** recoverInterruptedAttempt ends a never-launched attempt as cancelled and any other as failed. */
  function ApplyRecoverAttempt(s: State, a: AttemptId): State {
    if a !in s.attempts || AttemptTerminal(s.attempts[a].status) then s
    else
      var next := if s.attempts[a].status in {Reserved, Claimed} then Cancelled else Failed;
      s.(attempts := s.attempts[a := s.attempts[a].(status := next, verification := Ineligible)])
  }

  /** Recovery ends an attempt that was never launched and takes it as safe without looking at its cleanup. */
  function ApplyRecoverWithdraw(s: State, job: JobId): State {
    if !ActiveItem(s, job) || s.items[job].attempt.None? || s.items[job].attempt.value !in s.attempts then s
    else
      var a := s.items[job].attempt.value;
      if s.attempts[a].status !in {Reserved, Claimed} then s
      else ApplyRecoverAttempt(s, a).(vouched := s.vouched[job := s.items[job]])
  }

  /** Recovery finds an attempt that it has ended clean. */
  function ApplyRecoverCheck(s: State, job: JobId): State {
    if !ActiveItem(s, job) || s.items[job].attempt.None? || !Clean(s, s.items[job].attempt.value) then s
    else s.(vouched := s.vouched[job := s.items[job]])
  }

  function ApplyRecoverRequeue(s: State, job: JobId): State {
    if job !in s.vouched || job !in s.items then s
    else
      var s1 := s.(vouched := s.vouched - {job});
      if s.items[job] != s.vouched[job] || s.items[job].status != Running
         || job !in s.maxRetries || s.items[job].retries >= s.maxRetries[job] then s1
      else Write(s1, job, Requeued(s.items[job]).(retries := s.items[job].retries + 1))
  }

  function ApplyRecoverCancelled(s: State, job: JobId): State {
    if job !in s.vouched || job !in s.items then s
    else
      var s1 := s.(vouched := s.vouched - {job});
      if s.items[job] != s.vouched[job] || s.items[job].status != Cancelling then s1
      else Write(s1, job, s.items[job].(status := ItemCancelled, op := None, completion := None))
  }

  /** Missing or ambiguous identity, exhausted retries, or unresolved cleanup. */
  function ApplyRecoverNeedsInput(s: State, job: JobId): State {
    if !ActiveItem(s, job) && !Is(s, job, Dispatching) then s
    else Write(s.(vouched := s.vouched - {job}), job, s.items[job].(status := ItemNeedsInput))
  }

  /** The dispatcher process dies; a client's retry may be going on in another process. */
  function ApplyCrash(s: State): State {
    s.(listed := map[], dispatching := map[], active := map[], executing := {},
       recovery := On, reading := map[], vouched := map[])
  }

  // ----- all actions -----

  predicate IsListing(action: Action) {
    action.Enqueue? || action.List? || action.Block? || action.Mark?
  }

  /** `dispatchable` says whether the dispatcher may list and mark items. */
  function ApplyListing(s: State, action: Action, dispatchable: bool): State
    requires IsListing(action)
  {
    match action
    case Enqueue(job, dependsOn) => ApplyEnqueue(s, job, dependsOn)
    case List => if dispatchable then s.(listed := s.items) else s
    case Block(job) => if dispatchable then ApplyBlock(s, job) else s
    case Mark(job) => if dispatchable then ApplyMark(s, job) else s
  }

  predicate IsReserving(action: Action) {
    action.Reserve? || action.RejectLineage? || action.Bind? || action.Abandon?
  }

  function ApplyReserving(s: State, action: Action): State
    requires IsReserving(action)
  {
    match action
    case Reserve(job, a) => ApplyReserve(s, job, a)
    case RejectLineage(job) => ApplyRejectLineage(s, job)
    case Bind(job) => ApplyBind(s, job)
    case Abandon(job) => s.(dispatching := s.dispatching - {job})
  }

  predicate IsStarting(action: Action) {
    action.ReadBound? || action.Claim? || action.Launch? || action.Progress?
  }

  function ApplyStarting(s: State, action: Action): State
    requires IsStarting(action)
  {
    match action
    case ReadBound(job) => ApplyReadBound(s, job)
    case Claim(job) => ApplyClaim(s, job)
    case Launch(job) => ApplyLaunch(s, job)
    case Progress(a, next, verification, workspace) => ApplyProgress(s, a, next, verification, workspace)
  }

  predicate IsEnding(action: Action) {
    action.CleanupChange? || action.EndExecution? || action.Finish? || action.ExecutionError? || action.Drop?
  }

  function ApplyEnding(s: State, action: Action): State
    requires IsEnding(action)
  {
    match action
    case CleanupChange(a, cleanup) => ApplyCleanupChange(s, a, cleanup)
    case EndExecution(a) => s.(executing := s.executing - {a})
    case Finish(job) => ApplyFinish(s, job)
    case ExecutionError(job) => ApplyExecutionError(s, job)
    case Drop(job) => if job in s.active && s.active[job].Ended? then s.(active := s.active - {job}) else s
  }

  predicate IsCancel(action: Action) {
    action.CancelRunning? || action.CancelAttempt? || action.CancelItem? || action.Crash?
  }

  function ApplyCancel(s: State, action: Action): State
    requires IsCancel(action)
  {
    match action
    case CancelRunning(job) => ApplyCancelRunning(s, job)
    case CancelAttempt(a) => ApplyCancelAttempt(s, a)
    case CancelItem(job) => ApplyCancelItem(s, job)
    case Crash => ApplyCrash(s)
  }

  predicate IsRetry(action: Action) {
    action.RetryCheck? || action.RetryCommit? || action.RemovalStart? || action.RemovalEnd?
  }

  function ApplyRetry(s: State, action: Action): State
    requires IsRetry(action)
  {
    match action
    case RetryCheck(job) => ApplyRetryCheck(s, job)
    case RetryCommit(job) => ApplyRetryCommit(s, job)
    case RemovalStart(a) => ApplyRemovalStart(s, a)
    case RemovalEnd(a, proven) => ApplyRemovalEnd(s, a, proven)
  }

  predicate IsBinding(action: Action) {
    action.RecoverUnreserved? || action.RecoverBind?
  }

  function ApplyBinding(s: State, action: Action): State
    requires IsBinding(action)
  {
    match action
    case RecoverUnreserved(job) => ApplyRecoverUnreserved(s, job)
    case RecoverBind(job, a) => ApplyRecoverBind(s, job, a)
  }

  predicate IsSettling(action: Action) {
    action.RecoverRequeue? || action.RecoverCancelled? || action.RecoverNeedsInput?
  }

  function ApplySettling(s: State, action: Action): State
    requires IsSettling(action)
  {
    match action
    case RecoverRequeue(job) => ApplyRecoverRequeue(s, job)
    case RecoverCancelled(job) => ApplyRecoverCancelled(s, job)
    case RecoverNeedsInput(job) => ApplyRecoverNeedsInput(s, job)
  }

  predicate IsInspecting(action: Action) {
    || action.RecoverRead? || action.RecoverForget? || action.RecoverSeeTerminal? || action.RecoverAttempt?
    || action.RecoverWithdraw? || action.RecoverCheck? || action.RecoverDone?
  }

  /** The actions of recovery that update no item. */
  function ApplyInspecting(s: State, action: Action): State
    requires IsInspecting(action)
  {
    match action
    case RecoverRead(job) => ApplyRecoverRead(s, job)
    case RecoverForget(job) => s.(reading := s.reading - {job})
    case RecoverSeeTerminal(job) => ApplyRecoverSeeTerminal(s, job)
    case RecoverAttempt(a) => ApplyRecoverAttempt(s, a)
    case RecoverWithdraw(job) => ApplyRecoverWithdraw(s, job)
    case RecoverCheck(job) => ApplyRecoverCheck(s, job)
    case RecoverDone => s.(recovery := Off, reading := map[], vouched := map[])
  }

  predicate IsRecovery(action: Action) {
    action.RecoverFinish? || IsBinding(action) || IsSettling(action) || IsInspecting(action)
  }

  function ApplyRecovery(s: State, action: Action): State
    requires IsRecovery(action)
  {
    if action.RecoverFinish? then
      (if s.recovery.Finishing? then ApplyRecoverFinish(s, s.recovery.job, s.recovery.attempt) else s)
    else if s.recovery != On then s
    else if IsBinding(action) then ApplyBinding(s, action)
    else if IsSettling(action) then ApplySettling(s, action)
    else ApplyInspecting(s, action)
  }

  /**
   One action.  `overlap` lets dispatchAvailable (through submit) run while startup recovery is still in
   progress; recovery itself is not serialised with it.
   */
  function Apply(s: State, action: Action, overlap: bool): State {
    if IsRecovery(action) then ApplyRecovery(s, action)
    else if IsListing(action) then ApplyListing(s, action, s.recovery == Off || overlap)
    else if IsReserving(action) then ApplyReserving(s, action)
    else if IsStarting(action) then ApplyStarting(s, action)
    else if IsEnding(action) then ApplyEnding(s, action)
    else if IsCancel(action) then ApplyCancel(s, action)
    else ApplyRetry(s, action)
  }

  function Run(s: State, actions: seq<Action>, overlap: bool): State {
    if actions == [] then s
    else Apply(Run(s, actions[..|actions| - 1], overlap), actions[|actions| - 1], overlap)
  }
}
