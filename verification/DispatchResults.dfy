/**
 What holds over runs of the dispatch protocol.  Each result covers every run in which no projection by startup recovery
 finds another attempt of its job in flight; if submissions wait for recovery, that is every run.
 */
module DispatchResults {
  import opened Common
  import opened Completion
  import opened Dispatch
  import opened DispatchSafety

  // ----- without overlap every run is safe -----

  predicate MaybeNamed(s: State, job: JobId, a: AttemptId) {
    && job in s.items && s.items[job].status != Dispatching
    && (s.items[job].attempt == None || s.items[job].attempt == Some(a))
  }

  /** While recovery is at work the dispatcher is idle, and items name nothing new. */
  ghost predicate Quiet(s: State) {
    && (s.recovery != Off ==> s.dispatching == map[] && s.active == map[])
    && (s.recovery == Off ==> s.reading == map[])
    && (forall job :: job in s.reading ==> MaybeNamed(s, job, s.reading[job]))
    && (s.recovery.Finishing? ==> MaybeNamed(s, s.recovery.job, s.recovery.attempt) && s.recovery.job !in s.reading)
  }

  lemma QuietIsSafe(s: State)
    requires Inv(s) && Quiet(s)
    ensures FinishSafe(s)
  {
  }

  /** An update of an item that gives it no new name while recovery is at work. */
  lemma QuietWrite(s: State, job: JobId, next: Item)
    requires Quiet(s) && job in s.items
    requires s.recovery != Off ==>
               next.status != Dispatching && (next.attempt == None || next.attempt == s.items[job].attempt
                                              || s.items[job].status == Dispatching)
    ensures Quiet(Write(s, job, next))
  {
  }

  lemma QuietListing(s: State, action: Action)
    requires Quiet(s) && IsListing(action)
    ensures Quiet(ApplyListing(s, action, s.recovery == Off))
  {
  }

  predicate SameRecovery(s: State, s': State) {
    s'.recovery == s.recovery && s'.reading == s.reading
  }

  lemma ReserveLeaves(s: State, job: JobId, a: AttemptId)
    ensures SameRecovery(s, ApplyReserve(s, job, a))
  {
  }

  lemma RejectLeaves(s: State, job: JobId)
    ensures SameRecovery(s, ApplyRejectLineage(s, job))
  {
  }

  lemma BindLeaves(s: State, job: JobId)
    ensures SameRecovery(s, ApplyBind(s, job))
  {
  }

  lemma ReservingLeaves(s: State, action: Action)
    requires IsReserving(action)
    ensures SameRecovery(s, ApplyReserving(s, action))
  {
    match action
    case Reserve(job, a) => ReserveLeaves(s, job, a);
    case RejectLineage(job) => RejectLeaves(s, job);
    case Bind(job) => BindLeaves(s, job);
    case Abandon(_) =>
  }

  lemma QuietReserving(s: State, action: Action)
    requires Quiet(s) && IsReserving(action)
    ensures Quiet(ApplyReserving(s, action))
  {
    if s.recovery != Off {
      assert s.dispatching - {action.job} == s.dispatching;
      assert ApplyReserving(s, action) == s;
    } else {
      ReservingLeaves(s, action);
      QuietOff(s, ApplyReserving(s, action));
    }
  }

  lemma QuietStarting(s: State, action: Action)
    requires Quiet(s) && IsStarting(action)
    ensures Quiet(ApplyStarting(s, action))
  {
  }

  lemma QuietOff(s: State, s': State)
    requires Quiet(s) && s.recovery == Off && s'.recovery == Off && s'.reading == s.reading
    ensures Quiet(s')
  {
  }

  lemma QuietItemEnd(s: State, job: JobId)
    requires Quiet(s)
    ensures Quiet(ApplyFinish(s, job))
  {
    if s.recovery == Off { QuietOff(s, ApplyFinish(s, job)); } else { assert ApplyFinish(s, job) == s; }
  }

  lemma QuietItemError(s: State, job: JobId)
    requires Quiet(s)
    ensures Quiet(ApplyExecutionError(s, job))
  {
    if s.recovery == Off { QuietOff(s, ApplyExecutionError(s, job)); } else { assert ApplyExecutionError(s, job) == s; }
  }

  lemma QuietEnding(s: State, action: Action)
    requires Quiet(s) && IsEnding(action)
    ensures Quiet(ApplyEnding(s, action))
  {
    if action.Finish? { QuietItemEnd(s, action.job); }
    if action.ExecutionError? { QuietItemError(s, action.job); }
  }

  lemma QuietCancel(s: State, action: Action)
    requires Quiet(s) && IsCancel(action)
    ensures Quiet(ApplyCancel(s, action))
  {
  }

  lemma QuietRetryCommit(s: State, job: JobId)
    requires Quiet(s)
    ensures Quiet(ApplyRetryCommit(s, job))
  {
    if job in s.retrying && job in s.items && s.items[job] == s.retrying[job] {
      QuietWrite(s.(retrying := s.retrying - {job}), job, Requeued(s.items[job]));
    }
  }

  lemma QuietRetry(s: State, action: Action)
    requires Quiet(s) && IsRetry(action)
    ensures Quiet(ApplyRetry(s, action))
  {
    if action.RetryCommit? { QuietRetryCommit(s, action.job); }
  }

  lemma QuietBinding(s: State, action: Action)
    requires Quiet(s) && IsBinding(action) && s.recovery == On
    ensures Quiet(ApplyBinding(s, action))
  {
  }

  lemma QuietRequeue(s: State, job: JobId)
    requires Quiet(s) && s.recovery == On
    ensures Quiet(ApplyRecoverRequeue(s, job))
  {
    var s1, s' := s.(vouched := s.vouched - {job}), ApplyRecoverRequeue(s, job);
    if s' != s && s' != s1 { QuietWrite(s1, job, Requeued(s.items[job]).(retries := s.items[job].retries + 1)); }
  }

  lemma QuietCancelled(s: State, job: JobId)
    requires Quiet(s) && s.recovery == On
    ensures Quiet(ApplyRecoverCancelled(s, job))
  {
    var s1, s' := s.(vouched := s.vouched - {job}), ApplyRecoverCancelled(s, job);
    if s' != s && s' != s1 {
      QuietWrite(s1, job, s.items[job].(status := ItemCancelled, op := None, completion := None));
    }
  }

  lemma QuietNeedsInput(s: State, job: JobId)
    requires Quiet(s) && s.recovery == On
    ensures Quiet(ApplyRecoverNeedsInput(s, job))
  {
    var s1 := s.(vouched := s.vouched - {job});
    if ApplyRecoverNeedsInput(s, job) != s { QuietWrite(s1, job, s.items[job].(status := ItemNeedsInput)); }
  }

  lemma QuietSettling(s: State, action: Action)
    requires Quiet(s) && IsSettling(action) && s.recovery == On
    ensures Quiet(ApplySettling(s, action))
  {
    match action
    case RecoverRequeue(job) => QuietRequeue(s, job);
    case RecoverCancelled(job) => QuietCancelled(s, job);
    case RecoverNeedsInput(job) => QuietNeedsInput(s, job);
  }

  lemma QuietInspecting(s: State, action: Action)
    requires Quiet(s) && IsInspecting(action) && s.recovery == On
    ensures Quiet(ApplyInspecting(s, action))
  {
  }

  lemma QuietFinish(s: State)
    requires Quiet(s) && s.recovery.Finishing?
    ensures Quiet(ApplyRecoverFinish(s, s.recovery.job, s.recovery.attempt))
  {
    if s.recovery.attempt in s.attempts { ProjectionMeaning(Result(s, s.recovery.attempt)); }
  }

  lemma QuietKeeps(s: State, action: Action)
    requires Quiet(s)
    ensures Quiet(Apply(s, action, false))
  {
    if action.RecoverFinish? { if s.recovery.Finishing? { QuietFinish(s); } }
    else if IsRecovery(action) {
      if s.recovery == On {
        if IsBinding(action) { QuietBinding(s, action); }
        else if IsSettling(action) { QuietSettling(s, action); }
        else { QuietInspecting(s, action); }
      }
    }
    else if IsListing(action) { QuietListing(s, action); }
    else if IsReserving(action) { QuietReserving(s, action); }
    else if IsStarting(action) { QuietStarting(s, action); }
    else if IsEnding(action) { QuietEnding(s, action); }
    else if IsCancel(action) { QuietCancel(s, action); }
    else { QuietRetry(s, action); }
  }

  lemma {:induction false} QuietRun(s: State, actions: seq<Action>)
    requires Initial(s)
    ensures Inv(Run(s, actions, false)) && Quiet(Run(s, actions, false))
  {
    if actions != [] {
      var before, action := Run(s, actions[..|actions| - 1], false), actions[|actions| - 1];
      QuietRun(s, actions[..|actions| - 1]);
      QuietIsSafe(before);
      ApplyKeeps(before, action, false);
      QuietKeeps(before, action);
    }
  }

  /** If dispatching waits for recovery, no projection by recovery ever finds an attempt in flight. */
  lemma NoOverlapIsSafe(s: State, actions: seq<Action>)
    requires Initial(s)
    ensures SafeFinishes(s, actions, false)
  {
    forall k | 0 <= k < |actions| && actions[k].RecoverFinish? ensures FinishSafe(Run(s, actions[..k], false)) {
      QuietRun(s, actions[..k]);
      QuietIsSafe(Run(s, actions[..k], false));
    }
  }

  // ----- what holds in every state of such a run -----

  /**
   Two live attempts of one job are the same attempt, it is the one the queue item names, and an item that is queued or
   dispatching has no live attempt.
   */
  lemma OneLiveAttempt(s: State, actions: seq<Action>, overlap: bool, s': State)
    requires Initial(s) && SafeFinishes(s, actions, overlap) && s' == Run(s, actions, overlap)
    ensures forall a :: LiveAttempt(s', a) ==>
              var job := s'.attempts[a].job;
              job in s'.items && s'.items[job].attempt == Some(a) && s'.items[job].status !in {Queued, Dispatching}
    ensures forall a, b ::
              LiveAttempt(s', a) && LiveAttempt(s', b) && s'.attempts[a].job == s'.attempts[b].job ==> a == b
  {
    RunKeeps(s, actions, overlap);
    forall a | LiveAttempt(s', a) ensures Named(s', s'.attempts[a].job, a) {
      assert AttemptOk(s', a, s'.attempts[a]);
    }
  }

  /**
   A completed item records a completed, eligible attempt of its own job with safe cleanup, and that attempt is still
   completed and eligible.
   */
  lemma CompletedItemsAreProven(s: State, actions: seq<Action>, overlap: bool, s': State, job: JobId)
    requires Initial(s) && SafeFinishes(s, actions, overlap) && s' == Run(s, actions, overlap)
             && Is(s', job, ItemCompleted)
    ensures s'.items[job].completion.Some?
    ensures var e := s'.items[job].completion.value;
            && e.status == Completed && e.verification == Eligible && CleanupSafe(e.cleanup)
            && s'.items[job].attempt == Some(e.attempt) && Accepted(s', job, e.attempt)
  {
    RunKeeps(s, actions, overlap);
    assert ItemOk(s', job, s'.items[job]);
  }

  /**
   An attempt was reserved with exactly one parent for each dependency of its job, in order, and each parent is a
   completed, eligible attempt of that dependency, whatever happened since.
   */
  lemma ParentsAreAccepted(s: State, actions: seq<Action>, overlap: bool, s': State, a: AttemptId)
    requires Initial(s) && SafeFinishes(s, actions, overlap) && s' == Run(s, actions, overlap) && a in s'.attempts
    ensures var attempt := s'.attempts[a];
            attempt.job in s'.items && ParentsOk(s', s'.items[attempt.job].dependsOn, attempt.parents)
  {
    RunKeeps(s, actions, overlap);
    assert AttemptOk(s', a, s'.attempts[a]);
  }

  /** An attempt that never passed from claimed to preparing has no requirement, no worktree and no removal. */
  lemma NeverLaunchedIsClean(s: State, actions: seq<Action>, overlap: bool, s': State, a: AttemptId)
    requires Initial(s) && SafeFinishes(s, actions, overlap) && s' == Run(s, actions, overlap)
    requires a in s'.attempts && !s'.attempts[a].launched
    ensures s'.attempts[a].cleanup == NotRequired && !s'.attempts[a].workspace && !s'.attempts[a].removing
  {
    RunKeeps(s, actions, overlap);
    assert AttemptOk(s', a, s'.attempts[a]);
  }

  // ----- what every step does -----

  /** The only actions that put an item back to queued. */
  predicate Requeues(action: Action, job: JobId) {
    (action.RetryCommit? || action.RecoverUnreserved? || action.RecoverRequeue?) && action.job == job
  }

  /** What one action may do to an item that exists before it. */
  predicate LegalChange(before: Item, after: Item) {
    || after == before
    || (ItemMay(before.status, after.status) && after.revision == before.revision + 1
        && after.dependsOn == before.dependsOn && before.retries <= after.retries <= before.retries + 1)
  }

  predicate BackToQueued(s: State, s': State, job: JobId) {
    job in s.items && s.items[job].status != Queued && Is(s', job, Queued)
  }

  ghost predicate ItemsLegal(s: State, action: Action, s': State) {
    && s'.maxRetries == s.maxRetries
    && (forall job :: job in s.items ==> job in s'.items && LegalChange(s.items[job], s'.items[job]))
    && (forall job :: BackToQueued(s, s', job) ==> Requeues(action, job))
  }

  /** An action that writes at most this item, and legally. */
  predicate Touches(s: State, action: Action, s': State, job: JobId) {
    && s'.maxRetries == s.maxRetries
    && (|| s'.items == s.items
        || (&& job in s'.items && s'.items == s.items[job := s'.items[job]]
            && (job in s.items ==> LegalChange(s.items[job], s'.items[job]))
            && (BackToQueued(s, s', job) ==> Requeues(action, job))))
  }

  lemma TouchesIsLegal(s: State, action: Action, s': State, job: JobId)
    requires Touches(s, action, s', job)
    ensures ItemsLegal(s, action, s')
  {
    forall j | j in s.items
      ensures j in s'.items && LegalChange(s.items[j], s'.items[j])
      ensures BackToQueued(s, s', j) ==> Requeues(action, j)
    {
      if j != job { assert s'.items[j] == s.items[j]; }
    }
  }

  /** The one item that an action may write. */
  function Subject(s: State, action: Action): JobId {
    match action
    case RecoverFinish => if s.recovery.Finishing? then s.recovery.job else 0
    case List | Crash | RecoverDone => 0
    case Progress(_, _, _, _) | CleanupChange(_, _) | EndExecution(_) => 0
    case CancelAttempt(_) | RecoverAttempt(_) | RemovalStart(_) | RemovalEnd(_, _) => 0
    case _ => action.job
  }

  lemma ListingTouches(s: State, action: Action, dispatchable: bool)
    requires IsListing(action)
    ensures Touches(s, action, ApplyListing(s, action, dispatchable), Subject(s, action))
  {
  }

  lemma ReservingTouches(s: State, action: Action)
    requires IsReserving(action)
    requires action.job in s.dispatching ==> s.dispatching[action.job].mine.status == Dispatching
    ensures Touches(s, action, ApplyReserving(s, action), action.job)
  {
  }

  lemma StartingTouches(s: State, action: Action)
    requires IsStarting(action)
    ensures Touches(s, action, ApplyStarting(s, action), Subject(s, action))
  {
  }

  lemma FinishTouches(s: State, job: JobId)
    ensures Touches(s, Finish(job), ApplyFinish(s, job), job)
  {
    if job in s.active && s.active[job].Waiting? && s.active[job].attempt in s.attempts {
      ProjectionMeaning(Result(s, s.active[job].attempt));
    }
  }

  lemma ErrorTouches(s: State, job: JobId)
    ensures Touches(s, ExecutionError(job), ApplyExecutionError(s, job), job)
  {
    var s' := ApplyExecutionError(s, job);
    if job in s.items && s'.items != s.items {
      assert s'.items == s.items[job := s.items[job].(status := ItemFailed, revision := s.items[job].revision + 1)];
    }
  }

  lemma EndingTouches(s: State, action: Action)
    requires IsEnding(action)
    ensures Touches(s, action, ApplyEnding(s, action), Subject(s, action))
  {
    match action
    case Finish(job) => FinishTouches(s, job);
    case ExecutionError(job) => ErrorTouches(s, job);
    case CleanupChange(_, _) => assert ApplyEnding(s, action).items == s.items;
    case EndExecution(_) => assert ApplyEnding(s, action).items == s.items;
    case Drop(_) => assert ApplyEnding(s, action).items == s.items;
  }

  lemma CancelTouches(s: State, action: Action)
    requires IsCancel(action)
    ensures Touches(s, action, ApplyCancel(s, action), Subject(s, action))
  {
  }

  lemma RetryCommitTouches(s: State, job: JobId)
    requires job in s.retrying ==> ItemTerminal(s.retrying[job].status)
    ensures Touches(s, RetryCommit(job), ApplyRetryCommit(s, job), job)
  {
  }

  lemma RetryTouches(s: State, action: Action)
    requires IsRetry(action)
    requires action.RetryCommit? && action.job in s.retrying ==> ItemTerminal(s.retrying[action.job].status)
    ensures Touches(s, action, ApplyRetry(s, action), Subject(s, action))
  {
    if action.RetryCommit? {
      RetryCommitTouches(s, action.job);
    } else {
      assert ApplyRetry(s, action).items == s.items;
    }
  }

  lemma BindingTouches(s: State, action: Action)
    requires IsBinding(action)
    ensures Touches(s, action, ApplyBinding(s, action), Subject(s, action))
  {
  }

  lemma RequeueTouches(s: State, job: JobId)
    ensures Touches(s, RecoverRequeue(job), ApplyRecoverRequeue(s, job), job)
  {
  }

  lemma CancelledTouches(s: State, job: JobId)
    ensures Touches(s, RecoverCancelled(job), ApplyRecoverCancelled(s, job), job)
  {
  }

  lemma NeedsInputTouches(s: State, job: JobId)
    ensures Touches(s, RecoverNeedsInput(job), ApplyRecoverNeedsInput(s, job), job)
  {
  }

  lemma SettlingTouches(s: State, action: Action)
    requires IsSettling(action)
    ensures Touches(s, action, ApplySettling(s, action), Subject(s, action))
  {
    match action
    case RecoverRequeue(job) => RequeueTouches(s, job);
    case RecoverCancelled(job) => CancelledTouches(s, job);
    case RecoverNeedsInput(job) => NeedsInputTouches(s, job);
  }

  lemma InspectingTouches(s: State, action: Action)
    requires IsInspecting(action)
    ensures ApplyInspecting(s, action).items == s.items && ApplyInspecting(s, action).maxRetries == s.maxRetries
  {
  }

  lemma RecoverFinishTouches(s: State, job: JobId, a: AttemptId)
    ensures Touches(s, RecoverFinish, ApplyRecoverFinish(s, job, a), job)
  {
    if job in s.items && a in s.attempts {
      var next := Projected(s.items[job], Result(s, a));
      ProjectionMeaning(Result(s, a));
      if ItemMay(s.items[job].status, next.status) {
        assert ApplyRecoverFinish(s, job, a).items == Write(s, job, next).items;
      }
    }
  }

  lemma RecoveryTouches(s: State, action: Action)
    requires IsRecovery(action)
    ensures Touches(s, action, ApplyRecovery(s, action), Subject(s, action))
  {
    if action.RecoverFinish? {
      if s.recovery.Finishing? { RecoverFinishTouches(s, s.recovery.job, s.recovery.attempt); }
    } else if s.recovery == On {
      if IsBinding(action) { BindingTouches(s, action); }
      else if IsSettling(action) { SettlingTouches(s, action); }
      else { InspectingTouches(s, action); }
    }
  }

  lemma StepTouches(s: State, action: Action, overlap: bool)
    requires IsReserving(action) && action.job in s.dispatching ==> s.dispatching[action.job].mine.status == Dispatching
    requires action.RetryCommit? && action.job in s.retrying ==> ItemTerminal(s.retrying[action.job].status)
    ensures Touches(s, action, Apply(s, action, overlap), Subject(s, action))
  {
    if IsRecovery(action) { RecoveryTouches(s, action); }
    else if IsListing(action) { ListingTouches(s, action, s.recovery == Off || overlap); }
    else if IsReserving(action) { ReservingTouches(s, action); }
    else if IsStarting(action) { StartingTouches(s, action); }
    else if IsEnding(action) { EndingTouches(s, action); }
    else if IsCancel(action) { CancelTouches(s, action); }
    else { RetryTouches(s, action); }
  }

  lemma StepLegal(s: State, action: Action, overlap: bool)
    requires Inv(s)
    ensures ItemsLegal(s, action, Apply(s, action, overlap))
  {
    if IsReserving(action) && action.job in s.dispatching {
      assert DispatchingOk(s, action.job, s.dispatching[action.job]);
    }
    StepTouches(s, action, overlap);
    TouchesIsLegal(s, action, Apply(s, action, overlap), Subject(s, action));
  }

  /** Every item update of every such run follows the queue's transition table and raises the revision by one. */
  lemma StepsAreLegal(s: State, actions: seq<Action>, overlap: bool, before: State, action: Action)
    requires Initial(s) && SafeFinishes(s, actions, overlap) && before == Run(s, actions, overlap)
    ensures forall job :: job in before.items ==>
              var after := Apply(before, action, overlap);
              job in after.items && LegalChange(before.items[job], after.items[job])
  {
    RunKeeps(s, actions, overlap);
    StepLegal(before, action, overlap);
  }

  lemma {:induction false} RunMaxRetries(s: State, actions: seq<Action>, overlap: bool)
    requires Initial(s) && SafeFinishes(s, actions, overlap)
    ensures Run(s, actions, overlap).maxRetries == s.maxRetries
  {
    if actions != [] {
      SafeFinishesPrefix(s, actions, overlap);
      RunMaxRetries(s, actions[..|actions| - 1], overlap);
      RunKeeps(s, actions[..|actions| - 1], overlap);
      StepLegal(Run(s, actions[..|actions| - 1], overlap), actions[|actions| - 1], overlap);
    }
  }

  /** However often the dispatcher crashes and recovers, the automatic retries of a job stay within its contract. */
  lemma RetriesBounded(s: State, actions: seq<Action>, overlap: bool, s': State, job: JobId)
    requires Initial(s) && SafeFinishes(s, actions, overlap) && s' == Run(s, actions, overlap) && job in s'.items
    ensures job in s.maxRetries && s'.items[job].retries <= s.maxRetries[job]
  {
    RunKeeps(s, actions, overlap);
    RunMaxRetries(s, actions, overlap);
    assert ItemOk(s', job, s'.items[job]);
  }

  // ----- requeues -----

  /** A commit that requeues an item finds the attempt it named as it was checked, or with a removal begun since. */
  lemma RequeueWasChecked(s: State, action: Action, overlap: bool, job: JobId)
    requires Requeues(action, job) && BackToQueued(s, Apply(s, action, overlap), job) && s.items[job].attempt.Some?
    requires s.items[job].status != Dispatching
    requires job in s.retrying ==> CheckedItem(s, job, s.retrying[job])
    requires job in s.vouched ==> CheckedItem(s, job, s.vouched[job])
    ensures Checked(s, s.items[job].attempt.value)
  {
  }

  /**
   Whenever a step puts an item back to queued, the attempt it named is finished and no attempt of the job is live; and
   that attempt's cleanup is not required or proven if and only if no removal of its worktree has begun, since the check
   that preceded the requeue, without having been proven.
   */
  lemma RequeueIsSafe(s: State, actions: seq<Action>, overlap: bool, before: State, action: Action, job: JobId)
    requires Initial(s) && SafeFinishes(s, actions, overlap) && before == Run(s, actions, overlap)
    requires BackToQueued(before, Apply(before, action, overlap), job)
    ensures before.items[job].attempt.Some? ==>
              var a := before.items[job].attempt.value;
              && TerminalAttempt(before, a)
              && (CleanupSafe(before.attempts[a].cleanup) <==> !before.attempts[a].removing)
    ensures forall a :: LiveAttempt(before, a) ==> before.attempts[a].job != job
  {
    RunKeeps(s, actions, overlap);
    StepLegal(before, action, overlap);
    if before.items[job].attempt.Some? {
      assert ItemOk(before, job, before.items[job]);
      RequeueWasChecked(before, action, overlap, job);
      var a := before.items[job].attempt.value;
      assert AttemptOk(before, a, before.attempts[a]);
    }
    forall a | LiveAttempt(before, a) ensures Named(before, before.attempts[a].job, a) {
      assert AttemptOk(before, a, before.attempts[a]);
    }
  }
}
