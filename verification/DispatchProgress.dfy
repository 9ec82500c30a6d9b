/**
 What the dispatch protocol achieves for one job when nobody interferes: a client's retry and cancellation,
     the end of an
 execution, and the way of a queued job to its completion.
 */
module DispatchProgress {
  import opened Common
  import opened Completion
  import opened Dispatch
  import opened DispatchSafety
  import opened DispatchPaths

  // ----- retry -----

  /** A client's retry with nobody in between: the checks, then the queue update. */
  function Retry(s: State, job: JobId): State {
    Apply(Apply(s, RetryCheck(job), false), RetryCommit(job), false)
  }

  /** The item has ended, and its attempt, if it names one, has ended clean. */
  predicate MayRetry(s: State, job: JobId) {
    && job in s.items && ItemTerminal(s.items[job].status)
    && (s.items[job].attempt.Some? ==> Clean(s, s.items[job].attempt.value))
  }

  lemma RetryCheckIs(s: State, job: JobId)
    ensures Apply(s, RetryCheck(job), false) ==
            if MayRetry(s, job) then s.(retrying := s.retrying[job := s.items[job]]) else s
  {
  }

  lemma RetryCommitIs(s: State, job: JobId)
    requires job in s.items && job in s.retrying && s.retrying[job] == s.items[job]
    ensures Apply(s, RetryCommit(job), false) ==
            Write(s.(retrying := s.retrying - {job}), job, Requeued(s.items[job]))
  {
  }

  /**
   A retry puts an item that has ended, with a clean attempt if any, back to queued without its dispatch identity, its
   attempt and its completion, and keeps its retry count; it refuses every other item.
   */
  lemma RetryRequeues(s: State, job: JobId)
    requires job !in s.retrying
    ensures if MayRetry(s, job)
            then
              var item := s.items[job];
              Retry(s, job) == s.(items := s.items[job := Item(Queued, None, None, None, item.retries, item.dependsOn,
                                                               item.revision + 1)])
            else Retry(s, job) == s
  {
    RetryCheckIs(s, job);
    if MayRetry(s, job) {
      RetryCommitIs(Apply(s, RetryCheck(job), false), job);
      assert s.retrying[job := s.items[job]] - {job} == s.retrying;
    }
  }

  // ----- cancellation -----

  /** An item that has no attempt yet is cancelled at once. */
  lemma CancelUnstarted(s: State, job: JobId)
    requires job in s.items
    requires s.items[job].status in {Queued, Dispatching}
             || (s.items[job].status == Running && s.items[job].attempt.None?)
    ensures Apply(s, CancelItem(job), false) == Write(s, job, s.items[job].(status := ItemCancelled))
  {
  }

  lemma Withdrawn(s: State, job: JobId, a: AttemptId, s1: State, s2: State)
    requires Is(s, job, Running) && s.items[job].attempt == Some(a)
    requires a in s.attempts && s.attempts[a].status in {Reserved, Claimed}
    requires s1 == Apply(s, CancelRunning(job), false) && s2 == Apply(s1, CancelAttempt(a), false)
    ensures var item := s.items[job].(status := Cancelling, revision := s.items[job].revision + 1);
            var ended := s.attempts[a].(status := Cancelled, verification := Ineligible);
            && s1 == s.(items := s.items[job := item])
            && s2 == s.(items := s.items[job := item], attempts := s.attempts[a := ended])
  {
    assert s1 == ApplyCancelRunning(s, job);
    assert s2 == ApplyCancelAttempt(s1, a);
  }

  /** A running item whose attempt was not launched: the attempt is withdrawn, and the item cancelled. */
  lemma CancelUnlaunched(s: State, job: JobId, a: AttemptId, s1: State, s2: State, s3: State)
    requires Is(s, job, Running) && s.items[job].attempt == Some(a)
    requires a in s.attempts && s.attempts[a].status in {Reserved, Claimed}
    requires s1 == Apply(s, CancelRunning(job), false) && s2 == Apply(s1, CancelAttempt(a), false)
    requires s3 == Apply(s2, CancelItem(job), false)
    ensures Is(s1, job, Cancelling) && s1.attempts == s.attempts
    ensures s3.items == s.items[job := s.items[job].(status := ItemCancelled, revision := s.items[job].revision + 2)]
    ensures s3.attempts == s.attempts[a := s.attempts[a].(status := Cancelled, verification := Ineligible)]
  {
    Withdrawn(s, job, a, s1, s2);
    CancelEnded(s2, job, a);
  }

  lemma CancelEnded(s: State, job: JobId, a: AttemptId)
    requires Is(s, job, Cancelling) && s.items[job].attempt == Some(a) && TerminalAttempt(s, a)
    ensures Apply(s, CancelItem(job), false) == Write(s, job, s.items[job].(status := ItemCancelled))
  {
    assert Apply(s, CancelItem(job), false) == ApplyCancelItem(s, job);
  }

  /** An item that has ended, or that waits for an attempt which has not, is not cancelled. */
  lemma CancelRefused(s: State, job: JobId)
    requires job in s.items
    requires || ItemTerminal(s.items[job].status)
             || (s.items[job].status in {Running, Cancelling} && s.items[job].attempt.Some?
                 && !TerminalAttempt(s, s.items[job].attempt.value))
    ensures Apply(s, CancelItem(job), false) == s
  {
    assert Apply(s, CancelItem(job), false) == ApplyCancelItem(s, job);
  }

  // ----- an execution -----

  /** The execution that waits for an attempt projects its end onto the item, whatever that end is. */
  lemma FinishProjects(s: State, job: JobId, a: AttemptId)
    requires ActiveItem(s, job) && job in s.active && s.active[job] == Waiting(a)
    requires a !in s.executing && TerminalAttempt(s, a)
    ensures var result := Result(s, a); var item := s.items[job];
            Apply(s, Finish(job), false) ==
            s.(items := s.items[job := item.(status := ProjectStatus(result), attempt := Some(a),
                                             completion := Some(result), revision := item.revision + 1)],
               active := s.active[job := Ended])
  {
    ProjectionMeaning(Result(s, a));
    assert Apply(s, Finish(job), false) == ApplyFinish(s, job);
  }

  /** It waits as long as the attempt is executing or open. */
  lemma FinishWaits(s: State, job: JobId, a: AttemptId)
    requires job in s.active && s.active[job] == Waiting(a) && (a in s.executing || !TerminalAttempt(s, a))
    ensures Apply(s, Finish(job), false) == s
  {
    assert Apply(s, Finish(job), false) == ApplyFinish(s, job);
  }

  /** An error in an execution fails its item, unless that was cancelled. */
  lemma ErrorFails(s: State, job: JobId)
    requires job in s.items && job in s.active && !s.active[job].Ended?
    requires s.items[job].status in {Running, Cancelling, ItemCancelled}
    ensures Apply(s, ExecutionError(job), false) ==
            if s.items[job].status == ItemCancelled then s.(active := s.active[job := Ended])
            else Write(s.(active := s.active[job := Ended]), job, s.items[job].(status := ItemFailed))
  {
    assert Apply(s, ExecutionError(job), false) == ApplyExecutionError(s, job);
  }

  // ----- from queued to completed -----

  /** All there is about a job and one attempt of it. */
  datatype Scene = Scene(
    item: Item, attempt: Option<Attempt>, dispatching: Option<Dispatching>, execution: Option<Execution>,
        executing: bool)

  function Lookup<T>(m: map<nat, T>, key: nat): Option<T> {
    if key in m then Some(m[key]) else None
  }

  predicate Shows(s: State, job: JobId, a: AttemptId, scene: Scene) {
    && Lookup(s.items, job) == Some(scene.item) && Lookup(s.attempts, a) == scene.attempt
    && Lookup(s.dispatching, job) == scene.dispatching && Lookup(s.active, job) == scene.execution
    && (a in s.executing <==> scene.executing)
  }

  /** The item of a job whose dependencies are all completed, ready to be dispatched. */
  predicate Dispatchable(s: State, job: JobId) {
    && s.recovery == Off && Is(s, job, Queued) && job !in s.active && job !in s.dispatching
    && DependenciesListed(s.(listed := s.items), s.items[job])
  }

  function Accepting(s: State, job: JobId): seq<AttemptId>
    requires Dispatchable(s, job)
  {
    Parents(s.(listed := s.items), s.items[job])
  }

  function MarkedItem(item: Item, op: OpId): Item {
    item.(status := Dispatching, op := Some(op), attempt := None, revision := item.revision + 1)
  }

  lemma MarkShows(s: State, job: JobId, a: AttemptId, s1: State, s2: State)
    requires Dispatchable(s, job) && a !in s.attempts && a !in s.executing
    requires s1 == Apply(s, List, false) && s2 == Apply(s1, Mark(job), false)
    ensures var mine := MarkedItem(s.items[job], s.nextOp);
            Shows(s2, job, a, Scene(mine, None, Some(Marked(mine, Accepting(s, job))), None, false))
  {
    assert s1 == s.(listed := s.items);
    assert s2 == ApplyMark(s1, job);
  }

  lemma ReserveShows(s: State, job: JobId, a: AttemptId, mine: Item, parents: seq<AttemptId>)
    requires Shows(s, job, a, Scene(mine, None, Some(Marked(mine, parents)), None, false))
    ensures Shows(Apply(s, Reserve(job, a), false), job, a,
                  Scene(mine, Some(NewAttempt(job, mine.op, parents)), Some(Held(mine, a)), None, false))
  {
    assert Apply(s, Reserve(job, a), false) == ApplyReserve(s, job, a);
  }

  lemma BindShows(s: State, job: JobId, a: AttemptId, mine: Item, attempt: Attempt)
    requires Shows(s, job, a, Scene(mine, Some(attempt), Some(Held(mine, a)), None, false))
    ensures var bound := mine.(status := Running, attempt := Some(a), revision := mine.revision + 1);
            Shows(Apply(s, Bind(job), false), job, a, Scene(bound, Some(attempt), None, Some(Bound), false))
  {
    assert Apply(s, Bind(job), false) == ApplyBind(s, job);
  }

  lemma ReadShows(s: State, job: JobId, a: AttemptId, item: Item, attempt: Attempt)
    requires Shows(s, job, a, Scene(item, Some(attempt), None, Some(Bound), false))
    requires item.status == Running && item.attempt == Some(a) && item.op.Some?
    ensures Shows(Apply(s, ReadBound(job), false), job, a,
                  Scene(item, Some(attempt), None, Some(Claiming(a, item.op.value)), false))
  {
    assert Apply(s, ReadBound(job), false) == ApplyReadBound(s, job);
  }

  lemma ClaimShows(s: State, job: JobId, a: AttemptId, item: Item, attempt: Attempt, op: OpId)
    requires Shows(s, job, a, Scene(item, Some(attempt), None, Some(Claiming(a, op)), false))
    requires attempt.status == Reserved && attempt.op == Some(op)
    ensures Shows(Apply(s, Claim(job), false), job, a,
                  Scene(item, Some(attempt.(status := Claimed)), None, Some(Launching(a, op)), false))
  {
    assert Apply(s, Claim(job), false) == ApplyClaim(s, job);
  }

  lemma LaunchShows(s: State, job: JobId, a: AttemptId, item: Item, attempt: Attempt, op: OpId)
    requires Shows(s, job, a, Scene(item, Some(attempt), None, Some(Launching(a, op)), false))
    requires attempt.status == Claimed && attempt.op == Some(op)
    ensures Shows(Apply(s, Launch(job), false), job, a, Scene(item, Some(attempt), None, Some(Waiting(a)), true))
  {
    assert Apply(s, Launch(job), false) == ApplyLaunch(s, job);
  }

  lemma ProgressShows(s: State, job: JobId, a: AttemptId, item: Item, attempt: Attempt, next: AttemptStatus,
                      verification: VerificationStatus)
    requires Shows(s, job, a, Scene(item, Some(attempt), None, Some(Waiting(a)), true))
    requires AttemptMay(attempt.status, next) && (verification == Eligible ==> next == Completed)
    ensures var after := attempt.(status := next, verification := verification,
                                  launched := attempt.launched || next == Preparing);
            Shows(Apply(s, Progress(a, next, verification, false), false), job, a,
                  Scene(item, Some(after), None, Some(Waiting(a)), true))
  {
    assert Apply(s, Progress(a, next, verification, false), false) == ApplyProgress(s, a, next, verification, false);
  }

  lemma EndShows(s: State, job: JobId, a: AttemptId, item: Item, attempt: Attempt)
    requires Shows(s, job, a, Scene(item, Some(attempt), None, Some(Waiting(a)), true))
    ensures Shows(Apply(s, EndExecution(a), false), job, a, Scene(item, Some(attempt), None, Some(Waiting(a)), false))
  {
  }

  /** Reserved and bound. */
  lemma ReservedAndBound(s: State, s0: State, job: JobId, a: AttemptId, mine: Item, parents: seq<AttemptId>)
    returns (s': State)
    requires Leads(s, s0, false) && Shows(s0, job, a, Scene(mine, None, Some(Marked(mine, parents)), None, false))
    ensures Leads(s, s', false)
    ensures Shows(s', job, a, Scene(mine.(status := Running, attempt := Some(a), revision := mine.revision + 1),
                                    Some(NewAttempt(job, mine.op, parents)), None, Some(Bound), false))
  {
    ReserveShows(s0, job, a, mine, parents);
    var s1 := Then(s, s0, Reserve(job, a), false);
    BindShows(s1, job, a, mine, NewAttempt(job, mine.op, parents));
    s' := Then(s, s1, Bind(job), false);
  }

  /** Marked, reserved and bound. */
  lemma Dispatched(s: State, job: JobId, a: AttemptId, mine: Item, parents: seq<AttemptId>) returns (s': State)
    requires Dispatchable(s, job) && a !in s.attempts && a !in s.executing
    requires mine == MarkedItem(s.items[job], s.nextOp) && parents == Accepting(s, job)
    ensures Leads(s, s', false)
    ensures Shows(s', job, a, Scene(mine.(status := Running, attempt := Some(a), revision := mine.revision + 1),
                                    Some(NewAttempt(job, mine.op, parents)), None, Some(Bound), false))
  {
    LeadsSelf(s, false);
    var s1 := Then(s, s, List, false);
    var s2 := Then(s, s1, Mark(job), false);
    MarkShows(s, job, a, s1, s2);
    s' := ReservedAndBound(s, s2, job, a, mine, parents);
  }

  /** Claimed and launched. */
  lemma Started(s: State, s0: State, job: JobId, a: AttemptId, item: Item, attempt: Attempt) returns (s': State)
    requires Leads(s, s0, false) && Shows(s0, job, a, Scene(item, Some(attempt), None, Some(Bound), false))
    requires item.status == Running && item.attempt == Some(a) && item.op.Some?
    requires attempt.status == Reserved && attempt.op == item.op
    ensures Leads(s, s', false)
    ensures Shows(s', job, a, Scene(item, Some(attempt.(status := Claimed)), None, Some(Waiting(a)), true))
  {
    ReadShows(s0, job, a, item, attempt);
    var s1 := Then(s, s0, ReadBound(job), false);
    ClaimShows(s1, job, a, item, attempt, item.op.value);
    var s2 := Then(s, s1, Claim(job), false);
    LaunchShows(s2, job, a, item, attempt.(status := Claimed), item.op.value);
    s' := Then(s, s2, Launch(job), false);
  }

  /** Prepared, run, verified and completed as eligible. */
  lemma Executed(s: State, s0: State, job: JobId, a: AttemptId, item: Item, attempt: Attempt) returns (s': State)
    requires Leads(s, s0, false) && Shows(s0, job, a, Scene(item, Some(attempt), None, Some(Waiting(a)), true))
    requires attempt.status == Claimed
    ensures Leads(s, s', false)
    ensures var done := attempt.(status := Completed, verification := Eligible, launched := true);
            Shows(s', job, a, Scene(item, Some(done), None, Some(Waiting(a)), false))
  {
    var b := attempt.(status := Preparing, verification := VerificationRunning, launched := true);
    ProgressShows(s0, job, a, item, attempt, Preparing, VerificationRunning);
    var s1 := Then(s, s0, Progress(a, Preparing, VerificationRunning, false), false);
    ProgressShows(s1, job, a, item, b, AttemptRunning, VerificationRunning);
    var s2 := Then(s, s1, Progress(a, AttemptRunning, VerificationRunning, false), false);
    ProgressShows(s2, job, a, item, b.(status := AttemptRunning), Verifying, VerificationRunning);
    var s3 := Then(s, s2, Progress(a, Verifying, VerificationRunning, false), false);
    ProgressShows(s3, job, a, item, b.(status := Verifying), Completed, Eligible);
    var s4 := Then(s, s3, Progress(a, Completed, Eligible, false), false);
    EndShows(s4, job, a, item, b.(status := Completed, verification := Eligible));
    s' := Then(s, s4, EndExecution(a), false);
  }

  /**
   From every reachable state in which nothing holds a queued job back,
       it can be completed: some continuation dispatches
   it, with the accepted attempts of its dependencies as parents, runs its attempt and records its completion.
   */
  lemma JobCanComplete(s: State, actions: seq<Action>, overlap: bool, before: State, job: JobId, a: AttemptId)
    returns (after: State)
    requires Initial(s) && SafeFinishes(s, actions, overlap) && before == Run(s, actions, overlap)
    requires Dispatchable(before, job) && a !in before.attempts
    ensures Leads(before, after, false) && Is(after, job, ItemCompleted)
    ensures after.items[job].completion == Some(Evidence(a, Completed, Eligible, NotRequired))
    ensures a in after.attempts && after.attempts[a].job == job
    ensures after.attempts[a].parents == Accepting(before, job)
  {
    RunKeeps(s, actions, overlap);
    var mine := MarkedItem(before.items[job], before.nextOp);
    var item := mine.(status := Running, attempt := Some(a), revision := mine.revision + 1);
    var reserved := NewAttempt(job, mine.op, Accepting(before, job));
    var s1 := Dispatched(before, job, a, mine, Accepting(before, job));
    var s2 := Started(before, s1, job, a, item, reserved);
    var s3 := Executed(before, s2, job, a, item, reserved.(status := Claimed));
    FinishProjects(s3, job, a);
    ProjectionMeaning(Result(s3, a));
    after := Then(before, s3, Finish(job), false);
  }
}
