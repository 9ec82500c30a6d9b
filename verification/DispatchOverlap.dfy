/**
 Where the conditions of module DispatchResults come from: runs in which dispatching overlaps with startup recovery, and
 runs in which a worktree is removed between the check and the commit of a requeue.
 */
module DispatchOverlap {
  import opened Common
  import opened Completion
  import opened Dispatch
  import opened DispatchSafety
  import opened DispatchResults
  import opened DispatchPaths

  /** Every live attempt is the one its queue item names, and that item is neither queued nor dispatching. */
  ghost predicate Exclusive(s: State) {
    forall a :: LiveAttempt(s, a) ==> Named(s, s.attempts[a].job, a)
  }

  // ----- projections onto an item with an attempt in flight -----

  /** After the projection of a finished attempt nothing else of the job is named. */
  lemma ProjectedState(s: State, job: JobId, a: AttemptId, overlap: bool)
    requires s.recovery == Finishing(job, a) && job in s.items && a in s.attempts
    requires ItemMay(s.items[job].status, ProjectStatus(Result(s, a)))
    ensures Apply(s, RecoverFinish, overlap) == Write(s, job, Projected(s.items[job], Result(s, a))).(recovery := On)
  {
  }

  lemma UnsafeFinishLive(s: State, b: AttemptId)
    requires Inv(s) && !FinishSafe(s) && s.items[s.recovery.job].attempt == Some(b) && LiveAttempt(s, b)
    ensures !Exclusive(Apply(s, RecoverFinish, true))
  {
    var job, a := s.recovery.job, s.recovery.attempt;
    ProjectedState(s, job, a, true);
    assert AttemptOk(s, b, s.attempts[b]);
    assert LiveAttempt(Apply(s, RecoverFinish, true), b);
  }

  /** An execution that has read an attempt claims it whatever the item names by then. */
  lemma LateClaim(s: State, job: JobId, b: AttemptId, op: OpId)
    requires job in s.active && s.active[job] == Claiming(b, op) && Claimable(s, b, op)
    requires s.attempts[b].job == job && job in s.items && s.items[job].attempt != Some(b)
    ensures !Exclusive(Apply(s, Claim(job), true))
  {
    var s' := Apply(s, Claim(job), true);
    assert s' == ApplyClaim(s, job);
    assert LiveAttempt(s', b) && s'.attempts[b].job == job && s'.items == s.items;
  }

  lemma UnsafeFinishClaim(s: State, b: AttemptId, op: OpId)
    requires Inv(s) && !FinishSafe(s) && s.items[s.recovery.job].attempt == Some(b)
    requires s.recovery.job in s.active && s.active[s.recovery.job] == Claiming(b, op) && Claimable(s, b, op)
    ensures !Exclusive(Apply(Apply(s, RecoverFinish, true), Claim(s.recovery.job), true))
  {
    var job, a := s.recovery.job, s.recovery.attempt;
    ProjectedState(s, job, a, true);
    assert ExecutionOk(s, job, s.active[job]);
    LateClaim(Write(s, job, Projected(s.items[job], Result(s, a))).(recovery := On), job, b, op);
  }

  /**
   The converse of exclusion under safe projections: from every state that a run with safe projections reaches, a
   projection that finds an attempt of its job in flight has a continuation, of at most one more action, in which a live
   attempt is not the one its item names.
   */
  lemma UnsafeFinishBreaksExclusion(s: State, actions: seq<Action>, before: State)
    requires Initial(s) && SafeFinishes(s, actions, true) && before == Run(s, actions, true) && !FinishSafe(before)
    ensures exists s' :: Leads(Apply(before, RecoverFinish, true), s', true) && !Exclusive(s')
  {
    RunKeeps(s, actions, true);
    var job := before.recovery.job;
    var b := before.items[job].attempt.value;
    var s1 := Apply(before, RecoverFinish, true);
    if LiveAttempt(before, b) {
      UnsafeFinishLive(before, b);
      LeadsSelf(s1, true);
    } else {
      UnsafeFinishClaim(before, b, before.active[job].op);
      LeadsOne(s1, Claim(job), true);
    }
  }

  // ----- removals between check and commit -----

  lemma RemovalStarted(s: State, a: AttemptId, overlap: bool)
    requires Clean(s, a) && s.attempts[a].workspace
    ensures Apply(s, RemovalStart(a), overlap) ==
            s.(attempts := s.attempts[a := s.attempts[a].(cleanup := Pending, removing := true)])
  {
  }

  lemma RetryChecked(s: State, job: JobId, overlap: bool)
    requires job in s.items && ItemTerminal(s.items[job].status)
    requires s.items[job].attempt.Some? && Clean(s, s.items[job].attempt.value)
    ensures Apply(s, RetryCheck(job), overlap) == s.(retrying := s.retrying[job := s.items[job]])
  {
  }

  lemma RetryCommitted(s: State, job: JobId, overlap: bool)
    requires job in s.items && job in s.retrying && s.retrying[job] == s.items[job]
    ensures Apply(s, RetryCommit(job), overlap) ==
            Write(s.(retrying := s.retrying - {job}), job, Requeued(s.items[job]))
  {
  }

  /**
   The converse for retries: wherever an item has ended with a clean attempt whose worktree still exists, a removal that
   begins between the check and the commit of a retry requeues the item while that attempt's cleanup is pending.
   */
  lemma RemovalBreaksRetry(s: State, job: JobId, a: AttemptId, overlap: bool, s1: State, s2: State)
    requires job in s.items && ItemTerminal(s.items[job].status) && s.items[job].attempt == Some(a)
    requires Clean(s, a) && s.attempts[a].workspace
    requires s1 == Apply(s, RetryCheck(job), overlap) && s2 == Apply(s1, RemovalStart(a), overlap)
    ensures BackToQueued(s2, Apply(s2, RetryCommit(job), overlap), job)
    ensures s2.items[job].attempt == Some(a) && a in s2.attempts && !CleanupSafe(s2.attempts[a].cleanup)
  {
    RetryChecked(s, job, overlap);
    RemovalStarted(s1, a, overlap);
    RetryCommitted(s2, job, overlap);
  }

  /** The same between the check and the commit of a requeue by recovery. */
  lemma RemovalBreaksRecovery(s: State, job: JobId, a: AttemptId, overlap: bool, s1: State, s2: State)
    requires Is(s, job, Running) && s.items[job].attempt == Some(a) && s.recovery == On
    requires job in s.maxRetries && s.items[job].retries < s.maxRetries[job]
    requires Clean(s, a) && s.attempts[a].workspace
    requires s1 == Apply(s, RecoverCheck(job), overlap) && s2 == Apply(s1, RemovalStart(a), overlap)
    ensures BackToQueued(s2, Apply(s2, RecoverRequeue(job), overlap), job)
    ensures s2.items[job].attempt == Some(a) && a in s2.attempts && !CleanupSafe(s2.attempts[a].cleanup)
  {
    assert s1 == s.(vouched := s.vouched[job := s.items[job]]);
    RemovalStarted(s1, a, overlap);
    assert Apply(s2, RecoverRequeue(job), overlap) == ApplyRecoverRequeue(s2, job);
  }

  // ----- runs from the start -----

  /** Everything in a state of one job with up to two attempts. */
  datatype View = View(
    item: Option<Item>, first: Option<Attempt>, second: Option<Attempt>,
    listed: Option<Item>, dispatching: Option<Dispatching>, execution: Option<Execution>,
    recovery: Recovery, reading: Option<AttemptId>, retrying: Option<Item>, nextOp: OpId, executing: bool)

  function Lookup<T>(m: map<nat, T>, key: nat): Option<T> {
    if key in m then Some(m[key]) else None
  }

  predicate Looks(s: State, v: View) {
    && Lookup(s.items, 1) == v.item && Lookup(s.attempts, 1) == v.first && Lookup(s.attempts, 2) == v.second
    && Lookup(s.listed, 1) == v.listed && Lookup(s.dispatching, 1) == v.dispatching
    && Lookup(s.active, 1) == v.execution && s.recovery == v.recovery && Lookup(s.reading, 1) == v.reading
    && Lookup(s.retrying, 1) == v.retrying && s.nextOp == v.nextOp && 1 in s.maxRetries
    && (1 in s.executing <==> v.executing)
  }

  function Start(): State {
    State(map[], map[], map[1 := 0], map[], map[], map[], {}, On, map[], map[], map[], 0)
  }

  function Plain(status: ItemStatus, op: Option<OpId>, attempt: Option<AttemptId>, revision: nat): Item {
    Item(status, op, attempt, None, 0, [], revision)
  }

  function Fresh(op: OpId, status: AttemptStatus, verification: VerificationStatus): Attempt {
    Attempt(1, Some(op), status, verification, NotRequired, false, false, [], false)
  }

  const EMPTY := View(None, None, None, None, None, None, On, None, None, 0, false)

  /** A state that a run from the start reaches, and what it looks like. */
  ghost predicate At(s: State, v: View) {
    Leads(Start(), s, true) && Looks(s, v)
  }

  lemma RecoverDoneLooks(s: State, v: View)
    requires Looks(s, v)
    requires v.recovery == On && v.reading.None?
    ensures Looks(Apply(s, RecoverDone, true), v.(recovery := Off))
  {
  }

  lemma EnqueueLooks(s: State, v: View)
    requires Looks(s, v) && v.item.None?
    ensures Looks(Apply(s, Enqueue(1, []), true), v.(item := Some(Plain(Queued, None, None, 0))))
  {
  }

  lemma ListLooks(s: State, v: View)
    requires Looks(s, v)
    ensures Looks(Apply(s, List, true), v.(listed := v.item))
  {
  }

  lemma MarkLooks(s: State, v: View, n: nat)
    requires Looks(s, v) && v.item == Some(Plain(Queued, None, None, n)) && v.listed == v.item
    requires v.dispatching.None? && v.execution.None?
    ensures var marked := Plain(Dispatching, Some(v.nextOp), None, n + 1);
            Looks(Apply(s, Mark(1), true), v.(item := Some(marked), dispatching := Some(Marked(marked, [])),
                                              nextOp := v.nextOp + 1))
  {
    assert Parents(s, v.item.value) == [];
    assert Apply(s, Mark(1), true) == ApplyMark(s, 1);
  }

  function WithAttempt(v: View, a: AttemptId, attempt: Attempt): View {
    if a == 1 then v.(first := Some(attempt)) else v.(second := Some(attempt))
  }

  lemma ReserveLooks(s: State, v: View, a: AttemptId, mine: Item)
    requires Looks(s, v) && v.dispatching == Some(Marked(mine, [])) && mine.op.Some?
    requires (a == 1 && v.first.None?) || (a == 2 && v.second.None?)
    ensures Looks(Apply(s, Reserve(1, a), true),
                  WithAttempt(v, a, Fresh(mine.op.value, Reserved, NotRun)).(dispatching := Some(Held(mine, a))))
  {
    assert Apply(s, Reserve(1, a), true) == ApplyReserve(s, 1, a);
  }

  lemma BindLooks(s: State, v: View, a: AttemptId, mine: Item)
    requires Looks(s, v) && v.dispatching == Some(Held(mine, a)) && v.item == Some(mine)
    requires mine.completion.None? && mine.dependsOn == [] && mine.retries == 0
    ensures Looks(Apply(s, Bind(1), true), v.(item := Some(Plain(Running, mine.op, Some(a), mine.revision + 1)),
                                              dispatching := None, execution := Some(Bound)))
  {
  }

  lemma ReadBoundLooks(s: State, v: View, a: AttemptId, op: OpId)
    requires Looks(s, v) && v.execution == Some(Bound) && v.item.Some?
    requires v.item.value.status == Running && v.item.value.attempt == Some(a) && v.item.value.op == Some(op)
    ensures Looks(Apply(s, ReadBound(1), true), v.(execution := Some(Claiming(a, op))))
  {
  }

  lemma ClaimLooks(s: State, v: View, a: AttemptId, op: OpId)
    requires Looks(s, v) && v.execution == Some(Claiming(a, op))
    requires (a == 1 && v.first == Some(Fresh(op, Reserved, NotRun)))
             || (a == 2 && v.second == Some(Fresh(op, Reserved, NotRun)))
    ensures Looks(Apply(s, Claim(1), true),
                  WithAttempt(v, a, Fresh(op, Claimed, NotRun)).(execution := Some(Launching(a, op))))
  {
    assert Apply(s, Claim(1), true) == ApplyClaim(s, 1);
  }

  lemma CrashLooks(s: State, v: View)
    requires Looks(s, v)
    ensures Looks(Apply(s, Crash, true), v.(listed := None, dispatching := None, execution := None, recovery := On,
                                            reading := None, executing := false))
  {
    assert Apply(s, Crash, true) == ApplyCrash(s);
  }

  lemma CancelRunningLooks(s: State, v: View, op: OpId, a: AttemptId, n: nat)
    requires Looks(s, v) && v.item == Some(Plain(Running, Some(op), Some(a), n))
    ensures Looks(Apply(s, CancelRunning(1), true), v.(item := Some(Plain(Cancelling, Some(op), Some(a), n + 1))))
  {
    assert Apply(s, CancelRunning(1), true) == ApplyCancelRunning(s, 1);
  }

  lemma CancelAttemptLooks(s: State, v: View, op: OpId)
    requires Looks(s, v) && v.first == Some(Fresh(op, Reserved, NotRun))
    ensures Looks(Apply(s, CancelAttempt(1), true), v.(first := Some(Fresh(op, Cancelled, Ineligible))))
  {
  }

  lemma RecoverReadLooks(s: State, v: View, a: AttemptId)
    requires Looks(s, v) && v.recovery == On && v.item.Some?
    requires v.item.value.status == Cancelling && v.item.value.attempt == Some(a)
    ensures Looks(Apply(s, RecoverRead(1), true), v.(reading := Some(a)))
  {
    assert Apply(s, RecoverRead(1), true) == ApplyRecoverRead(s, 1);
  }

  lemma SeeTerminalLooks(s: State, v: View)
    requires Looks(s, v) && v.recovery == On && v.reading == Some(1)
    requires v.first.Some? && v.first.value.status == Cancelled
    ensures Looks(Apply(s, RecoverSeeTerminal(1), true), v.(reading := None, recovery := Finishing(1, 1)))
  {
    assert Apply(s, RecoverSeeTerminal(1), true) == ApplyRecoverSeeTerminal(s, 1);
  }

  lemma CancelItemLooks(s: State, v: View, op: OpId, n: nat)
    requires Looks(s, v) && v.item == Some(Plain(Cancelling, Some(op), Some(1), n))
    requires v.first.Some? && v.first.value.status == Cancelled
    ensures Looks(Apply(s, CancelItem(1), true), v.(item := Some(Plain(ItemCancelled, Some(op), Some(1), n + 1))))
  {
    assert TerminalAttempt(s, 1);
    assert Apply(s, CancelItem(1), true) == ApplyCancelItem(s, 1);
  }

  lemma RetryCheckLooks(s: State, v: View)
    requires Looks(s, v) && v.item.Some? && v.item.value.status == ItemCancelled && v.item.value.attempt == Some(1)
    requires v.first == Some(Fresh(0, Cancelled, Ineligible))
    ensures Looks(Apply(s, RetryCheck(1), true), v.(retrying := v.item))
  {
    RetryChecked(s, 1, true);
  }

  lemma RetryCommitLooks(s: State, v: View)
    requires Looks(s, v) && v.item.Some? && v.retrying == v.item
    ensures Looks(Apply(s, RetryCommit(1), true),
                  v.(retrying := None, item := Some(Requeued(v.item.value).(revision := v.item.value.revision + 1))))
  {
  }

  lemma RecoverFinishLooks(s: State, v: View, op: OpId, n: nat)
    requires Looks(s, v) && v.recovery == Finishing(1, 1) && v.first == Some(Fresh(0, Cancelled, Ineligible))
    requires v.item == Some(Plain(Running, Some(op), Some(2), n))
    ensures var result := Evidence(1, Cancelled, Ineligible, NotRequired);
            var after := Item(ItemCancelled, Some(op), Some(1), Some(result), 0, [], n + 1);
            Looks(Apply(s, RecoverFinish, true), v.(recovery := On, item := Some(after)))
  {
    var result := Evidence(1, Cancelled, Ineligible, NotRequired);
    assert Result(s, 1) == result;
    assert Projected(s.items[1], result) == Item(ItemCancelled, Some(op), Some(1), Some(result), 0, [], n);
    ProjectedState(s, 1, 1, true);
  }

  // ----- the run -----

  /** Lists the queued item and marks it. */
  lemma MarkOnce(s: State, v: View, n: nat) returns (s': State)
    requires At(s, v) && v.item == Some(Plain(Queued, None, None, n)) && v.dispatching.None? && v.execution.None?
    ensures var marked := Plain(Dispatching, Some(v.nextOp), None, n + 1);
            At(s', v.(item := Some(marked), listed := v.item, dispatching := Some(Marked(marked, [])),
                      nextOp := v.nextOp + 1))
  {
    ListLooks(s, v);
    var s1 := Then(Start(), s, List, true);
    MarkLooks(s1, v.(listed := v.item), n);
    s' := Then(Start(), s1, Mark(1), true);
  }

  /** Reserves attempt `a` for the marked item and binds it. */
  lemma ReserveAndBind(s: State, v: View, a: AttemptId, mine: Item) returns (s': State)
    requires At(s, v) && v.item == Some(mine) && v.dispatching == Some(Marked(mine, []))
    requires mine.op.Some? && mine == Plain(mine.status, mine.op, mine.attempt, mine.revision)
    requires (a == 1 && v.first.None?) || (a == 2 && v.second.None?)
    ensures At(s', WithAttempt(v, a, Fresh(mine.op.value, Reserved, NotRun))
                   .(item := Some(Plain(Running, mine.op, Some(a), mine.revision + 1)), dispatching := None,
                     execution := Some(Bound)))
  {
    ReserveLooks(s, v, a, mine);
    var s1 := Then(Start(), s, Reserve(1, a), true);
    BindLooks(s1, WithAttempt(v, a, Fresh(mine.op.value, Reserved, NotRun)).(dispatching := Some(Held(mine, a))), a,
              mine);
    s' := Then(Start(), s1, Bind(1), true);
  }

  /** One dispatch of the queued item, up to its binding to attempt `a`. */
  lemma DispatchOnce(s: State, v: View, a: AttemptId, n: nat) returns (s': State)
    requires At(s, v) && v.item == Some(Plain(Queued, None, None, n)) && v.dispatching.None? && v.execution.None?
    requires (a == 1 && v.first.None?) || (a == 2 && v.second.None?)
    ensures At(s', WithAttempt(v, a, Fresh(v.nextOp, Reserved, NotRun))
                   .(item := Some(Plain(Running, Some(v.nextOp), Some(a), n + 2)), listed := v.item,
                     execution := Some(Bound), nextOp := v.nextOp + 1))
  {
    var marked := Plain(Dispatching, Some(v.nextOp), None, n + 1);
    var s1 := MarkOnce(s, v, n);
    s' := ReserveAndBind(s1, v.(item := Some(marked), listed := v.item, dispatching := Some(Marked(marked, [])),
                                nextOp := v.nextOp + 1), a, marked);
  }

  /** The first dispatch, a crash, and a client's cancel that ends the attempt. */
  lemma CrashedAndCancelled() returns (s: State)
    ensures At(s, EMPTY.(item := Some(Plain(Cancelling, Some(0), Some(1), 3)),
                         first := Some(Fresh(0, Cancelled, Ineligible)), nextOp := 1))
  {
    s := Dispatched();
    var v := EMPTY.(item := Some(Plain(Running, Some(0), Some(1), 2)), first := Some(Fresh(0, Reserved, NotRun)),
                    listed := Some(Plain(Queued, None, None, 0)), execution := Some(Bound), recovery := Off,
                    nextOp := 1);
    CrashLooks(s, v);
    s := Then(Start(), s, Crash, true);
    v := v.(listed := None, execution := None, recovery := On);
    CancelRunningLooks(s, v, 0, 1, 2);
    s := Then(Start(), s, CancelRunning(1), true);
    CancelAttemptLooks(s, v.(item := Some(Plain(Cancelling, Some(0), Some(1), 3))), 0);
    s := Then(Start(), s, CancelAttempt(1), true);
  }

  /** Recovery sees the finished attempt; the client's cancel ends the item, and the client retries it. */
  lemma Retried() returns (s: State)
    ensures At(s, EMPTY.(item := Some(Plain(Queued, None, None, 5)), first := Some(Fresh(0, Cancelled, Ineligible)),
                         recovery := Finishing(1, 1), nextOp := 1))
  {
    s := CrashedAndCancelled();
    var v := EMPTY.(item := Some(Plain(Cancelling, Some(0), Some(1), 3)),
                    first := Some(Fresh(0, Cancelled, Ineligible)), nextOp := 1);
    RecoverReadLooks(s, v, 1);
    s := Then(Start(), s, RecoverRead(1), true);
    SeeTerminalLooks(s, v.(reading := Some(1)));
    s := Then(Start(), s, RecoverSeeTerminal(1), true);
    v := v.(recovery := Finishing(1, 1));
    CancelItemLooks(s, v, 0, 3);
    s := Then(Start(), s, CancelItem(1), true);
    v := v.(item := Some(Plain(ItemCancelled, Some(0), Some(1), 4)));
    RetryCheckLooks(s, v);
    s := Then(Start(), s, RetryCheck(1), true);
    RetryCommitLooks(s, v.(retrying := v.item));
    s := Then(Start(), s, RetryCommit(1), true);
  }

  /** The queued item's first dispatch. */
  lemma Dispatched() returns (s: State)
    ensures At(s, EMPTY.(item := Some(Plain(Running, Some(0), Some(1), 2)), first := Some(Fresh(0, Reserved, NotRun)),
                         listed := Some(Plain(Queued, None, None, 0)), execution := Some(Bound), recovery := Off,
                         nextOp := 1))
  {
    LeadsSelf(Start(), true);
    RecoverDoneLooks(Start(), EMPTY);
    s := Then(Start(), Start(), RecoverDone, true);
    EnqueueLooks(s, EMPTY.(recovery := Off));
    s := Then(Start(), s, Enqueue(1, []), true);
    s := DispatchOnce(s, EMPTY.(item := Some(Plain(Queued, None, None, 0)), recovery := Off), 1, 0);
  }

  /**
   A submission dispatches a second attempt, whose execution reads the item before recovery's projection and claims
   after it.
   */
  lemma ClaimedBehind() returns (s: State)
    ensures var result := Evidence(1, Cancelled, Ineligible, NotRequired);
            At(s, View(Some(Item(ItemCancelled, Some(1), Some(1), Some(result), 0, [], 8)),
                       Some(Fresh(0, Cancelled, Ineligible)),
                       Some(Fresh(1, Claimed, NotRun)), Some(Plain(Queued, None, None, 5)), None, Some(Launching(2, 1)),
                       On, None, None, 2, false))
  {
    var result := Evidence(1, Cancelled, Ineligible, NotRequired);
    s := Retried();
    var v := EMPTY.(item := Some(Plain(Queued, None, None, 5)), first := Some(Fresh(0, Cancelled, Ineligible)),
                    recovery := Finishing(1, 1), nextOp := 1);
    s := DispatchOnce(s, v, 2, 5);
    v := v.(item := Some(Plain(Running, Some(1), Some(2), 7)), second := Some(Fresh(1, Reserved, NotRun)),
            listed := v.item, execution := Some(Bound), nextOp := 2);
    ReadBoundLooks(s, v, 2, 1);
    s := Then(Start(), s, ReadBound(1), true);
    v := v.(execution := Some(Claiming(2, 1)));
    RecoverFinishLooks(s, v, 1, 7);
    s := Then(Start(), s, RecoverFinish, true);
    v := v.(recovery := On, item := Some(Item(ItemCancelled, Some(1), Some(1), Some(result), 0, [], 8)));
    ClaimLooks(s, v, 2, 1);
    s := Then(Start(), s, Claim(1), true);
  }

  /**
   If dispatching may overlap with startup recovery, a run leaves the item queued, naming nothing, while its second
   attempt is claimed and about to be launched.
   */
  lemma OverlapBreaksExclusion() returns (actions: seq<Action>)
    ensures Initial(Start())
    ensures var s := Run(Start(), actions, true);
            LiveAttempt(s, 2) && s.attempts[2].job == 1 && Is(s, 1, Queued) && s.items[1].attempt.None?
  {
    var result := Evidence(1, Cancelled, Ineligible, NotRequired);
    var s := ClaimedBehind();
    var v := View(Some(Item(ItemCancelled, Some(1), Some(1), Some(result), 0, [], 8)),
                  Some(Fresh(0, Cancelled, Ineligible)),
                  Some(Fresh(1, Claimed, NotRun)), Some(Plain(Queued, None, None, 5)), None, Some(Launching(2, 1)),
                  On, None, None, 2, false);
    RetryCheckLooks(s, v);
    s := Then(Start(), s, RetryCheck(1), true);
    RetryCommitLooks(s, v.(retrying := v.item));
    s := Then(Start(), s, RetryCommit(1), true);
    actions :| Run(Start(), actions, true) == s;
  }

  // ----- a removal during a retry -----

  /** The first attempt, launched, with a worktree that its contract retains. */
  function Launched(status: AttemptStatus, verification: VerificationStatus): Attempt {
    Attempt(1, Some(0), status, verification, NotRequired, true, false, [], true)
  }

  lemma LaunchLooks(s: State, v: View)
    requires Looks(s, v) && v.execution == Some(Launching(1, 0)) && v.first == Some(Fresh(0, Claimed, NotRun))
             && !v.executing
    ensures Looks(Apply(s, Launch(1), true), v.(execution := Some(Waiting(1)), executing := true))
  {
    assert Apply(s, Launch(1), true) == ApplyLaunch(s, 1);
  }

  lemma PrepareLooks(s: State, v: View)
    requires Looks(s, v) && v.executing && v.first == Some(Fresh(0, Claimed, NotRun))
    ensures Looks(Apply(s, Progress(1, Preparing, NotRun, true), true), v.(first := Some(Launched(Preparing, NotRun))))
  {
    assert Apply(s, Progress(1, Preparing, NotRun, true), true) == ApplyProgress(s, 1, Preparing, NotRun, true);
  }

  lemma FailLooks(s: State, v: View)
    requires Looks(s, v) && v.executing && v.first == Some(Launched(Preparing, NotRun))
    ensures Looks(Apply(s, Progress(1, Failed, Ineligible, false), true),
                  v.(first := Some(Launched(Failed, Ineligible))))
  {
    assert Apply(s, Progress(1, Failed, Ineligible, false), true) == ApplyProgress(s, 1, Failed, Ineligible, false);
  }

  lemma EndExecutionLooks(s: State, v: View)
    requires Looks(s, v)
    ensures Looks(Apply(s, EndExecution(1), true), v.(executing := false))
  {
  }

  lemma FinishLooks(s: State, v: View)
    requires Looks(s, v) && v.execution == Some(Waiting(1)) && !v.executing
             && v.first == Some(Launched(Failed, Ineligible))
    requires v.item == Some(Plain(Running, Some(0), Some(1), 2))
    ensures var result := Evidence(1, Failed, Ineligible, NotRequired);
            var after := Item(ItemFailed, Some(0), Some(1), Some(result), 0, [], 3);
            Looks(Apply(s, Finish(1), true), v.(item := Some(after), execution := Some(Ended)))
  {
    var result := Evidence(1, Failed, Ineligible, NotRequired);
    assert Result(s, 1) == result;
    assert Projected(s.items[1], result) == Item(ItemFailed, Some(0), Some(1), Some(result), 0, [], 2);
    assert Apply(s, Finish(1), true) == ApplyFinish(s, 1);
  }

  /** The first attempt fails while it is being prepared and leaves its worktree behind. */
  lemma FailedRetained() returns (s: State)
    ensures Leads(Start(), s, true) && Is(s, 1, ItemFailed) && s.items[1].attempt == Some(1)
    ensures Clean(s, 1) && s.attempts[1].workspace
  {
    s := Dispatched();
    var v := EMPTY.(item := Some(Plain(Running, Some(0), Some(1), 2)), first := Some(Fresh(0, Reserved, NotRun)),
                    listed := Some(Plain(Queued, None, None, 0)), execution := Some(Bound), recovery := Off,
                    nextOp := 1);
    ReadBoundLooks(s, v, 1, 0);
    s := Then(Start(), s, ReadBound(1), true);
    ClaimLooks(s, v.(execution := Some(Claiming(1, 0))), 1, 0);
    s := Then(Start(), s, Claim(1), true);
    v := v.(first := Some(Fresh(0, Claimed, NotRun)));
    LaunchLooks(s, v.(execution := Some(Launching(1, 0))));
    s := Then(Start(), s, Launch(1), true);
    v := v.(execution := Some(Waiting(1)));
    PrepareLooks(s, v.(executing := true));
    s := Then(Start(), s, Progress(1, Preparing, NotRun, true), true);
    FailLooks(s, v.(executing := true, first := Some(Launched(Preparing, NotRun))));
    s := Then(Start(), s, Progress(1, Failed, Ineligible, false), true);
    v := v.(first := Some(Launched(Failed, Ineligible)));
    EndExecutionLooks(s, v.(executing := true));
    s := Then(Start(), s, EndExecution(1), true);
    FinishLooks(s, v);
    s := Then(Start(), s, Finish(1), true);
  }

  /**
   A run from the start in which a retry requeues an item while the removal of its attempt's worktree is under way.
   */
  lemma RemovalDuringRetry() returns (actions: seq<Action>)
    ensures Initial(Start())
    ensures var s := Run(Start(), actions, true);
            && BackToQueued(s, Apply(s, RetryCommit(1), true), 1)
            && s.items[1].attempt == Some(1) && 1 in s.attempts && s.attempts[1].cleanup == Pending
  {
    var s := FailedRetained();
    var s1 := Then(Start(), s, RetryCheck(1), true);
    var s2 := Then(Start(), s1, RemovalStart(1), true);
    RetryChecked(s, 1, true);
    RemovalStarted(s1, 1, true);
    RemovalBreaksRetry(s, 1, 1, true, s1, s2);
    actions :| Run(Start(), actions, true) == s2;
  }
}
