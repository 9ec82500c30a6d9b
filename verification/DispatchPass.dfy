/**
 One pass of the dispatcher over the queue: which items it blocks, dispatches or rejects, in what order, and how
 many executions are active, while executions that are over leave the active set at any time.
 */
module DispatchPass {
  import opened Common
  import opened Completion
  import opened Dispatch
  import opened DispatchPaths
  import opened StartupRecovery

  /** What the conductor answers to a reservation: an attempt, a lineage error, or any other error. */
  datatype Answer = Reservation(attempt: AttemptId) | LineageError | OtherError

  type Answers = JobId -> Answer

  datatype Progress = Going | Full | Threw

  /**
   A pass so far: the state, the items it dispatched or rejected for lineage, how many it dispatched, and the items
   it passed over because an execution of theirs was still active.
   */
  datatype Pass = Pass(s: State, handled: seq<JobId>, dispatched: nat, skipped: set<JobId>, progress: Progress)

  /** Executions in `ended` that are over leave the active set. */
  function DropEnded(active: map<JobId, Execution>, ended: set<JobId>): map<JobId, Execution> {
    map job | job in active && !(job in ended && active[job].Ended?) :: active[job]
  }

  /** A dependency ended in any way but completed. */
  predicate FailedDependency(listed: map<JobId, Item>, item: Item) {
    exists i :: 0 <= i < |item.dependsOn| && item.dependsOn[i] in listed
                && ItemTerminal(listed[item.dependsOn[i]].status) && listed[item.dependsOn[i]].status != ItemCompleted
  }

  predicate DependenciesCompleted(listed: map<JobId, Item>, item: Item) {
    forall i :: 0 <= i < |item.dependsOn| ==>
      item.dependsOn[i] in listed && listed[item.dependsOn[i]].status == ItemCompleted
  }

  predicate EvidenceListed(listed: map<JobId, Item>, item: Item)
    requires DependenciesCompleted(listed, item)
  {
    forall i :: 0 <= i < |item.dependsOn| ==> listed[item.dependsOn[i]].completion.Some?
  }

  /** A queued item whose dependencies are all completed. */
  predicate Ready(listed: map<JobId, Item>, job: JobId) {
    job in listed && listed[job].status == Queued && DependenciesCompleted(listed, listed[job])
  }

  /** The mark, and the binding to a reserved attempt. */
  function MarkedItem(item: Item, op: OpId): Item {
    item.(status := Dispatching, op := Some(op), attempt := None, revision := item.revision + 1)
  }

  function BoundItem(item: Item, op: OpId, a: AttemptId): Item {
    MarkedItem(item, op).(status := Running, attempt := Some(a), revision := item.revision + 2)
  }

  /** The dispatch of one ready item; the queue refuses the mark if the item is not the one that was listed. */
  function DispatchItem(p: Pass, job: JobId, answer: Answer): Pass
    requires Ready(p.s.listed, job)
  {
    var s, item := p.s, p.s.listed[job];
    if !EvidenceListed(s.listed, item) || !(job in s.items && s.items[job] == item) then p.(progress := Threw)
    else
      var marked := s.(items := s.items[job := MarkedItem(item, s.nextOp)], nextOp := s.nextOp + 1);
      match answer
      case OtherError => p.(s := marked, progress := Threw)
      case LineageError =>
        var rejected := MarkedItem(item, s.nextOp).(status := ItemNeedsInput, revision := item.revision + 2);
        p.(s := marked.(items := s.items[job := rejected]),
           handled := p.handled + [job])
      case Reservation(a) =>
        if a in s.attempts then p.(s := marked, progress := Threw)
        else
          var reserved := NewAttempt(job, Some(s.nextOp), Parents(s, item));
          p.(s := marked.(items := s.items[job := BoundItem(item, s.nextOp, a)], attempts := s.attempts[a := reserved],
                          active := s.active[job := Bound]),
             handled := p.handled + [job], dispatched := p.dispatched + 1)
  }

  /** The block of an item with a failed dependency. */
  function BlockItem(p: Pass, job: JobId): Pass
    requires job in p.s.listed
  {
    if !(job in p.s.items && p.s.items[job] == p.s.listed[job]) then p.(progress := Threw)
    else p.(s := Write(p.s, job, p.s.items[job].(status := ItemNeedsInput)))
  }

  /** One round of the loop. */
  function Visit(p: Pass, job: JobId, ended: set<JobId>, answers: Answers, maxConcurrent: nat): Pass {
    if p.progress != Going || job !in p.s.listed then p
    else
      var s := p.s.(active := DropEnded(p.s.active, ended));
      var item := s.listed[job];
      var p1 := p.(s := s);
      if item.status != Queued then p1
      else if job in s.active then p1.(skipped := p.skipped + {job})
      else if FailedDependency(s.listed, item) then BlockItem(p1, job)
      else if !DependenciesCompleted(s.listed, item) then p1
      else if |s.active| >= maxConcurrent then p1.(progress := Full)
      else DispatchItem(p1, job, answers(job))
  }

  /** The pass over the first items of the listing; `ended` gives the executions that end before each round. */
  function PassOver(s: State, order: seq<JobId>, ended: nat -> set<JobId>, answers: Answers, maxConcurrent: nat): Pass {
    if order == [] then Pass(s, [], 0, {}, Going)
    else
      var n := |order| - 1;
      Visit(PassOver(s, order[..n], ended, answers, maxConcurrent), order[n], ended(n), answers, maxConcurrent)
  }

  // ----- the number of active executions -----

  lemma DropEndedFewer(active: map<JobId, Execution>, ended: set<JobId>)
    ensures DropEnded(active, ended).Keys <= active.Keys
    ensures |DropEnded(active, ended)| <= |active|
  {
    var dropped := DropEnded(active, ended);
    assert |dropped| == |dropped.Keys| && |active| == |active.Keys|;
    SubsetSize(dropped.Keys, active.Keys);
  }

  lemma SubsetSize<T>(small: set<T>, large: set<T>)
    requires small <= large
    ensures |small| <= |large|
  {
    assert large == small + (large - small);
  }

  lemma DispatchItemActive(p: Pass, job: JobId, answer: Answer)
    requires Ready(p.s.listed, job)
    ensures |DispatchItem(p, job, answer).s.active| <= |p.s.active| + 1
  {
    var active := p.s.active;
    assert |active[job := Bound]| == |active[job := Bound].Keys| && |active| == |active.Keys|;
    assert active[job := Bound].Keys == active.Keys + {job};
  }

  lemma VisitActive(p: Pass, job: JobId, ended: set<JobId>, answers: Answers, maxConcurrent: nat)
    requires |p.s.active| <= maxConcurrent
    ensures |Visit(p, job, ended, answers, maxConcurrent).s.active| <= maxConcurrent
  {
    DropEndedFewer(p.s.active, ended);
    var p1 := p.(s := p.s.(active := DropEnded(p.s.active, ended)));
    if Ready(p1.s.listed, job) { DispatchItemActive(p1, job, answers(job)); }
  }

  /** Active executions never exceed the limit, at any point of the pass. */
  lemma {:induction false} ActiveBounded(s: State, order: seq<JobId>, ended: nat -> set<JobId>, answers: Answers,
                                         maxConcurrent: nat)
    requires |s.active| <= maxConcurrent
    ensures |PassOver(s, order, ended, answers, maxConcurrent).s.active| <= maxConcurrent
  {
    if order != [] {
      var n := |order| - 1;
      ActiveBounded(s, order[..n], ended, answers, maxConcurrent);
      VisitActive(PassOver(s, order[..n], ended, answers, maxConcurrent), order[n], ended(n), answers, maxConcurrent);
    }
  }

  // ----- what the pass handles -----

  /** The ready items of a listing, without the skipped ones, in order. */
  function EligibleJobs(listed: map<JobId, Item>, order: seq<JobId>, skipped: set<JobId>): seq<JobId> {
    if order == [] then []
    else
      var n := |order| - 1;
      var before := EligibleJobs(listed, order[..n], skipped);
      if Ready(listed, order[n]) && order[n] !in skipped then before + [order[n]] else before
  }

  predicate IsPrefix<T(==)>(a: seq<T>, b: seq<T>) {
    |a| <= |b| && a == b[..|a|]
  }

  lemma {:induction false} EligibleCut(listed: map<JobId, Item>, order: seq<JobId>, skipped: set<JobId>,
                                       more: set<JobId>)
    requires forall job :: job in order && job in more ==> job in skipped || !Ready(listed, job)
    ensures EligibleJobs(listed, order, skipped + more) == EligibleJobs(listed, order, skipped)
  {
    if order != [] { EligibleCut(listed, order[..|order| - 1], skipped, more); }
  }

  lemma DispatchItemEffect(p: Pass, job: JobId, answer: Answer)
    requires Ready(p.s.listed, job) && p.progress == Going
    ensures var p' := DispatchItem(p, job, answer);
            && p'.s.listed == p.s.listed && p'.skipped == p.skipped
            && p'.s.active.Keys <= p.s.active.Keys + {job}
            && p'.handled == (if p'.progress == Going then p.handled + [job] else p.handled)
            && p'.progress in {Going, Threw}
  {
  }

  lemma BlockItemEffect(p: Pass, job: JobId)
    requires job in p.s.listed && p.progress == Going
    ensures BlockItem(p, job) == p.(s := BlockItem(p, job).s, progress := BlockItem(p, job).progress)
    ensures BlockItem(p, job).s == p.s.(items := BlockItem(p, job).s.items)
            && BlockItem(p, job).progress in {Going, Threw}
  {
  }

  lemma FailedIsNotReady(listed: map<JobId, Item>, job: JobId)
    requires job in listed && FailedDependency(listed, listed[job])
    ensures !Ready(listed, job)
  {
  }

  /** What one round adds to the record of the pass. */
  lemma VisitEffect(p: Pass, job: JobId, ended: set<JobId>, answers: Answers, maxConcurrent: nat)
    requires job !in p.skipped && p.progress == Going
    ensures var p' := Visit(p, job, ended, answers, maxConcurrent);
            && p'.s.listed == p.s.listed
            && p'.s.active.Keys <= p.s.active.Keys + {job}
            && (p'.skipped == p.skipped || (p'.skipped == p.skipped + {job} && job in p.s.active))
            && (p'.progress == Going ==>
                  p'.handled == if Ready(p.s.listed, job) && job !in p'.skipped then p.handled + [job] else p.handled)
            && (p'.progress != Going ==> p'.handled == p.handled && p'.skipped == p.skipped)
  {
    DropEndedFewer(p.s.active, ended);
    var p1 := p.(s := p.s.(active := DropEnded(p.s.active, ended)));
    if job in p.s.listed && p.s.listed[job].status == Queued && job !in p1.s.active {
      if FailedDependency(p.s.listed, p.s.listed[job]) { FailedIsNotReady(p.s.listed, job); BlockItemEffect(p1, job); }
      else if DependenciesCompleted(p.s.listed, p.s.listed[job]) { DispatchItemEffect(p1, job, answers(job)); }
    }
  }

  /** The record of a pass over a listing. */
  ghost predicate Recorded(s: State, p: Pass, order: seq<JobId>) {
    && p.s.listed == s.listed
    && (forall job :: job in p.s.active ==> job in s.active || job in order)
    && (forall job :: job in p.skipped ==> job in s.active && job in order)
    && (p.progress == Going ==> p.handled == EligibleJobs(s.listed, order, p.skipped))
    && IsPrefix(p.handled, EligibleJobs(s.listed, order, p.skipped))
  }

  lemma VisitRecorded(s: State, p: Pass, order: seq<JobId>, job: JobId, ended: set<JobId>, answers: Answers,
                      maxConcurrent: nat)
    requires Recorded(s, p, order) && job !in order
    ensures Recorded(s, Visit(p, job, ended, answers, maxConcurrent), order + [job])
  {
    var p' := Visit(p, job, ended, answers, maxConcurrent);
    if p.progress == Going { VisitEffect(p, job, ended, answers, maxConcurrent); }
    assert (order + [job])[..|order|] == order;
    if job in p'.skipped {
      assert job !in p.skipped;
      assert p'.skipped == p.skipped + {job};
      EligibleCut(s.listed, order, p.skipped, {job});
    } else {
      assert p'.skipped == p.skipped;
    }
  }

  lemma {:induction false} PassRecorded(s: State, order: seq<JobId>, ended: nat -> set<JobId>, answers: Answers,
                                        maxConcurrent: nat)
    requires Distinct(order)
    ensures Recorded(s, PassOver(s, order, ended, answers, maxConcurrent), order)
  {
    if order != [] {
      var n := |order| - 1;
      assert forall i :: 0 <= i < n ==> order[..n][..i] == order[..i];
      PassRecorded(s, order[..n], ended, answers, maxConcurrent);
      assert order[n] !in order[..n];
      VisitRecorded(s, PassOver(s, order[..n], ended, answers, maxConcurrent), order[..n], order[n], ended(n), answers,
                    maxConcurrent);
      assert order[..n] + [order[n]] == order;
    }
  }

  lemma VisitFull(p: Pass, job: JobId, ended: set<JobId>, answers: Answers, maxConcurrent: nat)
    requires p.progress == Full ==> |p.s.active| >= maxConcurrent
    ensures var p' := Visit(p, job, ended, answers, maxConcurrent); p'.progress == Full ==>
              |p'.s.active| >= maxConcurrent
  {
    var p1 := p.(s := p.s.(active := DropEnded(p.s.active, ended)));
    if Ready(p1.s.listed, job) && p.progress == Going { DispatchItemEffect(p1, job, answers(job)); }
  }

  lemma {:induction false} FullIsFull(s: State, order: seq<JobId>, ended: nat -> set<JobId>, answers: Answers,
                                      maxConcurrent: nat)
    ensures var p := PassOver(s, order, ended, answers, maxConcurrent);
            p.progress == Full ==> |p.s.active| >= maxConcurrent
  {
    if order != [] {
      var n := |order| - 1;
      FullIsFull(s, order[..n], ended, answers, maxConcurrent);
      VisitFull(PassOver(s, order[..n], ended, answers, maxConcurrent), order[n], ended(n), answers, maxConcurrent);
    }
  }

  /**
   Whatever ends during the pass and whatever the conductor answers: the items dispatched or rejected for lineage
   are a prefix of the eligible items in queue order; all of them if the pass runs to its end; and if it stops for
   lack of capacity, exactly the maximum number of executions is active.  Only items that already had an active
   execution when the pass began are passed over.
   */
  lemma PassHandlesPrefix(s: State, order: seq<JobId>, ended: nat -> set<JobId>, answers: Answers, maxConcurrent: nat,
                          p: Pass)
    requires Distinct(order) && |s.active| <= maxConcurrent && p == PassOver(s, order, ended, answers, maxConcurrent)
    ensures IsPrefix(p.handled, EligibleJobs(s.listed, order, p.skipped))
    ensures p.progress == Going ==> p.handled == EligibleJobs(s.listed, order, p.skipped)
    ensures p.progress == Full ==> |p.s.active| == maxConcurrent
    ensures |p.s.active| <= maxConcurrent
    ensures p.skipped <= s.active.Keys
  {
    PassRecorded(s, order, ended, answers, maxConcurrent);
    ActiveBounded(s, order, ended, answers, maxConcurrent);
    FullIsFull(s, order, ended, answers, maxConcurrent);
  }

  // ----- what becomes of the items that are handled -----

  /**
   A handled item: bound to the attempt that was reserved for it, with the attempts of its dependencies as parents
   and an active execution; or rejected for lineage.
   */
  predicate HandledOk(s: State, job: JobId, answer: Answer) {
    match answer
    case Reservation(a) =>
      && Is(s, job, Running) && s.items[job].attempt == Some(a) && job in s.active && s.active[job] == Bound
      && a in s.attempts && ReservedFor(s, s.attempts[a], job) && s.attempts[a].op == s.items[job].op
    case LineageError => Is(s, job, ItemNeedsInput)
    case OtherError => false
  }

  predicate ReservedFor(s: State, attempt: Attempt, job: JobId) {
    && attempt.job == job && attempt.status == Reserved && job in s.listed && DependenciesListed(s, s.listed[job])
    && attempt.parents == Parents(s, s.listed[job])
  }

  function CountBound(handled: seq<JobId>, answers: Answers): nat {
    if handled == [] then 0
    else CountBound(handled[..|handled| - 1], answers) + if answers(handled[|handled| - 1]).Reservation? then 1 else 0
  }

  ghost predicate Accounted(p: Pass, order: seq<JobId>, answers: Answers) {
    && (forall job :: job in p.handled ==> job in order && HandledOk(p.s, job, answers(job)))
    && p.dispatched == CountBound(p.handled, answers)
  }

  /** A round touches no other item, no existing attempt and no execution that has just begun. */
  predicate Leaves(s: State, s': State, job: JobId) {
    && s'.listed == s.listed
    && (forall j :: j in s.items && j != job ==> j in s'.items && s'.items[j] == s.items[j])
    && (forall j :: j in s.active && s.active[j] == Bound && j != job ==> j in s'.active && s'.active[j] == Bound)
    && (forall a :: a in s.attempts ==> a in s'.attempts && s'.attempts[a] == s.attempts[a])
  }

  lemma DispatchItemLeaves(p: Pass, job: JobId, answer: Answer)
    requires Ready(p.s.listed, job) && p.progress == Going
    ensures Leaves(p.s, DispatchItem(p, job, answer).s, job)
  {
  }

  lemma DispatchItemCounts(p: Pass, job: JobId, answer: Answer)
    requires Ready(p.s.listed, job) && p.progress == Going
    ensures var p' := DispatchItem(p, job, answer);
            && (p'.progress == Going ==> HandledOk(p'.s, job, answer)
                                         && p'.dispatched == p.dispatched + if answer.Reservation? then 1 else 0)
            && (p'.progress != Going ==> p'.dispatched == p.dispatched)
  {
    var s, item := p.s, p.s.listed[job];
    if EvidenceListed(s.listed, item) { assert DependenciesListed(s, item); }
  }

  lemma DropLeaves(s: State, ended: set<JobId>, job: JobId)
    ensures Leaves(s, s.(active := DropEnded(s.active, ended)), job)
  {
  }

  lemma BlockLeaves(p: Pass, job: JobId)
    requires job in p.s.listed
    ensures Leaves(p.s, BlockItem(p, job).s, job)
  {
  }

  lemma LeavesTrans(s: State, s1: State, s2: State, job: JobId)
    requires Leaves(s, s1, job) && Leaves(s1, s2, job)
    ensures Leaves(s, s2, job)
  {
  }

  lemma VisitLeaves(p: Pass, job: JobId, ended: set<JobId>, answers: Answers, maxConcurrent: nat)
    requires p.progress == Going
    ensures Leaves(p.s, Visit(p, job, ended, answers, maxConcurrent).s, job)
  {
    var p1 := p.(s := p.s.(active := DropEnded(p.s.active, ended)));
    DropLeaves(p.s, ended, job);
    if job in p.s.listed && p.s.listed[job].status == Queued && job !in p1.s.active {
      if FailedDependency(p.s.listed, p.s.listed[job]) {
        BlockLeaves(p1, job);
        LeavesTrans(p.s, p1.s, BlockItem(p1, job).s, job);
      } else if DependenciesCompleted(p.s.listed, p.s.listed[job]) && |p1.s.active| < maxConcurrent {
        DispatchItemLeaves(p1, job, answers(job));
        LeavesTrans(p.s, p1.s, DispatchItem(p1, job, answers(job)).s, job);
      }
    }
  }

  lemma VisitCounts(p: Pass, job: JobId, ended: set<JobId>, answers: Answers, maxConcurrent: nat)
    requires p.progress == Going
    ensures var p' := Visit(p, job, ended, answers, maxConcurrent);
            || (p'.handled == p.handled && p'.dispatched == p.dispatched)
            || (p'.handled == p.handled + [job] && HandledOk(p'.s, job, answers(job))
                && p'.dispatched == p.dispatched + if answers(job).Reservation? then 1 else 0)
  {
    var p1 := p.(s := p.s.(active := DropEnded(p.s.active, ended)));
    if Ready(p1.s.listed, job) {
      DispatchItemCounts(p1, job, answers(job));
      DispatchItemEffect(p1, job, answers(job));
    }
    if job in p1.s.listed { BlockItemEffect(p1, job); }
  }

  lemma HandledStays(s: State, s': State, job: JobId, other: JobId, answer: Answer)
    requires Leaves(s, s', job) && other != job && HandledOk(s, other, answer)
    ensures HandledOk(s', other, answer)
  {
  }

  lemma VisitAccounted(p: Pass, order: seq<JobId>, job: JobId, ended: set<JobId>, answers: Answers, maxConcurrent: nat)
    requires Accounted(p, order, answers) && job !in order
    ensures Accounted(Visit(p, job, ended, answers, maxConcurrent), order + [job], answers)
  {
    var p' := Visit(p, job, ended, answers, maxConcurrent);
    if p.progress == Going {
      VisitLeaves(p, job, ended, answers, maxConcurrent);
      VisitCounts(p, job, ended, answers, maxConcurrent);
      forall j | j in p.handled ensures HandledOk(p'.s, j, answers(j)) {
        HandledStays(p.s, p'.s, job, j, answers(j));
      }
      assert (p.handled + [job])[..|p.handled|] == p.handled;
    }
  }

  /**
   Whatever ends during the pass: every handled item is bound to its reserved attempt or rejected for lineage, as the
   conductor answered, and the count that is returned is the number of items that were bound.
   */
  lemma {:induction false} PassAccounts(s: State, order: seq<JobId>, ended: nat -> set<JobId>, answers: Answers,
                                        maxConcurrent: nat)
    requires Distinct(order)
    ensures Accounted(PassOver(s, order, ended, answers, maxConcurrent), order, answers)
  {
    if order != [] {
      var n := |order| - 1;
      assert forall i :: 0 <= i < n ==> order[..n][..i] == order[..i];
      PassAccounts(s, order[..n], ended, answers, maxConcurrent);
      assert order[n] !in order[..n];
      VisitAccounted(PassOver(s, order[..n], ended, answers, maxConcurrent), order[..n], order[n], ended(n), answers,
                     maxConcurrent);
      assert order[..n] + [order[n]] == order;
    }
  }

  // ----- what becomes of every item -----

  /** The item of a queued job that can never run: a dependency of it ended without being completed. */
  predicate MustBlock(listed: map<JobId, Item>, job: JobId) {
    job in listed && listed[job].status == Queued && FailedDependency(listed, listed[job])
  }

  function Blocked(item: Item): Item {
    item.(status := ItemNeedsInput, revision := item.revision + 1)
  }

  /** A handled item after its two updates. */
  predicate HandledItem(before: Item, after: Item, answer: Answer) {
    && after.op.Some?
    && match answer
       case Reservation(a) => after == BoundItem(before, after.op.value, a)
       case LineageError =>
         after == MarkedItem(before, after.op.value).(status := ItemNeedsInput, revision := before.revision + 2)
       case OtherError => false
  }

  /**
   What a pass over `order` leaves of an item: handled as the conductor answered; blocked, if it must be and is not
   passed over, unless the pass stopped before it; and otherwise as it was listed, but for the mark on an item whose
   dispatch threw.
   */
  predicate ItemAfter(listed: map<JobId, Item>, items: map<JobId, Item>, order: seq<JobId>, handled: seq<JobId>,
                      skipped: set<JobId>, progress: Progress, answers: Answers, job: JobId)
    requires job in listed
  {
    && job in items
    && var before, after := listed[job], items[job];
    if job in handled then HandledItem(before, after, answers(job))
    else if job in order && job !in skipped && MustBlock(listed, job) then
      after == Blocked(before) || (progress != Going && after == before)
    else
      || after == before
      || (progress == Threw && Ready(listed, job) && after.op.Some? && after == MarkedItem(before, after.op.value))
  }

  ghost predicate ItemsAfter(s: State, p: Pass, order: seq<JobId>, answers: Answers) {
    forall job :: job in s.items ==>
      ItemAfter(s.items, p.s.items, order, p.handled, p.skipped, p.progress, answers, job)
  }

  /** Where a pass is while it goes on: what is ahead of it is as it was listed. */
  ghost predicate Underway(s: State, p: Pass, order: seq<JobId>) {
    && s.listed == s.items && Recorded(s, p, order)
    && (forall job :: job in p.handled ==> job in order)
    && (p.progress != Going ==> p.handled != EligibleJobs(s.listed, order, p.skipped))
  }

  lemma VisitedItem(s: State, p: Pass, order: seq<JobId>, job: JobId, ended: set<JobId>, answers: Answers,
                    maxConcurrent: nat)
    requires Underway(s, p, order) && p.progress == Going && job !in order && job in s.items
    requires ItemAfter(s.items, p.s.items, order, p.handled, p.skipped, p.progress, answers, job)
    ensures var p' := Visit(p, job, ended, answers, maxConcurrent);
            ItemAfter(s.items, p'.s.items, order + [job], p'.handled, p'.skipped, p'.progress, answers, job)
  {
    assert p.s.items[job] == s.items[job];
    var p1 := p.(s := p.s.(active := DropEnded(p.s.active, ended)));
    if s.items[job].status == Queued && job !in p1.s.active && !FailedDependency(s.items, s.items[job])
       && DependenciesCompleted(s.items, s.items[job]) && |p1.s.active| < maxConcurrent {
      DispatchedItem(p1, job, answers(job));
    }
  }

  lemma DispatchedItem(p: Pass, job: JobId, answer: Answer)
    requires Ready(p.s.listed, job) && p.progress == Going && job in p.s.items && p.s.items[job] == p.s.listed[job]
    ensures var p' := DispatchItem(p, job, answer); var after := p'.s.items;
            && job in after && p'.skipped == p.skipped
            && if p'.progress == Going
               then p'.handled == p.handled + [job] && HandledItem(p.s.items[job], after[job], answer)
               else p'.progress == Threw && p'.handled == p.handled
                    && (after[job] == p.s.items[job]
                        || (after[job].op.Some? && after[job] == MarkedItem(p.s.items[job], after[job].op.value)))
  {
  }

  lemma OtherItem(s: State, p: Pass, p': Pass, order: seq<JobId>, job: JobId, answers: Answers, other: JobId)
    requires other in s.items && other != job && Leaves(p.s, p'.s, job) && p.progress == Going
    requires p'.handled == p.handled || p'.handled == p.handled + [job]
    requires p'.skipped == p.skipped || p'.skipped == p.skipped + {job}
    requires ItemAfter(s.items, p.s.items, order, p.handled, p.skipped, p.progress, answers, other)
    ensures ItemAfter(s.items, p'.s.items, order + [job], p'.handled, p'.skipped, p'.progress, answers, other)
  {
  }

  lemma VisitItemsAfter(s: State, p: Pass, order: seq<JobId>, job: JobId, ended: set<JobId>, answers: Answers,
                        maxConcurrent: nat)
    requires Underway(s, p, order) && ItemsAfter(s, p, order, answers) && p.progress == Going
    requires job !in order && job in s.items
    ensures ItemsAfter(s, Visit(p, job, ended, answers, maxConcurrent), order + [job], answers)
  {
    var p' := Visit(p, job, ended, answers, maxConcurrent);
    VisitLeaves(p, job, ended, answers, maxConcurrent);
    VisitEffect(p, job, ended, answers, maxConcurrent);
    VisitCounts(p, job, ended, answers, maxConcurrent);
    forall j | j in s.items
      ensures ItemAfter(s.items, p'.s.items, order + [job], p'.handled, p'.skipped, p'.progress, answers, j)
    {
      if j == job { VisitedItem(s, p, order, job, ended, answers, maxConcurrent); }
      else { OtherItem(s, p, p', order, job, answers, j); }
    }
  }

  /** A pass stops only at an item that it should have dispatched. */
  lemma VisitStops(s: State, p: Pass, order: seq<JobId>, job: JobId, ended: set<JobId>, answers: Answers,
                   maxConcurrent: nat)
    requires Underway(s, p, order) && ItemsAfter(s, p, order, answers) && p.progress == Going
    requires job !in order && job in s.items
    ensures Underway(s, Visit(p, job, ended, answers, maxConcurrent), order + [job])
  {
    var p' := Visit(p, job, ended, answers, maxConcurrent);
    VisitRecorded(s, p, order, job, ended, answers, maxConcurrent);
    VisitEffect(p, job, ended, answers, maxConcurrent);
    if p'.progress != Going {
      assert p.s.items[job] == s.items[job] by {
        assert ItemAfter(s.items, p.s.items, order, p.handled, p.skipped, p.progress, answers, job);
      }
      StopsAtReady(p, job, ended, answers, maxConcurrent);
      assert (order + [job])[..|order|] == order;
      assert p.handled == EligibleJobs(s.listed, order, p.skipped);
    }
  }

  lemma StopsAtReady(p: Pass, job: JobId, ended: set<JobId>, answers: Answers, maxConcurrent: nat)
    requires p.progress == Going && Visit(p, job, ended, answers, maxConcurrent).progress != Going
    requires job in p.s.listed && job in p.s.items && p.s.items[job] == p.s.listed[job]
    ensures Ready(p.s.listed, job)
  {
  }

  lemma {:induction false} PassItemsAfter(s: State, order: seq<JobId>, ended: nat -> set<JobId>, answers: Answers,
                                          maxConcurrent: nat)
    requires s.listed == s.items && Distinct(order) && forall job :: job in order ==> job in s.items
    ensures var p := PassOver(s, order, ended, answers, maxConcurrent);
            Underway(s, p, order) && ItemsAfter(s, p, order, answers)
  {
    if order != [] {
      var n := |order| - 1;
      var before, job := order[..n], order[n];
      assert forall i :: 0 <= i < n ==> before[..i] == order[..i];
      assert job !in before && before + [job] == order;
      PassItemsAfter(s, before, ended, answers, maxConcurrent);
      var p := PassOver(s, before, ended, answers, maxConcurrent);
      if p.progress == Going {
        VisitStops(s, p, before, job, ended(n), answers, maxConcurrent);
        VisitItemsAfter(s, p, before, job, ended(n), answers, maxConcurrent);
      } else {
        StoppedStays(s, p, before, job, answers);
      }
    }
  }

  /** A pass that has stopped does no more to anyone. */
  lemma StoppedStays(s: State, p: Pass, order: seq<JobId>, job: JobId, answers: Answers)
    requires Underway(s, p, order) && ItemsAfter(s, p, order, answers) && p.progress != Going && job !in order
    ensures Underway(s, p, order + [job]) && ItemsAfter(s, p, order + [job], answers)
  {
    assert (order + [job])[..|order|] == order;
    forall j | j in s.items
      ensures ItemAfter(s.items, p.s.items, order + [job], p.handled, p.skipped, p.progress, answers, j)
    {
      assert ItemAfter(s.items, p.s.items, order, p.handled, p.skipped, p.progress, answers, j);
    }
  }

  /** Existing attempts stay as they are, and each new one was reserved for a handled item. */
  ghost predicate AttemptsAfter(before: map<AttemptId, Attempt>, after: map<AttemptId, Attempt>, handled: seq<JobId>,
                                answers: Answers)
  {
    && (forall a :: a in before ==> a in after && after[a] == before[a])
    && (forall a :: a in after && a !in before ==> exists job :: job in handled && answers(job) == Reservation(a))
  }

  lemma VisitAttempts(p: Pass, job: JobId, ended: set<JobId>, answers: Answers, maxConcurrent: nat)
    requires p.progress == Going
    ensures var p' := Visit(p, job, ended, answers, maxConcurrent);
            forall a :: a in p'.s.attempts && a !in p.s.attempts ==>
              p'.handled == p.handled + [job] && answers(job) == Reservation(a)
  {
  }

  lemma {:induction false} PassAttemptsAfter(s: State, order: seq<JobId>, ended: nat -> set<JobId>, answers: Answers,
                                             maxConcurrent: nat)
    ensures var p := PassOver(s, order, ended, answers, maxConcurrent);
            AttemptsAfter(s.attempts, p.s.attempts, p.handled, answers)
  {
    if order != [] {
      var n := |order| - 1;
      PassAttemptsAfter(s, order[..n], ended, answers, maxConcurrent);
      var p := PassOver(s, order[..n], ended, answers, maxConcurrent);
      if p.progress == Going {
        var p' := Visit(p, order[n], ended(n), answers, maxConcurrent);
        VisitLeaves(p, order[n], ended(n), answers, maxConcurrent);
        VisitCounts(p, order[n], ended(n), answers, maxConcurrent);
        VisitAttempts(p, order[n], ended(n), answers, maxConcurrent);
        assert forall job :: job in p.handled ==> job in p'.handled;
      }
    }
  }

  /**
   What a pass leaves, whatever ends meanwhile: every handled item is bound or rejected; every other queued item with a
   dependency that ended without being completed, and without an execution that was active already, is handed to its
   owner; everything else is as it was listed.  The pass runs to its end exactly if it handled every eligible item.
   */
  lemma PassSettlesItems(s: State, order: seq<JobId>, ended: nat -> set<JobId>, answers: Answers, maxConcurrent: nat,
                         p: Pass)
    requires s.listed == s.items && Lists(order, s.items.Keys)
    requires p == PassOver(s, order, ended, answers, maxConcurrent)
    ensures forall job :: job in s.items ==>
              ItemAfter(s.items, p.s.items, order, p.handled, p.skipped, p.progress, answers, job)
    ensures p.progress == Going ==>
              forall job :: MustBlock(s.items, job) && job !in s.active ==>
                job in p.s.items && p.s.items[job] == Blocked(s.items[job])
    ensures p.progress == Going <==> p.handled == EligibleJobs(s.items, order, p.skipped)
    ensures AttemptsAfter(s.attempts, p.s.attempts, p.handled, answers)
  {
    PassItemsAfter(s, order, ended, answers, maxConcurrent);
    PassAttemptsAfter(s, order, ended, answers, maxConcurrent);
    forall job | p.progress == Going && MustBlock(s.items, job) && job !in s.active
      ensures job in p.s.items && p.s.items[job] == Blocked(s.items[job])
    {
      assert ItemAfter(s.items, p.s.items, order, p.handled, p.skipped, p.progress, answers, job);
      if job in p.handled { HandledIsReady(s.items, order, p.skipped, job); }
    }
  }

  lemma {:induction false} HandledIsReady(listed: map<JobId, Item>, order: seq<JobId>, skipped: set<JobId>, job: JobId)
    requires job in EligibleJobs(listed, order, skipped)
    ensures Ready(listed, job) && !MustBlock(listed, job)
  {
    if job !in EligibleJobs(listed, order[..|order| - 1], skipped) {
      assert job == order[|order| - 1];
    } else {
      HandledIsReady(listed, order[..|order| - 1], skipped, job);
    }
    if MustBlock(listed, job) { FailedIsNotReady(listed, job); }
  }

  // ----- the pass is a run of the protocol -----

  lemma {:induction false} DropReaches(s: State, ended: set<JobId>)
    ensures Leads(s, s.(active := DropEnded(s.active, ended)), false)
    decreases |ended|
  {
    if ended == {} {
      assert DropEnded(s.active, ended) == s.active;
      LeadsSelf(s, false);
    } else {
      var job :| job in ended;
      var rest := ended - {job};
      DropReaches(s, rest);
      var s1 := s.(active := DropEnded(s.active, rest));
      DropOne(s1, job);
      assert DropEnded(s1.active, {job}) == DropEnded(s.active, ended);
      LeadsTrans(s, s1, s.(active := DropEnded(s.active, ended)), false);
    }
  }

  lemma DropOne(s: State, job: JobId)
    ensures Leads(s, s.(active := DropEnded(s.active, {job})), false)
  {
    var s' := Apply(s, Drop(job), false);
    assert s'.active == DropEnded(s.active, {job});
    LeadsOne(s, Drop(job), false);
  }

  /** Between rounds the dispatcher holds no half-dispatched item. */
  predicate Quiet(s: State) {
    s.recovery == Off && s.dispatching == map[]
  }

  lemma BlockReaches(p: Pass, job: JobId)
    requires Quiet(p.s) && job in p.s.listed && p.s.listed[job].status == Queued
    ensures Leads(p.s, BlockItem(p, job).s, false) && Quiet(BlockItem(p, job).s)
  {
    if BlockItem(p, job).progress == p.progress && job in p.s.items && p.s.items[job] == p.s.listed[job] {
      LeadsOne(p.s, Block(job), false);
    } else {
      LeadsSelf(p.s, false);
    }
  }

  /** The state right after the mark. */
  function AfterMark(s: State, job: JobId): State
    requires Ready(s.listed, job) && EvidenceListed(s.listed, s.listed[job])
  {
    var item := s.listed[job];
    s.(items := s.items[job := MarkedItem(item, s.nextOp)], nextOp := s.nextOp + 1,
       dispatching := map[job := Marked(MarkedItem(item, s.nextOp), Parents(s, item))])
  }

  lemma MarkReaches(s: State, job: JobId)
    requires Quiet(s) && Ready(s.listed, job) && EvidenceListed(s.listed, s.listed[job]) && job !in s.active
    requires job in s.items && s.items[job] == s.listed[job]
    ensures Leads(s, AfterMark(s, job), false)
  {
    assert DependenciesListed(s, s.items[job]);
    assert ApplyMark(s, job) == AfterMark(s, job);
    LeadsOne(s, Mark(job), false);
  }

  lemma AbandonReaches(s: State, job: JobId)
    requires s.dispatching.Keys == {job}
    ensures Leads(s, s.(dispatching := map[]), false)
  {
    assert s.dispatching - {job} == map[];
    LeadsOne(s, Abandon(job), false);
  }

  lemma RejectReaches(s: State, job: JobId, mine: Item, parents: seq<AttemptId>)
    requires s.dispatching == map[job := Marked(mine, parents)] && job in s.items && s.items[job] == mine
    ensures Leads(s, Write(s, job, mine.(status := ItemNeedsInput)).(dispatching := map[]), false)
  {
    assert s.dispatching - {job} == map[];
    assert ApplyRejectLineage(s, job) == Write(s, job, mine.(status := ItemNeedsInput)).(dispatching := map[]);
    LeadsOne(s, RejectLineage(job), false);
  }

  lemma ReserveReaches(s: State, job: JobId, mine: Item, parents: seq<AttemptId>, a: AttemptId)
    requires s.dispatching == map[job := Marked(mine, parents)] && a !in s.attempts
    ensures Leads(s, s.(attempts := s.attempts[a := NewAttempt(job, mine.op, parents)],
                          dispatching := map[job := Held(mine, a)]), false)
  {
    assert s.dispatching[job := Held(mine, a)] == map[job := Held(mine, a)];
    LeadsOne(s, Reserve(job, a), false);
  }

  lemma BindReaches(s: State, job: JobId, mine: Item, a: AttemptId)
    requires s.dispatching == map[job := Held(mine, a)] && job in s.items && s.items[job] == mine
    ensures var bound := Write(s, job, mine.(status := Running, attempt := Some(a)));
            Leads(s, bound.(dispatching := map[], active := s.active[job := Bound]), false)
  {
    assert s.dispatching - {job} == map[];
    LeadsOne(s, Bind(job), false);
  }

  function Begun(s: State): Pass {
    Pass(s, [], 0, {}, Going)
  }

  lemma RejectedReaches(s: State, job: JobId)
    requires Quiet(s) && Ready(s.listed, job) && EvidenceListed(s.listed, s.listed[job]) && job !in s.active
    requires job in s.items && s.items[job] == s.listed[job]
    ensures Leads(s, DispatchItem(Begun(s), job, LineageError).s, false)
  {
    var s1 := AfterMark(s, job);
    var mine := MarkedItem(s.listed[job], s.nextOp);
    MarkReaches(s, job);
    RejectReaches(s1, job, mine, Parents(s, s.listed[job]));
    LeadsTrans(s, s1, Write(s1, job, mine.(status := ItemNeedsInput)).(dispatching := map[]), false);
  }

  lemma AbandonedReaches(s: State, job: JobId)
    requires Quiet(s) && Ready(s.listed, job) && EvidenceListed(s.listed, s.listed[job]) && job !in s.active
    requires job in s.items && s.items[job] == s.listed[job]
    ensures Leads(s, AfterMark(s, job).(dispatching := map[]), false)
  {
    var s1 := AfterMark(s, job);
    MarkReaches(s, job);
    AbandonReaches(s1, job);
    LeadsTrans(s, s1, s1.(dispatching := map[]), false);
  }

  lemma HeldReaches(s: State, job: JobId, a: AttemptId)
    requires Quiet(s) && Ready(s.listed, job) && EvidenceListed(s.listed, s.listed[job]) && job !in s.active
    requires job in s.items && s.items[job] == s.listed[job] && a !in s.attempts
    ensures Leads(s, AfterReserve(s, job, a), false)
  {
    MarkReaches(s, job);
    ReserveReaches(AfterMark(s, job), job, MarkedItem(s.listed[job], s.nextOp), Parents(s, s.listed[job]), a);
    LeadsTrans(s, AfterMark(s, job), AfterReserve(s, job, a), false);
  }

  /** The state right after the reservation. */
  function AfterReserve(s: State, job: JobId, a: AttemptId): State
    requires Ready(s.listed, job) && EvidenceListed(s.listed, s.listed[job])
  {
    var mine, parents := MarkedItem(s.listed[job], s.nextOp), Parents(s, s.listed[job]);
    AfterMark(s, job).(attempts := s.attempts[a := NewAttempt(job, mine.op, parents)],
                       dispatching := map[job := Held(mine, a)])
  }

  lemma ReservedReaches(s: State, job: JobId, a: AttemptId)
    requires Quiet(s) && Ready(s.listed, job) && EvidenceListed(s.listed, s.listed[job]) && job !in s.active
    requires job in s.items && s.items[job] == s.listed[job] && a !in s.attempts
    ensures Leads(s, DispatchItem(Begun(s), job, Reservation(a)).s, false)
  {
    var mine := MarkedItem(s.listed[job], s.nextOp);
    HeldReaches(s, job, a);
    var s2 := AfterReserve(s, job, a);
    BindReaches(s2, job, mine, a);
    var bound := Write(s2, job, mine.(status := Running, attempt := Some(a)));
    var s3 := bound.(dispatching := map[], active := s.active[job := Bound]);
    assert s3.items == s.items[job := BoundItem(s.listed[job], s.nextOp, a)];
    LeadsTrans(s, s2, s3, false);
  }

  lemma DispatchItemState(p: Pass, job: JobId, answer: Answer)
    requires Quiet(p.s) && Ready(p.s.listed, job)
    ensures DispatchItem(p, job, answer).s == DispatchItem(Begun(p.s), job, answer).s
    ensures Quiet(DispatchItem(p, job, answer).s)
  {
  }

  lemma DispatchItemReaches(p: Pass, job: JobId, answer: Answer)
    requires Quiet(p.s) && Ready(p.s.listed, job) && job !in p.s.active
    ensures Leads(p.s, DispatchItem(p, job, answer).s, false)
  {
    var s, item := p.s, p.s.listed[job];
    DispatchItemState(p, job, answer);
    if !EvidenceListed(s.listed, item) || !(job in s.items && s.items[job] == item) {
      LeadsSelf(s, false);
    } else {
      match answer
      case LineageError => RejectedReaches(s, job);
      case OtherError => AbandonedReaches(s, job);
      case Reservation(a) => if a in s.attempts { AbandonedReaches(s, job); } else { ReservedReaches(s, job, a); }
    }
  }

  lemma VisitReaches(p: Pass, job: JobId, ended: set<JobId>, answers: Answers, maxConcurrent: nat)
    requires Quiet(p.s)
    ensures var p' := Visit(p, job, ended, answers, maxConcurrent); Leads(p.s, p'.s, false) && Quiet(p'.s)
  {
    var p' := Visit(p, job, ended, answers, maxConcurrent);
    var s := p.s.(active := DropEnded(p.s.active, ended));
    var p1 := p.(s := s);
    if p'.s == p.s {
      LeadsSelf(p.s, false);
    } else {
      DropReaches(p.s, ended);
      var item := s.listed[job];
      if item.status != Queued || job in s.active {
      } else if FailedDependency(s.listed, item) {
        BlockReaches(p1, job);
        LeadsTrans(p.s, s, p'.s, false);
      } else if DependenciesCompleted(s.listed, item) && |s.active| < maxConcurrent {
        DispatchItemReaches(p1, job, answers(job));
        DispatchItemState(p1, job, answers(job));
        LeadsTrans(p.s, s, p'.s, false);
      }
    }
  }

  /** Every pass of a quiet dispatcher is a run of the protocol. */
  lemma {:induction false} PassReaches(s: State, order: seq<JobId>, ended: nat -> set<JobId>, answers: Answers,
                                       maxConcurrent: nat)
    requires Quiet(s)
    ensures var p := PassOver(s, order, ended, answers, maxConcurrent); Leads(s, p.s, false) && Quiet(p.s)
  {
    if order == [] {
      LeadsSelf(s, false);
    } else {
      var n := |order| - 1;
      PassReaches(s, order[..n], ended, answers, maxConcurrent);
      var p := PassOver(s, order[..n], ended, answers, maxConcurrent);
      VisitReaches(p, order[n], ended(n), answers, maxConcurrent);
      LeadsTrans(s, p.s, Visit(p, order[n], ended(n), answers, maxConcurrent).s, false);
    }
  }

  lemma PassOverStep(s: State, order: seq<JobId>, i: nat, ended: nat -> set<JobId>, answers: Answers,
                     maxConcurrent: nat)
    requires i < |order|
    ensures PassOver(s, order[..i + 1], ended, answers, maxConcurrent) ==
            Visit(PassOver(s, order[..i], ended, answers, maxConcurrent), order[i], ended(i), answers, maxConcurrent)
  {
    assert order[..i + 1][..i] == order[..i];
  }

  lemma {:induction false} PassOverStopped(s: State, order: seq<JobId>, k: nat, ended: nat -> set<JobId>,
                                           answers: Answers, maxConcurrent: nat)
    requires k <= |order| && PassOver(s, order[..k], ended, answers, maxConcurrent).progress != Going
    ensures PassOver(s, order, ended, answers, maxConcurrent) == PassOver(s, order[..k], ended, answers, maxConcurrent)
  {
    if k < |order| {
      assert order[..|order| - 1][..k] == order[..k];
      PassOverStopped(s, order[..|order| - 1], k, ended, answers, maxConcurrent);
    } else {
      assert order[..k] == order;
    }
  }
}
