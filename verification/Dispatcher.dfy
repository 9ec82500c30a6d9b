/**
 The dispatcher object's methods, which update the queue and the attempts one record at a time.  Each loop is proved
 equal to a function of the state it started from.
 */
module Dispatcher {
  import opened Common
  import opened Completion
  import opened Dispatch
  import opened DispatchPaths
  import opened StartupRecovery
  import opened DispatchPass
  import Cleanup
  import WorkspaceCleanup

  class Recoverer {
    var items: map<JobId, Item>
    var attempts: map<AttemptId, Attempt>
    const maxRetries: map<JobId, nat>
    ghost const nextOp: OpId
    ghost const retrying: map<JobId, Item>

    constructor (items: map<JobId, Item>, attempts: map<AttemptId, Attempt>, maxRetries: map<JobId, nat>,
                 ghost nextOp: OpId, ghost retrying: map<JobId, Item>)
      ensures this.items == items && this.attempts == attempts && this.maxRetries == maxRetries
      ensures this.nextOp == nextOp && this.retrying == retrying
    {
      this.items, this.attempts, this.maxRetries := items, attempts, maxRetries;
      this.nextOp, this.retrying := nextOp, retrying;
    }

    /** The protocol state: a restarted dispatcher has no volatile state; clients may be retrying items. */
    ghost function View(): State reads this {
      State(items, attempts, maxRetries, map[], map[], map[], {}, On, map[], map[], retrying, nextOp)
    }

    /** One queue update, through the transition check of the store. */
    method Update(job: JobId, next: Item)
      requires job in items && ItemMay(items[job].status, next.status)
      modifies this`items
      ensures View() == Write(old(View()), job, next)
    {
      items := items[job := next.(revision := items[job].revision + 1)];
    }

    /** What recovery of an attempt with these records has found. */
    ghost function FoundBy(f: WorkspaceCleanup.Finalizer): Finding reads f {
      if f.status == Failed then Ends(f.record.status) else Stays(f.record.status)
    }

    /**
     recoverInterruptedAttempt over the attempt's own records: the findings that recovery is specified with are those
     that the cleanup evidence gives.
     */
    method RecoverFromEvidence(a: AttemptId, f: WorkspaceCleanup.Finalizer, world: WorkspaceCleanup.World)
      returns (verdict: WorkspaceCleanup.Verdict)
      requires a in attempts && f.Valid()
      requires attempts[a].status == f.status && attempts[a].verification == f.verification
      requires attempts[a].cleanup == f.record.status
      modifies this`attempts, f
      ensures f.Valid() && View() == EndAttempt(old(View()), a, FoundBy(f))
      ensures attempts[a].status == f.status && attempts[a].verification == f.verification
      ensures attempts[a].cleanup == f.record.status
      ensures DispositionOf(old(attempts[a]), FoundBy(f)) ==
              match verdict
              case Terminal => WasTerminal
              case SafeToRetry => SafeToRetryNow
              case _ => Unresolved
    {
      StatusCases(f.status);
      verdict := f.RecoverInterruptedAttempt(world);
      Cleanup.ProvenMeansAll(f.record.requirements, f.record.evidence);
      attempts := attempts[a := attempts[a].(status := f.status, verification := f.verification,
                                             cleanup := f.record.status)];
    }

    /** recoverInterruptedAttempt, by what it finds. */
    method RecoverInterruptedAttempt(a: AttemptId, finding: Finding) returns (disposition: Disposition)
      requires a in attempts
      modifies this`attempts
      ensures View() == EndAttempt(old(View()), a, finding)
      ensures disposition == DispositionOf(old(attempts[a]), finding)
    {
      var attempt := attempts[a];
      if AttemptTerminal(attempt.status) {
        assert attempts == attempts[a := attempt];
        return WasTerminal;
      }
      if attempt.status in {Reserved, Claimed} {
        attempts := attempts[a := attempt.(status := Cancelled, verification := Ineligible)];
        return SafeToRetryNow;
      }
      attempt := attempt.(cleanup := finding.cleanup);
      attempts := attempts[a := attempt];
      if finding.Stays? { return Unresolved; }
      attempts := attempts[a := attempt.(status := Failed, verification := Ineligible)];
      disposition := if CleanupSafe(finding.cleanup) then SafeToRetryNow else Unresolved;
    }

    /** One running or cancelling item. */
    method SettleItem(job: JobId, findings: Findings)
      requires ActiveItem(View(), job) && job in maxRetries
      requires items[job].attempt.Some? ==> items[job].attempt.value in attempts
      modifies this`items, this`attempts
      ensures View() == SettleStep(old(View()), job, findings)
    {
      var item := items[job];
      if item.attempt.None? {
        Update(job, item.(status := ItemNeedsInput));
        return;
      }
      var a := item.attempt.value;
      var manifest := attempts[a];
      if AttemptTerminal(manifest.status) {
        var result := Evidence(a, manifest.status, manifest.verification, manifest.cleanup);
        ProjectionMeaning(result);
        Update(job, Projected(item, result));
        return;
      }
      var disposition := RecoverInterruptedAttempt(a, findings(a));
      Update(job, Settled(item, disposition, maxRetries[job]));
    }

    method BindDispatching(order: seq<JobId>, byOperation: Grouping)
      requires Lists(order, items.Keys)
      modifies this`items
      ensures View() == BindAll(old(View()), order, byOperation)
    {
      var i := 0;
      while i < |order|
        invariant 0 <= i <= |order| && items.Keys == old(items.Keys)
        invariant View() == BindAll(old(View()), order[..i], byOperation)
      {
        var job := order[i];
        assert order[..i + 1][..i] == order[..i];
        assert job in order;
        if items[job].status == Dispatching {
          Update(job, Rebound(items[job], Reservations(byOperation, job, items[job])));
        }
        i := i + 1;
      }
      assert order[..i] == order;
    }

    method SettleActive(order: seq<JobId>, findings: Findings)
      requires Readable(View()) && Lists(order, items.Keys)
      modifies this`items, this`attempts
      ensures View() == SettleAll(old(View()), order, findings)
    {
      var i := 0;
      while i < |order|
        invariant 0 <= i <= |order| && items.Keys == old(items.Keys) && Readable(View())
        invariant View() == SettleAll(old(View()), order[..i], findings)
      {
        var job := order[i];
        assert order[..i + 1][..i] == order[..i];
        assert job in order;
        SettleStepReadable(View(), job, findings);
        if items[job].status in {Running, Cancelling} {
          SettleItem(job, findings);
        }
        i := i + 1;
      }
      assert order[..i] == order;
    }

    method RecoverOrphans(listing: seq<AttemptId>, listed: map<AttemptId, Attempt>, findings: Findings)
      requires Lists(listing, listed.Keys) && attempts.Keys == listed.Keys
      modifies this`attempts
      ensures View() == EndOrphans(old(View()), listing, listed, Referenced(items), findings)
    {
      var referenced := Referenced(items);
      var i := 0;
      while i < |listing|
        invariant 0 <= i <= |listing| && attempts.Keys == listed.Keys
        invariant View() == EndOrphans(old(View()), listing[..i], listed, referenced, findings)
      {
        var a := listing[i];
        EndOrphansStep(old(View()), listing, i, listed, referenced, findings);
        assert a in listing;
        if !AttemptTerminal(listed[a].status) && a !in referenced {
          var _ := RecoverInterruptedAttempt(a, findings(a));
        }
        i := i + 1;
      }
      assert listing[..i] == listing;
    }

    /**
     recoverInterruptedItems, given the queue and attempt listings and what the conductor finds for each attempt.
     From any readable state it takes only steps of the protocol and leaves no item dispatching, running or
     cancelling.
     */
    method RecoverInterruptedItems(order: seq<JobId>, listing: seq<AttemptId>, findings: Findings)
      returns (ghost byOperation: Grouping)
      requires Readable(View()) && Lists(order, items.Keys) && Lists(listing, attempts.Keys)
      modifies this`items, this`attempts
      ensures Readable(View()) && Leads(old(View()), View(), false) && items.Keys == old(items.Keys)
      ensures forall job :: job in items ==> !Interrupted(items[job])
      ensures forall job :: job in items && !Interrupted(old(items)[job]) ==> items[job] == old(items)[job]
      ensures Advances(old(attempts), attempts, findings)
      ensures forall a :: a in attempts && a !in Referenced(items) ==>
                attempts[a] == Recovered(old(attempts)[a], findings(a))
      ensures Groups(byOperation, old(attempts), listing)
      ensures View() == RecoverAll(old(View()), order, listing, byOperation, findings)
    {
      var listed := attempts;
      var grouped := GroupAttempts(attempts, listing);
      byOperation := grouped;
      RecoveryRuns(View(), order, listing, byOperation, findings,
                   RecoverAll(View(), order, listing, byOperation, findings));
      BindAllRuns(View(), order, byOperation, listing);
      BindAllEffect(View(), order, byOperation);
      BindDispatching(order, grouped);
      SettleAllRuns(View(), order, findings);
      SettleActive(order, findings);
      RecoverOrphans(listing, listed, findings);
    }
  }

  /** The first loop of recovery: groups the listed attempts by dispatch operation. */
  method GroupAttempts(attempts: map<AttemptId, Attempt>, listing: seq<AttemptId>) returns (byOperation: Grouping)
    requires Lists(listing, attempts.Keys)
    ensures Groups(byOperation, attempts, listing)
  {
    byOperation := map[];
    var i := 0;
    while i < |listing|
      invariant 0 <= i <= |listing|
      invariant Groups(byOperation, attempts, listing[..i])
    {
      var a := listing[i];
      assert listing[..i + 1] == listing[..i] + [a] && a !in listing[..i];
      if attempts[a].op.Some? {
        byOperation := AddToGroup(byOperation, attempts, listing[..i], a);
      }
      i := i + 1;
    }
    assert listing[..i] == listing;
  }

  method AddToGroup(byOperation: Grouping, attempts: map<AttemptId, Attempt>, ghost before: seq<AttemptId>,
                    a: AttemptId)
    returns (after: Grouping)
    requires Groups(byOperation, attempts, before) && a in attempts && attempts[a].op.Some? && a !in before
    ensures Groups(after, attempts, before + [a])
  {
    var key := (attempts[a].job, attempts[a].op.value);
    var matching := if key in byOperation then byOperation[key] else [];
    after := byOperation[key := matching + [a]];
    forall b | b in before + [a] && b in attempts && attempts[b].op.Some?
      ensures Grouped(after, b, attempts[b].job, attempts[b].op.value)
    {
      assert b == a || Grouped(byOperation, b, attempts[b].job, attempts[b].op.value);
    }
  }

  class QueueDispatcher {
    var items: map<JobId, Item>
    var attempts: map<AttemptId, Attempt>
    var active: map<JobId, Execution>
    var nextOp: OpId
    const maxConcurrent: nat
    const maxRetries: map<JobId, nat>
    ghost const executing: set<AttemptId>
    ghost const retrying: map<JobId, Item>

    constructor (items: map<JobId, Item>, attempts: map<AttemptId, Attempt>, active: map<JobId, Execution>,
                 nextOp: OpId, maxConcurrent: nat, maxRetries: map<JobId, nat>, ghost executing: set<AttemptId>,
                 ghost retrying: map<JobId, Item>)
      ensures this.items == items && this.attempts == attempts && this.active == active && this.nextOp == nextOp
      ensures this.maxConcurrent == maxConcurrent && this.maxRetries == maxRetries && this.executing == executing
              && this.retrying == retrying
    {
      this.items, this.attempts, this.active, this.nextOp := items, attempts, active, nextOp;
      this.maxConcurrent, this.maxRetries := maxConcurrent, maxRetries;
      this.executing, this.retrying := executing, retrying;
    }

    /** The protocol state of a running dispatcher that last listed the queue as `listed`. */
    ghost function View(listed: map<JobId, Item>): State reads this {
      State(items, attempts, maxRetries, listed, map[], active, executing, Off, map[], map[], retrying, nextOp)
    }

    /** The attempts that completed an item's dependencies, unless one was completed without. */
    static method ListedParents(listed: map<JobId, Item>, item: Item, ghost s: State)
      returns (parents: Option<seq<AttemptId>>)
      requires s.listed == listed && DependenciesCompleted(listed, item)
      ensures parents.Some? <==> EvidenceListed(listed, item)
      ensures parents.Some? ==> DependenciesListed(s, item) && parents.value == Parents(s, item)
    {
      if exists i :: 0 <= i < |item.dependsOn| && listed[item.dependsOn[i]].completion.None? { return None; }
      return Some(seq(|item.dependsOn|, i requires 0 <= i < |item.dependsOn| =>
                      listed[item.dependsOn[i]].completion.value.attempt));
    }

    /** The part of a pass that dispatches one ready item; false means that an error was thrown. */
    method DispatchReady(listed: map<JobId, Item>, job: JobId, answer: Answer, ghost p: Pass)
      returns (handled: bool, bound: bool)
      requires p.s == View(listed) && Ready(listed, job) && p.progress == Going
      modifies this
      ensures View(listed) == DispatchItem(p, job, answer).s
      ensures handled <==> DispatchItem(p, job, answer).progress == Going
      ensures bound <==> DispatchItem(p, job, answer).dispatched == p.dispatched + 1
    {
      var item := listed[job];
      var found := ListedParents(listed, item, p.s);
      if found.None? || job !in items || items[job] != item { return false, false; }
      var parents := found.value;
      var op := nextOp;
      nextOp := nextOp + 1;
      items := items[job := MarkedItem(item, op)];
      match answer
      case OtherError => return false, false;
      case LineageError =>
        items := items[job := items[job].(status := ItemNeedsInput, revision := items[job].revision + 1)];
        return true, false;
      case Reservation(a) =>
        if a in attempts { return false, false; }
        attempts := attempts[a := NewAttempt(job, Some(op), parents)];
        items := items[job := items[job].(status := Running, attempt := Some(a), revision := items[job].revision + 1)];
        active := active[job := Bound];
        return true, true;
    }

    /** The part of a pass that blocks an item with a failed dependency; false means that an error was thrown. */
    method BlockListed(listed: map<JobId, Item>, job: JobId, ghost p: Pass) returns (ok: bool)
      requires p.s == View(listed) && job in listed && p.progress == Going
      modifies this`items
      ensures View(listed) == BlockItem(p, job).s
      ensures ok <==> BlockItem(p, job).progress == Going
    {
      if job !in items || items[job] != listed[job] { return false; }
      items := items[job := listed[job].(status := ItemNeedsInput, revision := listed[job].revision + 1)];
      return true;
    }

    /** One round of the pass. */
    method Round(listed: map<JobId, Item>, job: JobId, ended: set<JobId>, answers: Answers, ghost p: Pass)
      returns (progress: Progress, handled: bool, bound: bool)
      requires p.s == View(listed) && job in listed && p.progress == Going
      modifies this
      ensures var p' := Visit(p, job, ended, answers, maxConcurrent);
              && View(listed) == p'.s && progress == p'.progress
              && p'.handled == (if handled then p.handled + [job] else p.handled)
              && p'.dispatched == (if bound then p.dispatched + 1 else p.dispatched)
    {
      progress, handled, bound := Going, false, false;
      active := DropEnded(active, ended);
      ghost var p1 := p.(s := View(listed));
      var item := listed[job];
      if item.status != Queued || job in active { return; }
      if FailedDependency(listed, item) {
        var ok := BlockListed(listed, job, p1);
        return if ok then Going else Threw, false, false;
      }
      if !DependenciesCompleted(listed, item) { return; }
      if |active| >= maxConcurrent { return Full, false, false; }
      DispatchItemRecord(p1, job, answers(job));
      handled, bound := DispatchReady(listed, job, answers(job), p1);
      progress := if handled then Going else Threw;
    }

    /** The loop of a pass. */
    method PassLoop(listed: map<JobId, Item>, order: seq<JobId>, ended: nat -> set<JobId>, answers: Answers)
      returns (dispatched: nat, handled: seq<JobId>, progress: Progress)
      requires forall job :: job in order ==> job in listed
      modifies this
      ensures var p := PassOver(old(View(listed)), order, ended, answers, maxConcurrent);
              p.s == View(listed) && p.handled == handled && p.dispatched == dispatched && p.progress == progress
    {
      ghost var s := View(listed);
      ghost var p := PassOver(s, [], ended, answers, maxConcurrent);
      dispatched, handled, progress := 0, [], Going;
      var i := 0;
      while i < |order| && progress == Going
        invariant 0 <= i <= |order| && p == PassOver(s, order[..i], ended, answers, maxConcurrent)
        invariant p.s == View(listed) && p.handled == handled && p.dispatched == dispatched && p.progress == progress
      {
        var job := order[i];
        assert job in order;
        var done, bound;
        progress, done, bound := Round(listed, job, ended(i), answers, p);
        PassOverStep(s, order, i, ended, answers, maxConcurrent);
        p := Visit(p, job, ended(i), answers, maxConcurrent);
        if done { handled := handled + [job]; }
        if bound { dispatched := dispatched + 1; }
        i := i + 1;
      }
      if progress != Going { PassOverStopped(s, order, i, ended, answers, maxConcurrent); }
      else { assert order[..i] == order; }
    }

    /**
     dispatchAvailable, given the queue order, the executions that end before each round and the conductor's
     answers.  Its effect is a run of the protocol; the items it handled are a prefix of the eligible ones, all of
     them unless it threw or ran out of capacity; items with a failed dependency are handed to their owner, every other
     item stays as it was; and the number of active executions stays within the limit.
     */
    method DispatchAvailable(order: seq<JobId>, ended: nat -> set<JobId>, answers: Answers)
      returns (dispatched: nat, handled: seq<JobId>, error: bool, ghost skipped: set<JobId>, ghost progress: Progress)
      requires Lists(order, items.Keys) && |active| <= maxConcurrent
      modifies this
      ensures Leads(old(View(items)), View(old(items)), false)
      ensures |active| <= maxConcurrent
      ensures IsPrefix(handled, EligibleJobs(old(items), order, skipped)) && skipped <= old(active.Keys)
      ensures progress == Going <==> handled == EligibleJobs(old(items), order, skipped)
      ensures (error <==> progress == Threw) && (progress == Full ==> |active| == maxConcurrent)
      ensures forall job :: job in old(items) ==>
                ItemAfter(old(items), items, order, handled, skipped, progress, answers, job)
      ensures progress == Going ==>
                forall job :: MustBlock(old(items), job) && job !in old(active) ==>
                  job in items && items[job] == Blocked(old(items)[job])
      ensures AttemptsAfter(old(attempts), attempts, handled, answers)
      ensures forall job :: job in handled ==> HandledOk(View(old(items)), job, answers(job))
      ensures dispatched == CountBound(handled, answers)
    {
      ghost var p := PassOver(View(items), order, ended, answers, maxConcurrent);
      PassReaches(View(items), order, ended, answers, maxConcurrent);
      PassHandlesPrefix(View(items), order, ended, answers, maxConcurrent, p);
      PassAccounts(View(items), order, ended, answers, maxConcurrent);
      PassSettlesItems(View(items), order, ended, answers, maxConcurrent, p);
      var stopped;
      dispatched, handled, stopped := PassLoop(items, order, ended, answers);
      error := stopped == Threw;
      skipped, progress := p.skipped, stopped;
    }
  }

  lemma DispatchItemRecord(p: Pass, job: JobId, answer: Answer)
    requires Ready(p.s.listed, job) && p.progress == Going
    ensures var p' := DispatchItem(p, job, answer);
            && p'.progress in {Going, Threw}
            && (p'.dispatched == p.dispatched || p'.dispatched == p.dispatched + 1)
            && p'.handled == if p'.progress == Going then p.handled + [job] else p.handled
  {
  }
}
