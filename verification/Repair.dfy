/**
 Applying the reconciler's repairs: every offered action passes the queue store's check and lowers a measure, so any
 sequence of repairs ends, and where it cannot go on there is nothing left to report.
 */
module Repair {
  import opened Common
  import opened Completion
  import opened Reconciler

  // ----- effects -----

  /** The queue record that an action writes over the item it was derived from. */
  function Patched(p: Proposal): Item
    requires !p.RecoverAttempt?
  {
    var next := match p
      case ResetItem(item) => item.(status := Queued, op := None, attempt := None, completion := None)
      case QuarantineItem(item) => item.(status := ItemNeedsInput, op := None, attempt := None, completion := None)
      case BindItem(item, attempt) => item.(status := Running, attempt := Some(attempt.id), completion := None)
      case SynchronizeItem(item, attempt, cleanup) =>
        var projection := Projection(attempt, cleanup);
        item.(status := ProjectStatus(projection.result), attempt := Some(attempt.id), completion := Some(projection));
    next.(revision := p.item.revision + 1)
  }

  /** The queue store's check of a reconciliation transition. */
  predicate StoreAllows(p: Proposal, current: Item, next: Item) {
    var cleared := next.op.None? && next.attempt.None? && next.completion.None?;
    match p
    case ResetItem(_) => current.status in {Queued, Dispatching} && next.status == Queued && cleared
    case QuarantineItem(_) => next.status == ItemNeedsInput && cleared
    case BindItem(_, _) =>
      current.status == Dispatching && next.status == Running && next.op.Some? && next.attempt.Some?
          && next.completion.None?
    case SynchronizeItem(_, _, _) =>
      ItemTerminal(next.status) && next.attempt.Some? && next.completion.Some?
      && Some(next.completion.value.result.attempt) == next.attempt
    case RecoverAttempt(_, _) => true
  }

  /** How the recovery of an attempt ended. */
  datatype Outcome = Outcome(status: AttemptStatus, verification: VerificationStatus, cleanup: CleanupRecord)

  function WithItem(items: seq<Item>, next: Item): seq<Item> {
    seq(|items|, i requires 0 <= i < |items| => if items[i].job == next.job then next else items[i])
  }

  function Ended(a: Attempt, o: Outcome): Attempt {
    a.(status := o.status, verification := o.verification, cleanup := Some(o.cleanup), revision := a.revision + 1)
  }

  function WithEnded(attempts: seq<Attempt>, id: AttemptId, o: Outcome): seq<Attempt> {
    seq(|attempts|, i requires 0 <= i < |attempts| =>
        if attempts[i].id == id then Ended(attempts[i], o) else attempts[i])
  }

  /** executeRuntimeAction. */
  function Perform(w: World, p: Proposal, o: Outcome): World {
    if p.RecoverAttempt? then w.(attempts := WithEnded(w.attempts, p.attempt.id, o))
    else w.(items := WithItem(w.items, Patched(p)))
  }

  // ----- the measure -----

  /** A finished item that agrees with its attempt, or that names none and claims nothing. */
  predicate Settled(item: Item, attempts: seq<Attempt>) {
    if item.attempt.None? then item.completion.None? && item.status != ItemCompleted
    else
      var named := Find(attempts, item.attempt.value);
      && named.Some? && named.value.job == item.job && SameOperation(item, named.value)
      && AttemptTerminal(named.value.status)
      && named.value.cleanup.Some? && QueueMatches(item, named.value, named.value.cleanup.value)
  }

  function Weight(item: Item, attempts: seq<Attempt>): nat {
    match item.status
    case Queued => if item.op.None? && item.attempt.None? && item.completion.None? then 0 else 1
    case Dispatching => 3
    case Running => 2
    case Cancelling => 2
    case _ => if Settled(item, attempts) then 0 else 1
  }

  function ItemsWeight(items: seq<Item>, attempts: seq<Attempt>): nat {
    if items == [] then 0 else ItemsWeight(items[..|items| - 1], attempts) + Weight(items[|items| - 1], attempts)
  }

  function OpenAttempts(attempts: seq<Attempt>): nat {
    if attempts == [] then 0
    else OpenAttempts(attempts[..|attempts| - 1]) + if AttemptTerminal(attempts[|attempts| - 1].status) then 0 else 1
  }

  function Measure(w: World): nat {
    ItemsWeight(w.items, w.attempts) + OpenAttempts(w.attempts)
  }

  /** Listings without repetition, and every cleanup record readable. */
  predicate WellFormed(w: World) {
    && (forall i, j :: 0 <= i < j < |w.items| ==> w.items[i].job != w.items[j].job)
    && (forall i, j :: 0 <= i < j < |w.attempts| ==> w.attempts[i].id != w.attempts[j].id)
    && (forall i :: 0 <= i < |w.attempts| ==> w.attempts[i].cleanup.Some?)
  }

  // ----- lookups -----

  lemma {:induction false} FindIs(attempts: seq<Attempt>, id: AttemptId)
    ensures match Find(attempts, id)
            case None => forall i :: 0 <= i < |attempts| ==> attempts[i].id != id
            case Some(a) => a in attempts && a.id == id
  {
    if attempts != [] { FindIs(attempts[..|attempts| - 1], id); }
  }

  lemma {:induction false} FindUnique(attempts: seq<Attempt>, k: nat)
    requires k < |attempts| && forall i, j :: 0 <= i < j < |attempts| ==> attempts[i].id != attempts[j].id
    ensures Find(attempts, attempts[k].id) == Some(attempts[k])
  {
    if k < |attempts| - 1 { FindUnique(attempts[..|attempts| - 1], k); }
  }

  lemma {:induction false} MatchingIs(attempts: seq<Attempt>, job: JobId, op: OpId)
    ensures forall a :: a in Matching(attempts, job, op) ==> a in attempts && a.job == job && a.op == Some(op)
  {
    if attempts != [] { MatchingIs(attempts[..|attempts| - 1], job, op); }
  }

  // ----- what is offered -----

  /** The proposal fits the world: it was derived from an item and an attempt in it that belong together. */
  predicate Derived(p: Proposal, w: World) {
    match p
    case ResetItem(item) => item in w.items && item.status in {Queued, Dispatching} && Weight(item, w.attempts) > 0
    case QuarantineItem(item) => item in w.items && Weight(item, w.attempts) > 0
    case BindItem(item, attempt) =>
      item in w.items && attempt in w.attempts && item.status == Dispatching && item.op.Some?
    case SynchronizeItem(item, attempt, cleanup) =>
      && item in w.items && attempt in w.attempts && Weight(item, w.attempts) > 0
      && attempt.job == item.job && SameOperation(item, attempt) && AttemptTerminal(attempt.status)
      && attempt.cleanup == Some(cleanup)
    case RecoverAttempt(attempt, cleanup) => attempt in w.attempts && !AttemptTerminal(attempt.status)
  }

  predicate ReportOk(r: Report, w: World) {
    r.action.Some? && Derived(r.action.value, w)
  }

  lemma ClassifyNamedOk(w: World, item: Item, attempt: Attempt)
    requires WellFormed(w) && item in w.items && attempt in w.attempts && item.attempt == Some(attempt.id)
    requires Find(w.attempts, attempt.id) == Some(attempt) && item.status != Queued
    requires item.status == Dispatching ==> item.op.Some?
    ensures forall r :: r in ClassifyNamed(item, attempt, Absent) ==> ReportOk(r, w)
    ensures ClassifyNamed(item, attempt, Absent) == [] ==>
              Weight(item, w.attempts) == 0 && AttemptTerminal(attempt.status)
    ensures Weight(item, w.attempts) == 0 ==> ClassifyNamed(item, attempt, Absent) == []
  {
    assert attempt.cleanup.Some?;
  }

  /**
   With no owner and readable records, every report offers an action, and there is a report exactly if the item
   weighs.
   */
  lemma ClassifyOk(w: World, item: Item)
    requires WellFormed(w) && item in w.items
    ensures var reports := Classify(item, Named(item, w.attempts), Reservations(item, w.attempts), Absent);
            && (forall r :: r in reports ==> ReportOk(r, w))
            && (reports == [] <==> Weight(item, w.attempts) == 0)
  {
    var named, matching := Named(item, w.attempts), Reservations(item, w.attempts);
    if item.attempt.Some? {
      FindIs(w.attempts, item.attempt.value);
      if item.status != Queued && !(item.status == Dispatching && item.op.None?) && named.Some? {
        ClassifyNamedOk(w, item, named.value);
      }
    } else if item.status == Dispatching && item.op.Some? && |matching| == 1 {
      MatchingIs(w.attempts, item.job, item.op.value);
      assert matching[0] in matching;
    }
  }

  lemma OfferAll(reports: seq<Report>)
    ensures Offer(reports, Absent) == reports
  {
  }

  lemma {:induction false} ItemReportsOk(w: World, items: seq<Item>)
    requires WellFormed(w) && forall item :: item in items ==> item in w.items
    ensures forall r :: r in ItemReports(items, w.attempts, Absent) ==> ReportOk(r, w)
    ensures ItemReports(items, w.attempts, Absent) == [] <==> ItemsWeight(items, w.attempts) == 0
  {
    if items != [] {
      var item := items[|items| - 1];
      ItemReportsOk(w, items[..|items| - 1]);
      ClassifyOk(w, item);
      OfferAll(Classify(item, Named(item, w.attempts), Reservations(item, w.attempts), Absent));
    }
  }

  lemma {:induction false} OrphanReportsOk(w: World, attempts: seq<Attempt>, referenced: set<AttemptId>)
    requires WellFormed(w) && forall a :: a in attempts ==> a in w.attempts
    ensures forall r :: r in OrphanReports(attempts, referenced, Absent) ==> ReportOk(r, w)
    ensures OpenAttempts(attempts) == 0 ==> OrphanReports(attempts, referenced, Absent) == []
    ensures OrphanReports(attempts, referenced, Absent) == [] ==>
              forall a :: a in attempts && !AttemptTerminal(a.status) ==> a.id in referenced
  {
    if attempts != [] {
      var a := attempts[|attempts| - 1];
      OrphanReportsOk(w, attempts[..|attempts| - 1], referenced);
      OfferAll([Report(UnreferencedAttempt, a.job, Recover(a))]);
      assert a in w.attempts && a.cleanup.Some?;
    }
  }

  /** Every offered action fits the world, and every report offers one. */
  lemma ReportsOk(w: World)
    requires WellFormed(w)
    ensures forall r :: r in Reports(w, Absent) ==> ReportOk(r, w)
  {
    ItemReportsOk(w, w.items);
    OrphanReportsOk(w, w.attempts, Referenced(w.items, w.attempts));
  }

  /** An item that weighs nothing accounts for no unfinished attempt. */
  lemma {:induction false} WeightlessRefersToEnded(w: World, items: seq<Item>, a: Attempt)
    requires WellFormed(w) && (forall item :: item in items ==> item in w.items) && ItemsWeight(items, w.attempts) == 0
    requires a in w.attempts && a.id in Referenced(items, w.attempts)
    ensures AttemptTerminal(a.status)
  {
    var item := items[|items| - 1];
    var refers := Refers(item, Named(item, w.attempts), Reservations(item, w.attempts));
    if refers == Some(a.id) {
      var k :| 0 <= k < |w.attempts| && w.attempts[k] == a;
      FindUnique(w.attempts, k);
      FindIs(w.attempts, item.attempt.value);
    } else {
      WeightlessRefersToEnded(w, items[..|items| - 1], a);
    }
  }

  lemma {:induction false} NoneOpen(attempts: seq<Attempt>)
    requires forall a :: a in attempts ==> AttemptTerminal(a.status)
    ensures OpenAttempts(attempts) == 0
  {
    if attempts != [] { NoneOpen(attempts[..|attempts| - 1]); }
  }

  /** There is nothing to report exactly when the measure is zero. */
  lemma NoReportsIffZero(w: World)
    requires WellFormed(w)
    ensures Reports(w, Absent) == [] <==> Measure(w) == 0
  {
    var referenced := Referenced(w.items, w.attempts);
    ItemReportsOk(w, w.items);
    OrphanReportsOk(w, w.attempts, referenced);
    if Reports(w, Absent) == [] {
      forall a | a in w.attempts ensures AttemptTerminal(a.status) {
        if !AttemptTerminal(a.status) { WeightlessRefersToEnded(w, w.items, a); }
      }
      NoneOpen(w.attempts);
    }
  }

  // ----- every repair is accepted and lowers the measure -----

  lemma PatchedIsLighter(w: World, p: Proposal)
    requires WellFormed(w) && Derived(p, w) && !p.RecoverAttempt?
    ensures StoreAllows(p, p.item, Patched(p))
    ensures Patched(p).job == p.item.job && Weight(Patched(p), w.attempts) < Weight(p.item, w.attempts)
  {
    if p.SynchronizeItem? {
      var k :| 0 <= k < |w.attempts| && w.attempts[k] == p.attempt;
      FindUnique(w.attempts, k);
      ProjectionMeaning(Projection(p.attempt, p.cleanup).result);
    }
  }

  lemma {:induction false} SumReplaced(items: seq<Item>, attempts: seq<Attempt>, k: nat, next: Item)
    requires k < |items|
    ensures ItemsWeight(items[k := next], attempts) + Weight(items[k], attempts) ==
            ItemsWeight(items, attempts) + Weight(next, attempts)
  {
    var n := |items| - 1;
    if k < n {
      SumReplaced(items[..n], attempts, k, next);
      assert items[k := next][..n] == items[..n][k := next];
    } else {
      assert items[k := next][..n] == items[..n];
    }
  }

  lemma ItemRepairLowers(w: World, p: Proposal)
    requires WellFormed(w) && Derived(p, w) && !p.RecoverAttempt?
    ensures var w' := w.(items := WithItem(w.items, Patched(p))); WellFormed(w') && Measure(w') < Measure(w)
  {
    PatchedIsLighter(w, p);
    var k :| 0 <= k < |w.items| && w.items[k] == p.item;
    assert WithItem(w.items, Patched(p)) == w.items[k := Patched(p)];
    SumReplaced(w.items, w.attempts, k, Patched(p));
  }

  lemma {:induction false} OpenReplaced(attempts: seq<Attempt>, k: nat, next: Attempt)
    requires k < |attempts| && !AttemptTerminal(attempts[k].status) && AttemptTerminal(next.status)
    ensures OpenAttempts(attempts[k := next]) + 1 == OpenAttempts(attempts)
  {
    var n := |attempts| - 1;
    if k < n {
      OpenReplaced(attempts[..n], k, next);
      assert attempts[k := next][..n] == attempts[..n][k := next];
    } else {
      assert attempts[k := next][..n] == attempts[..n];
    }
  }

  lemma {:induction false} FindReplaced(attempts: seq<Attempt>, k: nat, next: Attempt, id: AttemptId)
    requires k < |attempts| && next.id == attempts[k].id
    ensures id != next.id ==> Find(attempts[k := next], id) == Find(attempts, id)
  {
    var n := |attempts| - 1;
    if k < n {
      assert attempts[k := next][..n] == attempts[..n][k := next];
      FindReplaced(attempts[..n], k, next, id);
    } else {
      assert attempts[k := next][..n] == attempts[..n];
    }
  }

  /** Ending an attempt makes no item heavier: an item that agreed with it would have had it ended already. */
  lemma EndingIsNoHeavier(w: World, k: nat, next: Attempt, item: Item)
    requires WellFormed(w) && k < |w.attempts| && !AttemptTerminal(w.attempts[k].status) && next.id == w.attempts[k].id
    ensures Weight(item, w.attempts[k := next]) <= Weight(item, w.attempts)
  {
    if item.attempt.Some? {
      FindReplaced(w.attempts, k, next, item.attempt.value);
      FindUnique(w.attempts, k);
    }
  }

  lemma {:induction false} SumNoHeavier(w: World, k: nat, next: Attempt, items: seq<Item>)
    requires WellFormed(w) && k < |w.attempts| && !AttemptTerminal(w.attempts[k].status) && next.id == w.attempts[k].id
    ensures ItemsWeight(items, w.attempts[k := next]) <= ItemsWeight(items, w.attempts)
  {
    if items != [] {
      SumNoHeavier(w, k, next, items[..|items| - 1]);
      EndingIsNoHeavier(w, k, next, items[|items| - 1]);
    }
  }

  lemma RecoveryLowers(w: World, a: Attempt, o: Outcome)
    requires WellFormed(w) && a in w.attempts && !AttemptTerminal(a.status) && AttemptTerminal(o.status)
    ensures var w' := w.(attempts := WithEnded(w.attempts, a.id, o)); WellFormed(w') && Measure(w') < Measure(w)
  {
    var k :| 0 <= k < |w.attempts| && w.attempts[k] == a;
    var next := Ended(a, o);
    assert WithEnded(w.attempts, a.id, o) == w.attempts[k := next];
    OpenReplaced(w.attempts, k, next);
    SumNoHeavier(w, k, next, w.items);
  }

  /**
   Every offered action passes the queue store's check; performing it, with the attempt ended if it is a recovery,
   keeps the world well formed and lowers the measure.
   */
  lemma RepairAcceptedAndLowers(w: World, p: Proposal, o: Outcome)
    requires WellFormed(w) && p in Actions(Reports(w, Absent)) && AttemptTerminal(o.status)
    ensures !p.RecoverAttempt? ==> p.item in w.items && StoreAllows(p, p.item, Patched(p))
    ensures WellFormed(Perform(w, p, o)) && Measure(Perform(w, p, o)) < Measure(w)
  {
    ReportsOk(w);
    assert Derived(p, w);
    if p.RecoverAttempt? { RecoveryLowers(w, p.attempt, o); }
    else { PatchedIsLighter(w, p); ItemRepairLowers(w, p); }
  }

  // ----- sequences of repairs -----

  datatype Step = Step(action: Proposal, outcome: Outcome)

  function Performed(w: World, steps: seq<Step>): World {
    if steps == [] then w
    else
      var last := steps[|steps| - 1];
      Perform(Performed(w, steps[..|steps| - 1]), last.action, last.outcome)
  }

  /** Every step performs an action that was offered at that moment, and every recovery ends its attempt. */
  predicate Repairs(w: World, steps: seq<Step>) {
    forall i :: 0 <= i < |steps| ==>
      steps[i].action in Actions(Reports(Performed(w, steps[..i]), Absent)) && AttemptTerminal(steps[i].outcome.status)
  }

  lemma {:induction false} RepairsLower(w: World, steps: seq<Step>)
    requires WellFormed(w) && Repairs(w, steps)
    ensures WellFormed(Performed(w, steps)) && Measure(Performed(w, steps)) + |steps| <= Measure(w)
  {
    if steps != [] {
      var n := |steps| - 1;
      forall i | 0 <= i < n
        ensures steps[..n][i].action in Actions(Reports(Performed(w, steps[..n][..i]), Absent))
             && AttemptTerminal(steps[..n][i].outcome.status)
      {
        assert steps[..n][..i] == steps[..i];
      }
      RepairsLower(w, steps[..n]);
      RepairAcceptedAndLowers(Performed(w, steps[..n]), steps[n].action, steps[n].outcome);
    }
  }

  /**
   However the owner chooses among the offered repairs: no sequence is longer than the measure of the world it
   starts from, and a sequence that no offered action can extend has left nothing to report.
   */
  lemma RepairingEnds(w: World, steps: seq<Step>)
    requires WellFormed(w) && Repairs(w, steps)
    ensures |steps| <= Measure(w)
    ensures Actions(Reports(Performed(w, steps), Absent)) == {} ==> Reports(Performed(w, steps), Absent) == []
    ensures |steps| == Measure(w) ==> Reports(Performed(w, steps), Absent) == []
  {
    RepairsLower(w, steps);
    var last := Performed(w, steps);
    NoReportsIffZero(last);
    ReportsOk(last);
    var reports := Reports(last, Absent);
    if reports != [] {
      assert reports[0] in reports && ReportOk(reports[0], last);
      assert reports[0].action.value in Actions(reports);
    }
  }
}
