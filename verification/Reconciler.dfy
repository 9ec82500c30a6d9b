/**
 The relation between queue items and attempts that the reconciler inspects, the repair actions it offers, and the
 proof that repairing ends with nothing left to report.
 */
module Reconciler {
  import opened Common
  import opened Completion

  type JobId = nat
  type OpId = nat
  type Artifacts = string

  datatype CleanupRecord = CleanupRecord(status: CleanupStatus, revision: nat)

  /** The completion stored in a queue item. */
  datatype Recorded = Recorded(result: Evidence, artifacts: Artifacts)

  datatype Item = Item(
    job: JobId, status: ItemStatus, op: Option<OpId>, attempt: Option<AttemptId>, completion: Option<Recorded>,
    revision: nat)

  /** An attempt with its cleanup record, `None` if that could not be read. */
  datatype Attempt = Attempt(
    id: AttemptId, job: JobId, op: Option<OpId>, status: AttemptStatus, verification: VerificationStatus,
    artifacts: Artifacts, revision: nat, cleanup: Option<CleanupRecord>)

  datatype World = World(items: seq<Item>, attempts: seq<Attempt>)

  datatype Lease =
    | Absent | RecoverableDeadLocal | ActiveLocal | ExpiredLiveLocal | ActiveRemote | Initializing | Unreadable

  predicate LeaseActive(lease: Lease) {
    lease in {ActiveLocal, ExpiredLiveLocal, ActiveRemote}
  }

  predicate OwnerCanAct(lease: Lease) {
    lease in {Absent, RecoverableDeadLocal}
  }

  /**
   A proposed repair.  It carries what its evidence token hashes: the records it was derived from.  Two proposals
   have the same token exactly if they are equal.
   */
  datatype Proposal =
    | ResetItem(item: Item)
    | QuarantineItem(item: Item)
    | BindItem(item: Item, attempt: Attempt)
    | SynchronizeItem(item: Item, attempt: Attempt, cleanup: CleanupRecord)
    | RecoverAttempt(attempt: Attempt, cleanup: CleanupRecord)

  datatype IssueKind =
    | ShapeInvalid | MissingIdentity | AmbiguousAttempts | CompletionMismatch | MissingAttempt | JobMismatch
    | OperationMismatch | TerminalItemOpenAttempt | ActiveItemEndedAttempt | OpenAttemptWithoutOwner
    | UnreferencedAttempt

  datatype Report = Report(kind: IssueKind, job: JobId, action: Option<Proposal>)

  // ----- inspection of one item -----

  /** The completion that an attempt projects to. */
  function Projection(attempt: Attempt, cleanup: CleanupRecord): Recorded {
    Recorded(Evidence(attempt.id, attempt.status, attempt.verification, cleanup.status), attempt.artifacts)
  }

  predicate QueueMatches(item: Item, attempt: Attempt, cleanup: CleanupRecord) {
    var expected := Projection(attempt, cleanup);
    item.status == ProjectStatus(expected.result) && item.attempt == Some(attempt.id)
        && item.completion == Some(expected)
  }

  function Synchronize(item: Item, attempt: Attempt): Option<Proposal> {
    match attempt.cleanup case None => None case Some(cleanup) => Some(SynchronizeItem(item, attempt, cleanup))
  }

  function Recover(attempt: Attempt): Option<Proposal> {
    match attempt.cleanup case None => None case Some(cleanup) => Some(RecoverAttempt(attempt, cleanup))
  }

  function Advance(item: Item, attempt: Attempt): Option<Proposal> {
    if AttemptTerminal(attempt.status) then Synchronize(item, attempt) else Some(BindItem(item, attempt))
  }

  predicate SameOperation(item: Item, attempt: Attempt) {
    item.op == attempt.op
  }

  /** The reports about an item, given the attempt it names and the attempts its operation reserved. */
  function Classify(item: Item, named: Option<Attempt>, matching: seq<Attempt>, lease: Lease): seq<Report> {
    var quarantine := Some(QuarantineItem(item));
    if item.status == Queued && (item.op.Some? || item.attempt.Some? || item.completion.Some?) then
      [Report(ShapeInvalid, item.job, Some(ResetItem(item)))]
    else if item.status == Dispatching && item.op.None? then [Report(ShapeInvalid, item.job, quarantine)]
    else if item.status in {Running, Cancelling} && item.attempt.None?
    then [Report(MissingIdentity, item.job, quarantine)]
    else if item.status == Dispatching && item.attempt.None? then
      if |matching| == 0 then [Report(MissingIdentity, item.job, Some(ResetItem(item)))]
      else if |matching| == 1 then [Report(ShapeInvalid, item.job, Advance(item, matching[0]))]
      else [Report(AmbiguousAttempts, item.job, quarantine)]
    else if item.attempt.None? then
      if item.status == ItemCompleted || item.completion.Some?
      then [Report(CompletionMismatch, item.job, quarantine)] else []
    else if named.None? then [Report(MissingAttempt, item.job, quarantine)]
    else ClassifyNamed(item, named.value, lease)
  }

  /** The reports about an item that names an existing attempt. */
  function ClassifyNamed(item: Item, attempt: Attempt, lease: Lease): seq<Report> {
    var quarantine := Some(QuarantineItem(item));
    var open := !AttemptTerminal(attempt.status);
    if attempt.job != item.job then [Report(JobMismatch, item.job, quarantine)]
    else if !SameOperation(item, attempt) then
      [Report(OperationMismatch, item.job, quarantine)]
      + (if ItemTerminal(item.status) && open then [Report(TerminalItemOpenAttempt, item.job, Recover(attempt))]
         else [])
    else if item.status == Dispatching then [Report(ShapeInvalid, item.job, Advance(item, attempt))]
    else if item.status in {Running, Cancelling} then
      if !open then [Report(ActiveItemEndedAttempt, item.job, Synchronize(item, attempt))]
      else if !LeaseActive(lease) then [Report(OpenAttemptWithoutOwner, item.job, Recover(attempt))]
      else []
    else if ItemTerminal(item.status) && open then [Report(TerminalItemOpenAttempt, item.job, Recover(attempt))]
    else if ItemTerminal(item.status) && attempt.cleanup.Some?
            && !QueueMatches(item, attempt, attempt.cleanup.value) then
      [Report(CompletionMismatch, item.job, Synchronize(item, attempt))]
    else []
  }

  /** The attempt that an item accounts for. */
  function Refers(item: Item, named: Option<Attempt>, matching: seq<Attempt>): Option<AttemptId> {
    if item.status == Queued && (item.op.Some? || item.attempt.Some? || item.completion.Some?) then None
    else if item.status == Dispatching && item.op.None? then None
    else if item.status in {Running, Cancelling} && item.attempt.None? then None
    else if item.status == Dispatching && item.attempt.None?
    then (if |matching| == 1 then Some(matching[0].id) else None)
    else if item.attempt.None? || named.None? then None
    else if named.value.job != item.job || !SameOperation(item, named.value) then None
    else Some(named.value.id)
  }

  // ----- inspection of a world -----

  function Find(attempts: seq<Attempt>, id: AttemptId): Option<Attempt> {
    if attempts == [] then None
    else if attempts[|attempts| - 1].id == id then Some(attempts[|attempts| - 1])
    else Find(attempts[..|attempts| - 1], id)
  }

  function Named(item: Item, attempts: seq<Attempt>): Option<Attempt> {
    if item.attempt.None? then None else Find(attempts, item.attempt.value)
  }

  function Matching(attempts: seq<Attempt>, job: JobId, op: OpId): seq<Attempt> {
    if attempts == [] then []
    else
      var before, a := Matching(attempts[..|attempts| - 1], job, op), attempts[|attempts| - 1];
      if a.job == job && a.op == Some(op) then before + [a] else before
  }

  function Reservations(item: Item, attempts: seq<Attempt>): seq<Attempt> {
    if item.op.None? then [] else Matching(attempts, item.job, item.op.value)
  }

  /** Actions are offered only when nobody owns the queue. */
  function Offer(reports: seq<Report>, lease: Lease): seq<Report> {
    seq(|reports|, i requires 0 <= i < |reports| =>
        if OwnerCanAct(lease) then reports[i] else reports[i].(action := None))
  }

  /** What is reported about an item, and the attempt it accounts for. */
  function ReportsOf(item: Item, attempts: seq<Attempt>, lease: Lease): seq<Report> {
    Offer(Classify(item, Named(item, attempts), Reservations(item, attempts), lease), lease)
  }

  function RefersOf(item: Item, attempts: seq<Attempt>): set<AttemptId> {
    match Refers(item, Named(item, attempts), Reservations(item, attempts))
    case None => {}
    case Some(id) => {id}
  }

  function ItemReports(items: seq<Item>, attempts: seq<Attempt>, lease: Lease): seq<Report> {
    if items == [] then []
    else ItemReports(items[..|items| - 1], attempts, lease) + ReportsOf(items[|items| - 1], attempts, lease)
  }

  function Referenced(items: seq<Item>, attempts: seq<Attempt>): set<AttemptId> {
    if items == [] then {}
    else Referenced(items[..|items| - 1], attempts) + RefersOf(items[|items| - 1], attempts)
  }

  function OrphanReports(attempts: seq<Attempt>, referenced: set<AttemptId>, lease: Lease): seq<Report> {
    if attempts == [] then []
    else
      var a := attempts[|attempts| - 1];
      OrphanReports(attempts[..|attempts| - 1], referenced, lease)
      + if AttemptTerminal(a.status) || a.id in referenced then []
          else Offer([Report(UnreferencedAttempt, a.job, Recover(a))], lease)
  }

  function Reports(w: World, lease: Lease): seq<Report> {
    ItemReports(w.items, w.attempts, lease) + OrphanReports(w.attempts, Referenced(w.items, w.attempts), lease)
  }

  /** The actions offered by a list of reports. */
  function Actions(reports: seq<Report>): set<Proposal> {
    set r | r in reports && r.action.Some? :: r.action.value
  }

  /** inspectQueueAttemptRelationships. */
  method Inspect(w: World, lease: Lease) returns (issues: seq<Report>, available: set<Proposal>)
    ensures issues == Reports(w, lease) && available == Actions(issues)
  {
    var referenced;
    issues, available, referenced := InspectItems(w, lease);
    var orphans, recoveries := InspectAttempts(w.attempts, referenced, lease);
    ActionsConcat(issues, orphans);
    issues, available := issues + orphans, available + recoveries;
  }

  /** The loop over the queue. */
  method InspectItems(w: World, lease: Lease)
    returns (issues: seq<Report>, available: set<Proposal>, referenced: set<AttemptId>)
    ensures issues == ItemReports(w.items, w.attempts, lease) && available == Actions(issues)
    ensures referenced == Referenced(w.items, w.attempts)
  {
    var byId, byOperation := Index(w.attempts);
    issues, available, referenced := [], {}, {};
    var i := 0;
    while i < |w.items|
      invariant 0 <= i <= |w.items|
      invariant issues == ItemReports(w.items[..i], w.attempts, lease) && available == Actions(issues)
      invariant referenced == Referenced(w.items[..i], w.attempts)
    {
      ItemReportsStep(w, i, lease);
      issues, available, referenced :=
        InspectItem(w.items[i], byId, byOperation, w.attempts, lease, issues, available, referenced);
      i := i + 1;
    }
    assert w.items[..i] == w.items;
  }

  lemma ItemReportsStep(w: World, i: nat, lease: Lease)
    requires i < |w.items|
    ensures ItemReports(w.items[..i + 1], w.attempts, lease) ==
            ItemReports(w.items[..i], w.attempts, lease) + ReportsOf(w.items[i], w.attempts, lease)
    ensures Referenced(w.items[..i + 1], w.attempts) ==
            Referenced(w.items[..i], w.attempts) + RefersOf(w.items[i], w.attempts)
  {
    assert w.items[..i + 1][..i] == w.items[..i];
  }

  /** One item, with the lookups in the two tables. */
  method InspectItem(item: Item, byId: map<AttemptId, Attempt>, byOperation: map<(JobId, OpId), seq<Attempt>>,
                     ghost attempts: seq<Attempt>, lease: Lease,
                     issues: seq<Report>, available: set<Proposal>, referenced: set<AttemptId>)
    returns (issues': seq<Report>, available': set<Proposal>, referenced': set<AttemptId>)
    requires Indexed(attempts, byId, byOperation) && available == Actions(issues)
    ensures issues' == issues + ReportsOf(item, attempts, lease) && available' == Actions(issues')
    ensures referenced' == referenced + RefersOf(item, attempts)
  {
    var named := if item.attempt.Some? && item.attempt.value in byId then Some(byId[item.attempt.value]) else None;
    var matching := if item.op.Some? && (item.job, item.op.value) in byOperation
        then byOperation[(item.job, item.op.value)] else [];
    issues', available' := Push(issues, available, Offer(Classify(item, named, matching, lease), lease));
    var refers := Refers(item, named, matching);
    referenced' := if refers.Some? then referenced + {refers.value} else referenced;
  }

  /** The loop over the attempts. */
  method InspectAttempts(attempts: seq<Attempt>, referenced: set<AttemptId>, lease: Lease)
    returns (issues: seq<Report>, available: set<Proposal>)
    ensures issues == OrphanReports(attempts, referenced, lease) && available == Actions(issues)
  {
    issues, available := [], {};
    var i := 0;
    while i < |attempts|
      invariant 0 <= i <= |attempts|
      invariant issues == OrphanReports(attempts[..i], referenced, lease) && available == Actions(issues)
    {
      var a := attempts[i];
      assert attempts[..i + 1][..i] == attempts[..i];
      if !AttemptTerminal(a.status) && a.id !in referenced {
        var found := Offer([Report(UnreferencedAttempt, a.job, Recover(a))], lease);
        issues, available := Push(issues, available, found);
      }
      i := i + 1;
    }
    assert attempts[..i] == attempts;
  }

  /** The `report` closure: files the reports and the actions they offer. */
  method Push(issues: seq<Report>, available: set<Proposal>, found: seq<Report>)
    returns (all: seq<Report>, offered: set<Proposal>)
    requires available == Actions(issues)
    ensures all == issues + found && offered == Actions(all)
  {
    ActionsConcat(issues, found);
    all, offered := issues + found, available + Actions(found);
  }

  lemma ActionsConcat(first: seq<Report>, second: seq<Report>)
    ensures Actions(first + second) == Actions(first) + Actions(second)
  {
  }

  ghost predicate Indexed(attempts: seq<Attempt>, byId: map<AttemptId, Attempt>,
                          byOperation: map<(JobId, OpId), seq<Attempt>>)
  {
    && (forall id: AttemptId :: Find(attempts, id) == if id in byId then Some(byId[id]) else None)
    && (forall job: JobId, op: OpId ::
          Matching(attempts, job, op) == if (job, op) in byOperation then byOperation[(job, op)] else [])
  }

  /** The two lookup tables of the inspection. */
  method Index(attempts: seq<Attempt>)
    returns (byId: map<AttemptId, Attempt>, byOperation: map<(JobId, OpId), seq<Attempt>>)
    ensures Indexed(attempts, byId, byOperation)
  {
    byId, byOperation := map[], map[];
    var i := 0;
    while i < |attempts|
      invariant 0 <= i <= |attempts|
      invariant Indexed(attempts[..i], byId, byOperation)
    {
      var a := attempts[i];
      assert attempts[..i + 1][..i] == attempts[..i];
      byId := byId[a.id := a];
      if a.op.Some? {
        var key := (a.job, a.op.value);
        byOperation := byOperation[key := (if key in byOperation then byOperation[key] else []) + [a]];
      }
      i := i + 1;
    }
    assert attempts[..i] == attempts;
  }
}
