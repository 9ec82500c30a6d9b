/**
 Which issues the reconciler reports and which repairs it offers, stated from the queue items, the recorded attempts and
 the lease alone.
 */
module Offers {
  import opened Common
  import opened Completion
  import opened Reconciler
  import opened Repair

  predicate DistinctIds(attempts: seq<Attempt>) {
    forall i, j :: 0 <= i < j < |attempts| ==> attempts[i].id != attempts[j].id
  }

  predicate DistinctJobs(items: seq<Item>) {
    forall i, j :: 0 <= i < j < |items| ==> items[i].job != items[j].job
  }

  // ----- situations -----

  /** A queued item that still carries something of an earlier dispatch. */
  predicate Leftovers(item: Item) {
    item.status == Queued && (item.op.Some? || item.attempt.Some? || item.completion.Some?)
  }

  /** A dispatching item whose operation is unknown. */
  predicate Unidentified(item: Item) {
    item.status == Dispatching && item.op.None?
  }

  predicate Active(item: Item) {
    item.status in {Running, Cancelling}
  }

  /** A dispatching item that is to be bound to what its operation reserved. */
  predicate Unbound(item: Item) {
    item.status == Dispatching && item.op.Some? && item.attempt.None?
  }

  predicate ReservedFor(item: Item, a: Attempt) {
    item.op.Some? && a.job == item.job && a.op == item.op
  }

  /** The item names an attempt, and its status is one in which it may. */
  predicate Names(item: Item, id: AttemptId) {
    item.attempt == Some(id) && item.status != Queued && !Unidentified(item)
  }

  /** The attempt that the item accounts for: the one it names, or the only one that its operation reserved. */
  predicate Accounts(item: Item, attempts: seq<Attempt>, a: Attempt) {
    && a in attempts && a.job == item.job && a.op == item.op
    && (|| Names(item, a.id)
        || (Unbound(item) && forall b :: b in attempts && ReservedFor(item, b) ==> b == a))
  }

  predicate Open(a: Attempt) {
    !AttemptTerminal(a.status)
  }

  predicate NothingReserved(item: Item, attempts: seq<Attempt>) {
    forall a :: a in attempts ==> !ReservedFor(item, a)
  }

  predicate SeveralReserved(item: Item, attempts: seq<Attempt>) {
    exists a, b :: a in attempts && b in attempts && a != b && ReservedFor(item, a) && ReservedFor(item, b)
  }

  // ----- which repair each situation calls for -----

  /** Back to queued: leftovers, or a dispatch that reserved nothing. */
  predicate ResetDue(item: Item, attempts: seq<Attempt>) {
    Leftovers(item) || (Unbound(item) && NothingReserved(item, attempts))
  }

  /** To its owner: the item's identity is missing, ambiguous or foreign, or claims a completion without an attempt. */
  predicate QuarantineDue(item: Item, attempts: seq<Attempt>) {
    || Unidentified(item)
    || (Active(item) && item.attempt.None?)
    || (Unbound(item) && SeveralReserved(item, attempts))
    || (ItemTerminal(item.status) && item.attempt.None? && (item.status == ItemCompleted || item.completion.Some?))
    || (item.attempt.Some? && Names(item, item.attempt.value)
        && forall a :: a in attempts && a.id == item.attempt.value ==> a.job != item.job || a.op != item.op)
  }

  /** On to running: a dispatching item with the open attempt of its operation. */
  predicate BindDue(item: Item, attempts: seq<Attempt>, a: Attempt) {
    item.status == Dispatching && Accounts(item, attempts, a) && Open(a)
  }

  /** The projection of a finished attempt, which the item lacks. */
  predicate SynchronizeDue(item: Item, attempts: seq<Attempt>, a: Attempt, cleanup: CleanupRecord) {
    && Accounts(item, attempts, a) && !Open(a) && a.cleanup == Some(cleanup)
    && (ItemTerminal(item.status) ==>
          !(&& item.status == ProjectStatus(Evidence(a.id, a.status, a.verification, cleanup.status))
            && item.completion == Some(Recorded(Evidence(a.id, a.status, a.verification, cleanup.status),
                                                a.artifacts))))
  }

  /** Recovery: an open attempt that nobody runs, unless a dispatching item is to be bound to it. */
  predicate RecoverDue(w: World, a: Attempt, cleanup: CleanupRecord) {
    && a in w.attempts && Open(a) && a.cleanup == Some(cleanup)
    && !exists item :: item in w.items && BindDue(item, w.attempts, a)
  }

  predicate Due(p: Proposal, w: World) {
    match p
    case ResetItem(item) => item in w.items && ResetDue(item, w.attempts)
    case QuarantineItem(item) => item in w.items && QuarantineDue(item, w.attempts)
    case BindItem(item, a) => item in w.items && BindDue(item, w.attempts, a)
    case SynchronizeItem(item, a, cleanup) => item in w.items && SynchronizeDue(item, w.attempts, a, cleanup)
    case RecoverAttempt(a, cleanup) => RecoverDue(w, a, cleanup)
  }

  /** Which issue each situation is. */
  predicate IssueDue(kind: IssueKind, item: Item, attempts: seq<Attempt>, lease: Lease) {
    match kind
    case ShapeInvalid =>
      || Leftovers(item) || Unidentified(item)
      || (item.status == Dispatching && exists a :: a in attempts && Accounts(item, attempts, a))
    case MissingIdentity =>
      (Active(item) && item.attempt.None?) || (Unbound(item) && NothingReserved(item, attempts))
    case AmbiguousAttempts => Unbound(item) && SeveralReserved(item, attempts)
    case MissingAttempt =>
      item.attempt.Some? && Names(item, item.attempt.value) && forall a :: a in attempts ==> a.id != item.attempt.value
    case JobMismatch => exists a :: a in attempts && Names(item, a.id) && a.job != item.job
    case OperationMismatch => exists a :: a in attempts && Names(item, a.id) && a.job == item.job && a.op != item.op
    case TerminalItemOpenAttempt =>
      ItemTerminal(item.status) && exists a :: a in attempts && Names(item, a.id) && a.job == item.job && Open(a)
    case ActiveItemEndedAttempt =>
      Active(item) && exists a :: a in attempts && Accounts(item, attempts, a) && !Open(a)
    case OpenAttemptWithoutOwner =>
      Active(item) && !LeaseActive(lease) && exists a :: a in attempts && Accounts(item, attempts, a) && Open(a)
    case CompletionMismatch =>
      ItemTerminal(item.status)
      && (|| (item.attempt.None? && (item.status == ItemCompleted || item.completion.Some?))
          || exists a :: a in attempts && a.cleanup.Some? && SynchronizeDue(item, attempts, a, a.cleanup.value))
    case UnreferencedAttempt => false
  }

  // ----- lookups -----

  lemma FoundIff(attempts: seq<Attempt>, id: AttemptId)
    requires DistinctIds(attempts)
    ensures forall a :: a in attempts && a.id == id <==> Find(attempts, id) == Some(a)
  {
    FindIs(attempts, id);
    forall a | a in attempts && a.id == id ensures Find(attempts, id) == Some(a) {
      var k :| 0 <= k < |attempts| && attempts[k] == a;
      FindUnique(attempts, k);
    }
  }

  lemma {:induction false} MatchingAll(attempts: seq<Attempt>, job: JobId, op: OpId)
    requires DistinctIds(attempts)
    ensures var m := Matching(attempts, job, op);
            && (forall a :: a in m <==> a in attempts && a.job == job && a.op == Some(op))
            && (forall i, j :: 0 <= i < j < |m| ==> m[i] != m[j])
  {
    if attempts != [] {
      var rest, last := attempts[..|attempts| - 1], attempts[|attempts| - 1];
      MatchingAll(rest, job, op);
      assert attempts == rest + [last];
      assert forall k :: 0 <= k < |rest| ==> rest[k] == attempts[k] && rest[k] != last;
    }
  }

  /** How many attempts an unbound item's operation reserved. */
  lemma ReservedCount(item: Item, attempts: seq<Attempt>)
    requires DistinctIds(attempts) && item.op.Some?
    ensures var m := Reservations(item, attempts);
            && (|m| == 0 <==> NothingReserved(item, attempts))
            && (|m| > 1 <==> SeveralReserved(item, attempts))
            && (|m| == 1 ==> m[0] in attempts && ReservedFor(item, m[0])
                             && forall b :: b in attempts && ReservedFor(item, b) ==> b == m[0])
  {
    var m := Reservations(item, attempts);
    MatchingAll(attempts, item.job, item.op.value);
    if |m| > 0 { assert m[0] in m; }
    if |m| > 1 { assert m[1] in m && m[0] != m[1]; }
    if SeveralReserved(item, attempts) {
      var a, b :| a in attempts && b in attempts && a != b && ReservedFor(item, a) && ReservedFor(item, b);
      assert a in m && b in m;
    }
  }

  lemma AccountsUnbound(item: Item, attempts: seq<Attempt>, a: Attempt)
    requires DistinctIds(attempts) && Unbound(item)
    ensures Accounts(item, attempts, a) <==> Reservations(item, attempts) == [a]
  {
    ReservedCount(item, attempts);
    if Accounts(item, attempts, a) { assert ReservedFor(item, a); }
  }

  // ----- one item -----

  /** What the reports about one item offer. */
  predicate ItemOffers(p: Proposal, item: Item, attempts: seq<Attempt>, lease: Lease) {
    match p
    case ResetItem(i) => i == item && ResetDue(item, attempts)
    case QuarantineItem(i) => i == item && QuarantineDue(item, attempts)
    case BindItem(i, a) => i == item && BindDue(item, attempts, a)
    case SynchronizeItem(i, a, cleanup) => i == item && SynchronizeDue(item, attempts, a, cleanup)
    case RecoverAttempt(a, cleanup) => RecoverForItem(item, attempts, lease, a, cleanup)
  }

  /** The open attempt of an active item without an owner, or one that a finished item names. */
  predicate RecoverForItem(item: Item, attempts: seq<Attempt>, lease: Lease, a: Attempt, cleanup: CleanupRecord) {
    && a in attempts && Open(a) && a.cleanup == Some(cleanup) && Names(item, a.id) && a.job == item.job
    && (ItemTerminal(item.status) || (Active(item) && a.op == item.op && !LeaseActive(lease)))
  }

  predicate Offered(reports: seq<Report>, p: Proposal) {
    exists i :: 0 <= i < |reports| && reports[i].action == Some(p)
  }

  predicate Reported(reports: seq<Report>, kind: IssueKind) {
    exists i :: 0 <= i < |reports| && reports[i].kind == kind
  }

  lemma OneReport(r: Report, p: Proposal, kind: IssueKind)
    ensures Offered([r], p) <==> r.action == Some(p)
    ensures Reported([r], kind) <==> r.kind == kind
  {
    assert [r][0] == r;
  }

  lemma TwoReports(first: Report, second: Report, p: Proposal, kind: IssueKind)
    ensures Offered([first] + [second], p) <==> first.action == Some(p) || second.action == Some(p)
    ensures Reported([first] + [second], kind) <==> first.kind == kind || second.kind == kind
  {
    var both := [first] + [second];
    assert both[0] == first && both[1] == second;
  }

  function About(item: Item, attempts: seq<Attempt>, lease: Lease): seq<Report> {
    Classify(item, Named(item, attempts), Reservations(item, attempts), lease)
  }

  /** The reports offer what the item's situation calls for. */
  predicate RightOffers(reports: seq<Report>, item: Item, attempts: seq<Attempt>, lease: Lease, p: Proposal) {
    Offered(reports, p) <==> ItemOffers(p, item, attempts, lease)
  }

  /** The reports name the issues that the item's situation is. */
  predicate RightIssues(reports: seq<Report>, item: Item, attempts: seq<Attempt>, lease: Lease, kind: IssueKind) {
    Reported(reports, kind) <==> IssueDue(kind, item, attempts, lease)
  }

  // ----- an unbound dispatching item -----

  lemma UnboundReserved(item: Item, attempts: seq<Attempt>)
    requires DistinctIds(attempts) && Unbound(item)
    ensures var m := Reservations(item, attempts);
            && (|m| == 0 <==> NothingReserved(item, attempts)) && (|m| > 1 <==> SeveralReserved(item, attempts))
            && (forall a :: Accounts(item, attempts, a) <==> m == [a])
            && (|m| == 1 ==> m == [m[0]] && m[0] in attempts)
  {
    ReservedCount(item, attempts);
    forall a ensures Accounts(item, attempts, a) <==> Reservations(item, attempts) == [a] {
      AccountsUnbound(item, attempts, a);
    }
  }

  lemma UnboundReport(item: Item, attempts: seq<Attempt>, lease: Lease) returns (r: Report)
    requires Unbound(item)
    ensures About(item, attempts, lease) == [r]
    ensures var m := Reservations(item, attempts);
            if |m| == 0 then r == Report(MissingIdentity, item.job, Some(ResetItem(item)))
            else if |m| == 1 then r == Report(ShapeInvalid, item.job, Advance(item, m[0]))
            else r == Report(AmbiguousAttempts, item.job, Some(QuarantineItem(item)))
  {
    r := About(item, attempts, lease)[0];
  }

  lemma UnboundOffers(item: Item, attempts: seq<Attempt>, lease: Lease, p: Proposal)
    requires DistinctIds(attempts) && Unbound(item)
    ensures RightOffers(About(item, attempts, lease), item, attempts, lease, p)
  {
    var r := UnboundReport(item, attempts, lease);
    UnboundReserved(item, attempts);
    OneReport(r, p, r.kind);
    var m := Reservations(item, attempts);
    match p
    case ResetItem(_) =>
    case QuarantineItem(_) =>
    case BindItem(i, a) => assert BindDue(item, attempts, a) <==> m == [a] && Open(a);
    case SynchronizeItem(i, a, cleanup) =>
      assert SynchronizeDue(item, attempts, a, cleanup) <==> m == [a] && !Open(a) && a.cleanup == Some(cleanup);
    case RecoverAttempt(a, cleanup) => assert !RecoverForItem(item, attempts, lease, a, cleanup);
  }

  lemma UnboundIssues(item: Item, attempts: seq<Attempt>, lease: Lease, kind: IssueKind)
    requires DistinctIds(attempts) && Unbound(item)
    ensures RightIssues(About(item, attempts, lease), item, attempts, lease, kind)
  {
    var r := UnboundReport(item, attempts, lease);
    UnboundReserved(item, attempts);
    OneReport(r, QuarantineItem(item), kind);
  }

  // ----- an item that names no attempt, or may not -----

  predicate Unnamed(item: Item) {
    !Unbound(item) && (item.attempt.None? || item.status == Queued || Unidentified(item))
  }

  lemma UnnamedReport(item: Item, attempts: seq<Attempt>, lease: Lease)
    requires Unnamed(item)
    ensures var quarantine := Some(QuarantineItem(item));
            About(item, attempts, lease) ==
            if Leftovers(item) then [Report(ShapeInvalid, item.job, Some(ResetItem(item)))]
            else if Unidentified(item) then [Report(ShapeInvalid, item.job, quarantine)]
            else if Active(item) then [Report(MissingIdentity, item.job, quarantine)]
            else if item.status == ItemCompleted || item.completion.Some? then
              [Report(CompletionMismatch, item.job, quarantine)]
            else []
  {
  }

  lemma UnnamedOffers(item: Item, attempts: seq<Attempt>, lease: Lease, p: Proposal)
    requires Unnamed(item)
    ensures RightOffers(About(item, attempts, lease), item, attempts, lease, p)
  {
    UnnamedReport(item, attempts, lease);
    forall a: Attempt ensures !Accounts(item, attempts, a) && !Names(item, a.id) {}
    if About(item, attempts, lease) != [] { OneReport(About(item, attempts, lease)[0], p, ShapeInvalid); }
  }

  lemma UnnamedIssues(item: Item, attempts: seq<Attempt>, lease: Lease, kind: IssueKind)
    requires Unnamed(item)
    ensures RightIssues(About(item, attempts, lease), item, attempts, lease, kind)
  {
    UnnamedReport(item, attempts, lease);
    forall a: Attempt ensures !Accounts(item, attempts, a) && !Names(item, a.id) {}
    if About(item, attempts, lease) != [] { OneReport(About(item, attempts, lease)[0], ResetItem(item), kind); }
  }

  // ----- an item that names an attempt -----

  lemma MissingReports(item: Item, attempts: seq<Attempt>, lease: Lease, p: Proposal, kind: IssueKind)
    requires DistinctIds(attempts) && item.attempt.Some? && Names(item, item.attempt.value)
    requires Find(attempts, item.attempt.value).None?
    ensures RightOffers(About(item, attempts, lease), item, attempts, lease, p)
    ensures RightIssues(About(item, attempts, lease), item, attempts, lease, kind)
  {
    FindIs(attempts, item.attempt.value);
    OneReport(Report(MissingAttempt, item.job, Some(QuarantineItem(item))), p, kind);
  }

  /** What the named attempt makes of every clause about the attempts. */
  lemma NamedFacts(item: Item, attempts: seq<Attempt>, a: Attempt)
    requires DistinctIds(attempts) && Names(item, a.id) && Find(attempts, a.id) == Some(a)
    ensures a in attempts
    ensures forall b :: b in attempts && Names(item, b.id) <==> b == a
    ensures forall b :: Accounts(item, attempts, b) <==> b == a && a.job == item.job && a.op == item.op
  {
    FoundIff(attempts, a.id);
  }

  lemma ForeignReport(item: Item, a: Attempt, lease: Lease, p: Proposal, kind: IssueKind)
    requires Names(item, a.id) && (a.job != item.job || a.op != item.op)
    ensures var reports := ClassifyNamed(item, a, lease);
            var both := a.job == item.job && ItemTerminal(item.status) && Open(a);
            && (Offered(reports, p) <==> p == QuarantineItem(item) || (both && Recover(a) == Some(p)))
            && (Reported(reports, kind) <==> (kind == if a.job != item.job then JobMismatch else OperationMismatch)
                                             || (both && kind == TerminalItemOpenAttempt))
  {
    OneReport(Report(JobMismatch, item.job, Some(QuarantineItem(item))), p, kind);
    var first := Report(OperationMismatch, item.job, Some(QuarantineItem(item)));
    OneReport(first, p, kind);
    assert [first] + [] == [first];
    TwoReports(first, Report(TerminalItemOpenAttempt, item.job, Recover(a)), p, kind);
  }

  lemma ForeignOffers(item: Item, attempts: seq<Attempt>, lease: Lease, a: Attempt, p: Proposal)
    requires DistinctIds(attempts) && Names(item, a.id) && Find(attempts, a.id) == Some(a)
    requires a.job != item.job || a.op != item.op
    ensures RightOffers(ClassifyNamed(item, a, lease), item, attempts, lease, p)
  {
    NamedFacts(item, attempts, a);
    ForeignReport(item, a, lease, p, JobMismatch);
  }

  lemma ForeignIssues(item: Item, attempts: seq<Attempt>, lease: Lease, a: Attempt, kind: IssueKind)
    requires DistinctIds(attempts) && Names(item, a.id) && Find(attempts, a.id) == Some(a)
    requires a.job != item.job || a.op != item.op
    ensures RightIssues(ClassifyNamed(item, a, lease), item, attempts, lease, kind)
  {
    NamedFacts(item, attempts, a);
    ForeignReport(item, a, lease, QuarantineItem(item), kind);
  }

  /** The item's own attempt. */
  predicate Owns(item: Item, attempts: seq<Attempt>, a: Attempt) {
    Names(item, a.id) && Find(attempts, a.id) == Some(a) && a.job == item.job && a.op == item.op
  }

  lemma OwnOffers(item: Item, attempts: seq<Attempt>, lease: Lease, a: Attempt, p: Proposal)
    requires DistinctIds(attempts) && Owns(item, attempts, a)
    ensures RightOffers(ClassifyNamed(item, a, lease), item, attempts, lease, p)
  {
    NamedFacts(item, attempts, a);
    assert Accounts(item, attempts, a);
    if ClassifyNamed(item, a, lease) != [] { OneReport(ClassifyNamed(item, a, lease)[0], p, ShapeInvalid); }
  }

  lemma OwnIssues(item: Item, attempts: seq<Attempt>, lease: Lease, a: Attempt, kind: IssueKind)
    requires DistinctIds(attempts) && Owns(item, attempts, a)
    ensures RightIssues(ClassifyNamed(item, a, lease), item, attempts, lease, kind)
  {
    NamedFacts(item, attempts, a);
    assert Accounts(item, attempts, a);
    if ClassifyNamed(item, a, lease) != [] { OneReport(ClassifyNamed(item, a, lease)[0], ResetItem(item), kind); }
  }

  // ----- every item -----

  /** The reports about an item offer and name exactly what its situation calls for. */
  lemma ItemReportsRight(item: Item, attempts: seq<Attempt>, lease: Lease, p: Proposal, kind: IssueKind)
    requires DistinctIds(attempts)
    ensures RightOffers(About(item, attempts, lease), item, attempts, lease, p)
    ensures RightIssues(About(item, attempts, lease), item, attempts, lease, kind)
  {
    if Unbound(item) {
      UnboundOffers(item, attempts, lease, p);
      UnboundIssues(item, attempts, lease, kind);
    } else if Unnamed(item) {
      UnnamedOffers(item, attempts, lease, p);
      UnnamedIssues(item, attempts, lease, kind);
    } else {
      FindIs(attempts, item.attempt.value);
      match Find(attempts, item.attempt.value)
      case None => MissingReports(item, attempts, lease, p, kind);
      case Some(a) =>
        if a.job == item.job && a.op == item.op {
          OwnOffers(item, attempts, lease, a, p);
          OwnIssues(item, attempts, lease, a, kind);
        } else {
          ForeignOffers(item, attempts, lease, a, p);
          ForeignIssues(item, attempts, lease, a, kind);
        }
    }
  }

  // ----- lists of reports -----

  predicate ReportedFor(reports: seq<Report>, kind: IssueKind, job: JobId) {
    exists i :: 0 <= i < |reports| && reports[i].kind == kind && reports[i].job == job
  }

  lemma Together(first: seq<Report>, second: seq<Report>, p: Proposal, kind: IssueKind, job: JobId)
    ensures Offered(first + second, p) <==> Offered(first, p) || Offered(second, p)
    ensures ReportedFor(first + second, kind, job) <==> ReportedFor(first, kind, job) || ReportedFor(second, kind, job)
  {
    var both := first + second;
    assert forall i :: 0 <= i < |first| ==> both[i] == first[i];
    assert forall i :: 0 <= i < |second| ==> both[|first| + i] == second[i];
  }

  /** An owner that cannot be displaced is offered nothing; the issues are the same. */
  lemma OfferFilters(reports: seq<Report>, lease: Lease, p: Proposal, kind: IssueKind, job: JobId)
    ensures Offered(Offer(reports, lease), p) <==> OwnerCanAct(lease) && Offered(reports, p)
    ensures ReportedFor(Offer(reports, lease), kind, job) <==> ReportedFor(reports, kind, job)
  {
    var offer := Offer(reports, lease);
    assert forall i :: 0 <= i < |reports| ==> offer[i].kind == reports[i].kind && offer[i].job == reports[i].job;
  }

  lemma AboutItsJob(item: Item, attempts: seq<Attempt>, lease: Lease, kind: IssueKind, job: JobId)
    ensures ReportedFor(About(item, attempts, lease), kind, job) <==>
              job == item.job && Reported(About(item, attempts, lease), kind)
  {
    assert forall i :: 0 <= i < |About(item, attempts, lease)| ==> About(item, attempts, lease)[i].job == item.job;
  }

  lemma {:induction false} ItemsRight(items: seq<Item>, attempts: seq<Attempt>, lease: Lease, p: Proposal,
                                      kind: IssueKind, job: JobId)
    requires DistinctIds(attempts)
    ensures var reports := ItemReports(items, attempts, lease);
            && (Offered(reports, p) <==>
                  OwnerCanAct(lease) && exists item :: item in items && ItemOffers(p, item, attempts, lease))
            && (ReportedFor(reports, kind, job) <==>
                  exists item :: item in items && item.job == job && IssueDue(kind, item, attempts, lease))
  {
    if items != [] {
      var rest, last := items[..|items| - 1], items[|items| - 1];
      ItemsRight(rest, attempts, lease, p, kind, job);
      assert items == rest + [last];
      ItemReportsRight(last, attempts, lease, p, kind);
      AboutItsJob(last, attempts, lease, kind, job);
      OfferFilters(About(last, attempts, lease), lease, p, kind, job);
      Together(ItemReports(rest, attempts, lease), ReportsOf(last, attempts, lease), p, kind, job);
    }
  }

  predicate OrphanFor(attempts: seq<Attempt>, referenced: set<AttemptId>, p: Proposal) {
    exists a :: a in attempts && Open(a) && a.id !in referenced && Recover(a) == Some(p)
  }

  predicate OrphanOf(attempts: seq<Attempt>, referenced: set<AttemptId>, job: JobId) {
    exists a :: a in attempts && Open(a) && a.id !in referenced && a.job == job
  }

  lemma OrphansMore(rest: seq<Attempt>, last: Attempt, referenced: set<AttemptId>, p: Proposal, job: JobId)
    ensures OrphanFor(rest + [last], referenced, p) <==>
              OrphanFor(rest, referenced, p) || (Open(last) && last.id !in referenced && Recover(last) == Some(p))
    ensures OrphanOf(rest + [last], referenced, job) <==>
              OrphanOf(rest, referenced, job) || (Open(last) && last.id !in referenced && last.job == job)
  {
  }

  /** What the loop over the attempts reports. */
  lemma {:induction false} OrphansRight(attempts: seq<Attempt>, referenced: set<AttemptId>, lease: Lease, p: Proposal,
                                        kind: IssueKind, job: JobId)
    ensures var reports := OrphanReports(attempts, referenced, lease);
            && (Offered(reports, p) <==> OwnerCanAct(lease) && OrphanFor(attempts, referenced, p))
            && (ReportedFor(reports, kind, job) <==> kind == UnreferencedAttempt && OrphanOf(attempts, referenced, job))
  {
    if attempts != [] {
      var rest, last := attempts[..|attempts| - 1], attempts[|attempts| - 1];
      OrphansRight(rest, referenced, lease, p, kind, job);
      assert attempts == rest + [last];
      var own := OrphanReport(last, referenced, lease);
      assert OrphanReports(attempts, referenced, lease) == OrphanReports(rest, referenced, lease) + own;
      OrphanRight(last, referenced, lease, p, kind, job);
      OrphansMore(rest, last, referenced, p, job);
      Together(OrphanReports(rest, referenced, lease), own, p, kind, job);
    }
  }

  function OrphanReport(a: Attempt, referenced: set<AttemptId>, lease: Lease): seq<Report> {
    if AttemptTerminal(a.status) || a.id in referenced then []
    else Offer([Report(UnreferencedAttempt, a.job, Recover(a))], lease)
  }

  lemma OrphanRight(a: Attempt, referenced: set<AttemptId>, lease: Lease, p: Proposal, kind: IssueKind, job: JobId)
    ensures var reports, orphan := OrphanReport(a, referenced, lease), Open(a) && a.id !in referenced;
            && (Offered(reports, p) <==> OwnerCanAct(lease) && orphan && Recover(a) == Some(p))
            && (ReportedFor(reports, kind, job) <==> kind == UnreferencedAttempt && orphan && a.job == job)
  {
    var r := Report(UnreferencedAttempt, a.job, Recover(a));
    assert [r][0] == r;
    OfferFilters([r], lease, p, kind, job);
  }

  // ----- which attempts are accounted for -----

  predicate Accounted(items: seq<Item>, attempts: seq<Attempt>, a: Attempt) {
    exists item :: item in items && Accounts(item, attempts, a)
  }

  lemma RefersIffAccounts(item: Item, attempts: seq<Attempt>, a: Attempt)
    requires DistinctIds(attempts) && a in attempts
    ensures a.id in RefersOf(item, attempts) <==> Accounts(item, attempts, a)
  {
    if Unbound(item) {
      UnboundReserved(item, attempts);
      var m := Reservations(item, attempts);
      if |m| == 1 {
        FoundIff(attempts, a.id);
        assert Find(attempts, a.id) == Some(a);
        if m[0].id == a.id { assert Find(attempts, a.id) == Some(m[0]); }
      }
    } else if !Unnamed(item) {
      FoundIff(attempts, item.attempt.value);
      FoundIff(attempts, a.id);
    }
  }

  lemma {:induction false} ReferencedIffAccounted(items: seq<Item>, attempts: seq<Attempt>, a: Attempt)
    requires DistinctIds(attempts) && a in attempts
    ensures a.id in Referenced(items, attempts) <==> Accounted(items, attempts, a)
  {
    if items != [] {
      var rest, last := items[..|items| - 1], items[|items| - 1];
      ReferencedIffAccounted(rest, attempts, a);
      RefersIffAccounts(last, attempts, a);
      assert items == rest + [last];
    }
  }

  // ----- the whole inspection -----

  /** An open attempt is recovered through an item that it is over for, or because no item accounts for it. */
  lemma RecoverIffDue(w: World, lease: Lease, a: Attempt, cleanup: CleanupRecord)
    requires DistinctIds(w.attempts) && DistinctJobs(w.items) && OwnerCanAct(lease)
    ensures RecoverDue(w, a, cleanup) <==>
              || (exists item :: item in w.items && RecoverForItem(item, w.attempts, lease, a, cleanup))
              || (a in w.attempts && Open(a) && a.cleanup == Some(cleanup) && !Accounted(w.items, w.attempts, a))
  {
    if RecoverDue(w, a, cleanup) && Accounted(w.items, w.attempts, a) {
      var item :| item in w.items && Accounts(item, w.attempts, a);
      assert !BindDue(item, w.attempts, a);
      assert RecoverForItem(item, w.attempts, lease, a, cleanup);
    }
    if exists item :: item in w.items && RecoverForItem(item, w.attempts, lease, a, cleanup) {
      var item :| item in w.items && RecoverForItem(item, w.attempts, lease, a, cleanup);
      forall other | other in w.items ensures !BindDue(other, w.attempts, a) {
        if BindDue(other, w.attempts, a) { SameJob(w.items, item, other); }
      }
    }
  }

  lemma SameJob(items: seq<Item>, item: Item, other: Item)
    requires DistinctJobs(items) && item in items && other in items && item.job == other.job
    ensures item == other
  {
    var i, j :| 0 <= i < |items| && 0 <= j < |items| && items[i] == item && items[j] == other;
  }

  /**
   The inspection offers exactly the repairs that the situation calls for, and none while the queue has an owner that
   cannot be displaced.
   */
  lemma OffersExactly(w: World, lease: Lease, p: Proposal)
    requires DistinctIds(w.attempts) && DistinctJobs(w.items)
    ensures p in Actions(Reports(w, lease)) <==> OwnerCanAct(lease) && Due(p, w)
  {
    var reports, referenced := Reports(w, lease), Referenced(w.items, w.attempts);
    assert p in Actions(reports) <==> Offered(reports, p);
    ItemsRight(w.items, w.attempts, lease, p, ShapeInvalid, 0);
    OrphansRight(w.attempts, referenced, lease, p, ShapeInvalid, 0);
    Together(ItemReports(w.items, w.attempts, lease), OrphanReports(w.attempts, referenced, lease), p, ShapeInvalid, 0);
    forall a | a in w.attempts ensures a.id in referenced <==> Accounted(w.items, w.attempts, a) {
      ReferencedIffAccounted(w.items, w.attempts, a);
    }
    if OwnerCanAct(lease) && p.RecoverAttempt? {
      RecoverIffDue(w, lease, p.attempt, p.cleanup);
      if p.attempt in w.attempts && Open(p.attempt) && p.attempt.id !in referenced {
        assert Recover(p.attempt) == Some(p) <==> p.attempt.cleanup == Some(p.cleanup);
      }
    }
  }

  /**
   The inspection reports an issue about a job exactly if an item of that job is in such a situation, or, for an
   attempt that is on its own, if an open attempt of the job is accounted for by no item.
   */
  lemma IssuesExactly(w: World, lease: Lease, kind: IssueKind, job: JobId)
    requires DistinctIds(w.attempts)
    ensures ReportedFor(Reports(w, lease), kind, job) <==>
              || (exists item :: item in w.items && item.job == job && IssueDue(kind, item, w.attempts, lease))
              || (kind == UnreferencedAttempt
                  && exists a :: a in w.attempts && a.job == job && Open(a) && !Accounted(w.items, w.attempts, a))
  {
    var referenced := Referenced(w.items, w.attempts);
    var p := ResetItem(Item(0, Queued, None, None, None, 0));
    ItemsRight(w.items, w.attempts, lease, p, kind, job);
    OrphansRight(w.attempts, referenced, lease, p, kind, job);
    Together(ItemReports(w.items, w.attempts, lease), OrphanReports(w.attempts, referenced, lease), p, kind, job);
    forall a | a in w.attempts ensures a.id in referenced <==> Accounted(w.items, w.attempts, a) {
      ReferencedIffAccounted(w.items, w.attempts, a);
    }
  }

  // ----- repairs do what they are for -----

  /** At most one repair of its record is offered for an item. */
  lemma OneRepairPerItem(w: World, p: Proposal, q: Proposal)
    requires DistinctIds(w.attempts) && Due(p, w) && Due(q, w)
    requires !p.RecoverAttempt? && !q.RecoverAttempt? && p.item == q.item
    ensures p == q
  {
    var item := p.item;
    forall a, b | Accounts(item, w.attempts, a) && Accounts(item, w.attempts, b) ensures a == b {
      if item.attempt.Some? { FoundIff(w.attempts, item.attempt.value); }
    }
  }
}
