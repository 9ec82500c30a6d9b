/**
 Cleanup records of an attempt: requirements are registered, observations are appended, and the stored status is
 derived from both.
 */
module Cleanup {
  import opened Common

  datatype Kind = ProcessTree | ExternalResource | Workspace

  datatype Subject = Subject(kind: Kind, id: string)

  datatype Containment = WindowsJob(kernelEnforced: bool, killOnOwnerClose: bool) | PosixProcessGroup

  /** The process that guards a process tree; records of the first version say nothing about containment. */
  datatype Guardian = GuardianV1(pid: nat) | GuardianV2(pid: nat, containment: Containment)

  datatype Requirement = Requirement(subject: Subject, deadlineMs: nat, guardian: Option<Guardian>)

  datatype Seen = SeenProven | SeenFailed | SeenUnknown

  datatype Observation = Observation(evidenceId: nat, subject: Subject, seen: Seen)

  datatype Record = Record(
    revision: nat, status: CleanupStatus, requirements: seq<Requirement>, evidence: seq<Observation>)

  const EMPTY := Record(0, NotRequired, [], [])

  // ----- subject keys -----

  function KindName(kind: Kind): string {
    match kind
    case ProcessTree => "process-tree"
    case ExternalResource => "external-resource"
    case Workspace => "workspace"
  }

  /** The text under which a subject is filed and compared. */
  function SubjectKey(subject: Subject): string {
    KindName(subject.kind) + "\0" + subject.id
  }

  /** Where the separator of a key is. */
  function FirstZero(text: string): nat {
    if text == "" || text[0] == '\0' then 0 else 1 + FirstZero(text[1..])
  }

  lemma {:induction false} FirstZeroAfter(name: string, id: string)
    requires forall i :: 0 <= i < |name| ==> name[i] != '\0'
    ensures FirstZero(name + "\0" + id) == |name|
  {
    if name != "" {
      assert (name + "\0" + id)[1..] == name[1..] + "\0" + id;
      FirstZeroAfter(name[1..], id);
    }
  }

  /** Different subjects have different keys, whatever their ids contain. */
  lemma SubjectKeyInjective(left: Subject, right: Subject)
    ensures SubjectKey(left) == SubjectKey(right) <==> left == right
  {
    FirstZeroAfter(KindName(left.kind), left.id);
    FirstZeroAfter(KindName(right.kind), right.id);
    if SubjectKey(left) == SubjectKey(right) {
      var n := |KindName(left.kind)|;
      assert left.id == SubjectKey(left)[n + 1..] && right.id == SubjectKey(right)[n + 1..];
    }
  }

  // ----- the newest observation of a subject -----

  /** The newest observation of a subject, searching backwards. */
  function Latest(evidence: seq<Observation>, subject: Subject): Option<Observation> {
    if evidence == [] then None
    else if evidence[|evidence| - 1].subject == subject then Some(evidence[|evidence| - 1])
    else Latest(evidence[..|evidence| - 1], subject)
  }

  /** The backward search finds the observation after which there is no other of the subject. */
  lemma {:induction false} LatestIsNewest(evidence: seq<Observation>, subject: Subject)
    ensures match Latest(evidence, subject)
            case None => forall i :: 0 <= i < |evidence| ==> evidence[i].subject != subject
            case Some(o) => o.subject == subject && exists i :: NewestAt(evidence, subject, o, i)
  {
    if evidence != [] {
      var rest, last := evidence[..|evidence| - 1], evidence[|evidence| - 1];
      LatestIsNewest(rest, subject);
      if last.subject == subject {
        assert NewestAt(evidence, subject, last, |evidence| - 1);
      } else if Latest(rest, subject).Some? {
        var i :| NewestAt(rest, subject, Latest(rest, subject).value, i);
        assert NewestAt(evidence, subject, Latest(rest, subject).value, i);
      }
    }
  }

  predicate NewestAt(evidence: seq<Observation>, subject: Subject, o: Observation, i: int) {
    0 <= i < |evidence| && evidence[i] == o && forall j :: i < j < |evidence| ==> evidence[j].subject != subject
  }

  /** latestCleanupEvidence, comparing keys. */
  method LatestEvidence(evidence: seq<Observation>, subject: Subject) returns (found: Option<Observation>)
    ensures found == Latest(evidence, subject)
  {
    var index := |evidence|;
    assert evidence[..index] == evidence;
    while index > 0
      invariant 0 <= index <= |evidence|
      invariant Latest(evidence, subject) == Latest(evidence[..index], subject)
    {
      index := index - 1;
      assert evidence[..index + 1][..index] == evidence[..index];
      SubjectKeyInjective(evidence[index].subject, subject);
      if SubjectKey(evidence[index].subject) == SubjectKey(subject) { return Some(evidence[index]); }
    }
    return None;
  }

  // ----- the derived status -----

  /** What is known about a subject: the newest observation's verdict. */
  function State(evidence: seq<Observation>, subject: Subject): Option<Seen> {
    match Latest(evidence, subject) case None => None case Some(o) => Some(o.seen)
  }

  predicate HasState(requirements: seq<Requirement>, evidence: seq<Observation>, state: Option<Seen>) {
    exists i :: 0 <= i < |requirements| && State(evidence, requirements[i].subject) == state
  }

  lemma HasStateMore(requirements: seq<Requirement>, evidence: seq<Observation>, state: Option<Seen>, i: nat)
    requires i < |requirements|
    ensures HasState(requirements[..i + 1], evidence, state) <==>
              HasState(requirements[..i], evidence, state) || State(evidence, requirements[i].subject) == state
  {
    var more, some := requirements[..i + 1], requirements[..i];
    assert forall k :: 0 <= k < i ==> more[k] == some[k];
    assert more[i] == requirements[i];
  }

  /** The status that requirements and evidence amount to. */
  function Derived(requirements: seq<Requirement>, evidence: seq<Observation>): CleanupStatus {
    if requirements == [] then NotRequired
    else if HasState(requirements, evidence, Some(SeenFailed)) then CleanupFailed
    else if HasState(requirements, evidence, Some(SeenUnknown)) then Unknown
    else if HasState(requirements, evidence, None) then Pending
    else Proven
  }

  /** deriveCleanupStatus: a forward pass that keeps the last observation per key. */
  method DeriveStatus(requirements: seq<Requirement>, evidence: seq<Observation>) returns (status: CleanupStatus)
    ensures status == Derived(requirements, evidence)
  {
    if requirements == [] { return NotRequired; }
    var latest := FileEvidence(evidence);
    var failed, unknown, missing := false, false, false;
    var i := 0;
    while i < |requirements|
      invariant 0 <= i <= |requirements|
      invariant failed <==> HasState(requirements[..i], evidence, Some(SeenFailed))
      invariant unknown <==> HasState(requirements[..i], evidence, Some(SeenUnknown))
      invariant missing <==> HasState(requirements[..i], evidence, None)
    {
      var found := Filed(latest, requirements[i].subject);
      assert found == Latest(evidence, requirements[i].subject);
      HasStateMore(requirements, evidence, Some(SeenFailed), i);
      HasStateMore(requirements, evidence, Some(SeenUnknown), i);
      HasStateMore(requirements, evidence, None, i);
      failed := failed || (found.Some? && found.value.seen == SeenFailed);
      unknown := unknown || (found.Some? && found.value.seen == SeenUnknown);
      missing := missing || found.None?;
      i := i + 1;
    }
    assert requirements[..i] == requirements;
    return if failed then CleanupFailed else if unknown then Unknown else if missing then Pending else Proven;
  }

  /** The last observation per key. */
  method FileEvidence(evidence: seq<Observation>) returns (latest: map<string, Observation>)
    ensures forall s: Subject :: Latest(evidence, s) == Filed(latest, s)
  {
    latest := map[];
    var i := 0;
    while i < |evidence|
      invariant 0 <= i <= |evidence|
      invariant forall s: Subject :: Latest(evidence[..i], s) == Filed(latest, s)
    {
      assert evidence[..i + 1][..i] == evidence[..i];
      ghost var before := latest;
      latest := latest[SubjectKey(evidence[i].subject) := evidence[i]];
      forall s: Subject ensures Latest(evidence[..i + 1], s) == Filed(latest, s) {
        SubjectKeyInjective(s, evidence[i].subject);
        assert Latest(evidence[..i], s) == Filed(before, s);
      }
      i := i + 1;
    }
    assert evidence[..i] == evidence;
  }

  function Filed(latest: map<string, Observation>, subject: Subject): Option<Observation> {
    if SubjectKey(subject) in latest then Some(latest[SubjectKey(subject)]) else None
  }

  /** Proven means that there is something to prove and the newest observation of every requirement is a proof. */
  lemma ProvenMeansAll(requirements: seq<Requirement>, evidence: seq<Observation>)
    ensures Derived(requirements, evidence) == Proven <==>
              requirements != []
              && forall i :: 0 <= i < |requirements| ==> State(evidence, requirements[i].subject) == Some(SeenProven)
    ensures CleanupSafe(Derived(requirements, evidence)) <==>
              forall i :: 0 <= i < |requirements| ==> State(evidence, requirements[i].subject) == Some(SeenProven)
  {
    var status := Derived(requirements, evidence);
    if status == Proven {
      forall i | 0 <= i < |requirements| ensures State(evidence, requirements[i].subject) == Some(SeenProven) {
        var state := State(evidence, requirements[i].subject);
        assert HasState(requirements, evidence, state);
        match state
        case None =>
        case Some(seen) => assert seen == SeenProven || seen == SeenFailed || seen == SeenUnknown;
      }
    }
  }

  /** assertWorkspaceRemovalSafe: no requirement other than a workspace may be unresolved. */
  method WorkspaceRemovalSafe(record: Record) returns (safe: bool)
    ensures safe <==> RemovalSafe(record)
  {
    var i := 0;
    while i < |record.requirements|
      invariant 0 <= i <= |record.requirements|
      invariant forall k :: 0 <= k < i && record.requirements[k].subject.kind != Workspace ==>
                  State(record.evidence, record.requirements[k].subject) == Some(SeenProven)
    {
      var requirement := record.requirements[i];
      if requirement.subject.kind != Workspace {
        var found := LatestEvidence(record.evidence, requirement.subject);
        if found.None? || found.value.seen != SeenProven { return false; }
      }
      i := i + 1;
    }
    return true;
  }

  predicate RemovalSafe(record: Record) {
    forall i :: 0 <= i < |record.requirements| && record.requirements[i].subject.kind != Workspace ==>
      State(record.evidence, record.requirements[i].subject) == Some(SeenProven)
  }

  // ----- registering and observing -----

  predicate Registered(requirements: seq<Requirement>, subject: Subject) {
    exists i :: 0 <= i < |requirements| && requirements[i].subject == subject
  }

  function Merged(known: Requirement, r: Requirement): Requirement {
    if known.subject == r.subject
    then known.(deadlineMs := r.deadlineMs, guardian := if r.guardian.Some? then r.guardian else known.guardian)
    else known
  }

  function WithRequirement(requirements: seq<Requirement>, r: Requirement): seq<Requirement> {
    if Registered(requirements, r.subject)
    then seq(|requirements|, i requires 0 <= i < |requirements| => Merged(requirements[i], r))
    else requirements + [r]
  }

  function Changed(record: Record, requirements: seq<Requirement>, evidence: seq<Observation>): Record {
    Record(record.revision + 1, Derived(requirements, evidence), requirements, evidence)
  }

  function Register(record: Record, r: Requirement): Record {
    var requirements := WithRequirement(record.requirements, r);
    if requirements == record.requirements then record else Changed(record, requirements, record.evidence)
  }

  predicate Observed(evidence: seq<Observation>, id: nat) {
    exists i :: 0 <= i < |evidence| && evidence[i].evidenceId == id
  }

  /** An observation of an unregistered subject is an error; a repeated one changes nothing. */
  function Append(record: Record, o: Observation): Option<Record> {
    if !Registered(record.requirements, o.subject) then None
    else if Observed(record.evidence, o.evidenceId) then Some(record)
    else Some(Changed(record, record.requirements, record.evidence + [o]))
  }

  class CleanupStore {
    var record: Record

    constructor ()
      ensures record == EMPTY
    {
      record := EMPTY;
    }

    /** transitionAttemptCleanup, over the record just read. */
    method Transition(requirements: seq<Requirement>, evidence: seq<Observation>)
      modifies this
      ensures record == Changed(old(record), requirements, evidence)
    {
      var status := DeriveStatus(requirements, evidence);
      record := Record(record.revision + 1, status, requirements, evidence);
    }

    /** registerAttemptCleanupRequirement. */
    method RegisterRequirement(r: Requirement)
      modifies this
      ensures record == Register(old(record), r)
    {
      var requirements: seq<Requirement> := [];
      var found := false;
      var i := 0;
      while i < |record.requirements|
        invariant 0 <= i <= |record.requirements| && record == old(record)
        invariant |requirements| == i && forall k :: 0 <= k < i ==> requirements[k] == Merged(record.requirements[k], r)
        invariant found <==> exists k :: 0 <= k < i && record.requirements[k].subject == r.subject
      {
        var candidate := record.requirements[i];
        SubjectKeyInjective(candidate.subject, r.subject);
        if SubjectKey(candidate.subject) == SubjectKey(r.subject) { found := true; }
        requirements := requirements + [Merged(candidate, r)];
        i := i + 1;
      }
      if !found { requirements := record.requirements + [r]; }
      assert requirements == WithRequirement(record.requirements, r);
      if requirements != record.requirements { Transition(requirements, record.evidence); }
    }

    /** appendAttemptCleanupEvidence; false is the error for an unregistered subject. */
    method AppendEvidence(o: Observation) returns (ok: bool)
      modifies this
      ensures ok <==> Append(old(record), o).Some?
      ensures record == if ok then Append(old(record), o).value else old(record)
    {
      if !exists i :: 0 <= i < |record.requirements|
                      && SubjectKey(record.requirements[i].subject) == SubjectKey(o.subject) {
        forall i | 0 <= i < |record.requirements| ensures record.requirements[i].subject != o.subject {
          SubjectKeyInjective(record.requirements[i].subject, o.subject);
        }
        return false;
      }
      assert Registered(record.requirements, o.subject) by {
        var i :| 0 <= i < |record.requirements| && SubjectKey(record.requirements[i].subject) == SubjectKey(o.subject);
        SubjectKeyInjective(record.requirements[i].subject, o.subject);
      }
      if !Observed(record.evidence, o.evidenceId) { Transition(record.requirements, record.evidence + [o]); }
      return true;
    }
  }

  // ----- every history of a record -----

  datatype Operation = Registering(requirement: Requirement) | Observing(observation: Observation)

  function Apply(record: Record, op: Operation): Record {
    match op
    case Registering(r) => Register(record, r)
    case Observing(o) => match Append(record, o) case None => record case Some(next) => next
  }

  function Run(record: Record, ops: seq<Operation>): Record {
    if ops == [] then record else Apply(Run(record, ops[..|ops| - 1]), ops[|ops| - 1])
  }

  predicate DistinctSubjects(requirements: seq<Requirement>) {
    forall i, j :: 0 <= i < j < |requirements| ==> requirements[i].subject != requirements[j].subject
  }

  predicate Valid(record: Record) {
    && DistinctSubjects(record.requirements)
    && (forall i :: 0 <= i < |record.evidence| ==> Registered(record.requirements, record.evidence[i].subject))
    && (forall i, j :: 0 <= i < j < |record.evidence| ==>
          record.evidence[i].evidenceId != record.evidence[j].evidenceId)
    && record.status == Derived(record.requirements, record.evidence)
  }

  /** Nothing registered or observed is ever lost or reordered. */
  predicate Extends(before: Record, after: Record) {
    && before.revision <= after.revision
    && |before.requirements| <= |after.requirements| && |before.evidence| <= |after.evidence|
    && (forall i :: 0 <= i < |before.requirements| ==> after.requirements[i].subject == before.requirements[i].subject)
    && after.evidence[..|before.evidence|] == before.evidence
  }

  lemma RegisterKeeps(record: Record, r: Requirement)
    requires Valid(record)
    ensures Valid(Register(record, r)) && Extends(record, Register(record, r))
  {
    var next := WithRequirement(record.requirements, r);
    assert forall i :: 0 <= i < |record.requirements| ==> next[i].subject == record.requirements[i].subject;
    forall i | 0 <= i < |record.evidence| ensures Registered(next, record.evidence[i].subject) {
      var k :| 0 <= k < |record.requirements| && record.requirements[k].subject == record.evidence[i].subject;
      assert next[k].subject == record.evidence[i].subject;
    }
  }

  /** Where a subject's requirement is. */
  predicate RequiredAs(record: Record, i: int, subject: Subject, deadlineMs: nat, guardian: Option<Guardian>) {
    && 0 <= i < |record.requirements|
    && record.requirements[i] == Requirement(subject, deadlineMs, guardian)
  }

  /**
   What a registration leaves: the subject is required with the new deadline, and with the new guardian or, if none was
   given, the one it had; every other requirement stays as it was, and so does the evidence.
   */
  lemma RegisterMeans(record: Record, r: Requirement)
    requires Valid(record)
    ensures var after := Register(record, r);
            && after.evidence == record.evidence
            && (forall i :: 0 <= i < |record.requirements| && record.requirements[i].subject != r.subject ==>
                  i < |after.requirements| && after.requirements[i] == record.requirements[i])
            && (if Registered(record.requirements, r.subject)
                then
                  |after.requirements| == |record.requirements|
                  && forall i, d, g :: RequiredAs(record, i, r.subject, d, g) ==>
                       RequiredAs(after, i, r.subject, r.deadlineMs, if r.guardian.Some? then r.guardian else g)
                else after.requirements == record.requirements + [r])
            && (after == record || after.revision == record.revision + 1)
  {
    var next := WithRequirement(record.requirements, r);
    if Registered(record.requirements, r.subject) {
      assert forall i :: 0 <= i < |record.requirements| ==> next[i] == Merged(record.requirements[i], r);
    }
  }

  lemma ApplyKeeps(record: Record, op: Operation)
    requires Valid(record)
    ensures Valid(Apply(record, op)) && Extends(record, Apply(record, op))
  {
    match op
    case Registering(r) => RegisterKeeps(record, r);
    case Observing(o) =>
  }

  /**
   After every sequence of registrations and observations: subjects are distinct, there is evidence only for
   registered subjects, no observation is recorded twice, and the stored status is the derived one.
   */
  lemma {:induction false} RecordStaysValid(ops: seq<Operation>)
    ensures Valid(Run(EMPTY, ops))
  {
    if ops != [] {
      RecordStaysValid(ops[..|ops| - 1]);
      ApplyKeeps(Run(EMPTY, ops[..|ops| - 1]), ops[|ops| - 1]);
    }
  }

  lemma {:induction false} RunConcat(record: Record, first: seq<Operation>, second: seq<Operation>)
    ensures Run(record, first + second) == Run(Run(record, first), second)
  {
    if second == [] {
      assert first + second == first;
    } else {
      assert (first + second)[..|first + second| - 1] == first + second[..|second| - 1];
      RunConcat(record, first, second[..|second| - 1]);
    }
  }

  lemma {:induction false} RunExtends(record: Record, ops: seq<Operation>)
    requires Valid(record)
    ensures Valid(Run(record, ops)) && Extends(record, Run(record, ops))
  {
    if ops != [] {
      RunExtends(record, ops[..|ops| - 1]);
      ApplyKeeps(Run(record, ops[..|ops| - 1]), ops[|ops| - 1]);
    }
  }

  /** The record only grows: what one moment of its history holds, every later moment holds at the same place. */
  lemma RecordOnlyGrows(first: seq<Operation>, later: seq<Operation>)
    ensures Extends(Run(EMPTY, first), Run(EMPTY, first + later))
  {
    RecordStaysValid(first);
    RunConcat(EMPTY, first, later);
    RunExtends(Run(EMPTY, first), later);
  }

  predicate WaitsForWorkspace(record: Record) {
    exists i :: 0 <= i < |record.requirements| && record.requirements[i].subject.kind == Workspace
                && State(record.evidence, record.requirements[i].subject) != Some(SeenProven)
  }

  /** Once every requirement is proven, a workspace may be removed; the converse needs only workspaces to be missing. */
  lemma ProvenAllowsRemoval(ops: seq<Operation>)
    ensures CleanupSafe(Run(EMPTY, ops).status) ==> RemovalSafe(Run(EMPTY, ops))
    ensures RemovalSafe(Run(EMPTY, ops)) && !CleanupSafe(Run(EMPTY, ops).status) ==>
              WaitsForWorkspace(Run(EMPTY, ops))
  {
    RecordStaysValid(ops);
    ProvenMeansAll(Run(EMPTY, ops).requirements, Run(EMPTY, ops).evidence);
  }
}
