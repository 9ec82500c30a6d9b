/**
 The end of an attempt's processes, external resources and worktree: when its execution is over, when its owner asks for
 the worktree to be removed, and when a restarted dispatcher finds the attempt interrupted.
 */
module WorkspaceCleanup {
  import opened Common
  import opened Cleanup

  datatype Resource = Resource(id: string, active: bool)

  /**
   What running a resource's cleanup command gives.  An error may come before or after the command's process was
   registered with its guardian.
   */
  datatype CleanupRun =
    | Throws(started: Option<Guardian>)
    | Ends(guardian: Guardian, termination: Seen, outputLimit: bool, exitedCleanly: bool)

  /** What recovery finds outside the records: liveness at its three probes, the cleanup commands, and the removal. */
  datatype World = World(
    readable: bool,
    retain: bool,
    first: nat -> bool,
    second: nat -> bool,
    last: nat -> bool,
    runs: string -> CleanupRun,
    removeThrows: bool)

  datatype Processes = Gone | GuardianAlive | Open

  datatype Verdict = Terminal | SafeToRetry | StillRunning | Unclear

  const WORKTREE := Subject(Workspace, "worktree")

  const LEGACY := Subject(ProcessTree, "legacy-interrupted-process")

  function External(id: string): Subject {
    Subject(ExternalResource, id)
  }

  function CleanupProcess(id: string): Subject {
    Subject(ProcessTree, "external-resource-cleanup:" + id)
  }

  // ----- what evidence says -----

  predicate IsProven(record: Record, subject: Subject) {
    State(record.evidence, subject) == Some(SeenProven)
  }

  /** The command ended, its processes are gone and it did what it should. */
  predicate CleanRun(run: CleanupRun) {
    run.Ends? && run.termination == SeenProven && !run.outputLimit && run.exitedCleanly
  }

  /** An active resource is gone, or its cleanup command will see to that. */
  predicate Releasable(record: Record, resources: seq<Resource>, runs: string -> CleanupRun) {
    forall i :: 0 <= i < |resources| && resources[i].active ==>
      IsProven(record, External(resources[i].id)) || CleanRun(runs(resources[i].id))
  }

  predicate Released(record: Record, resources: seq<Resource>) {
    forall i :: 0 <= i < |resources| && resources[i].active ==> IsProven(record, External(resources[i].id))
  }

  /** The newest evidence of every requirement is a proof. */
  predicate AllProven(record: Record) {
    forall i :: 0 <= i < |record.requirements| ==> IsProven(record, record.requirements[i].subject)
  }

  predicate ProcessesProven(record: Record) {
    forall i :: 0 <= i < |record.requirements| && record.requirements[i].subject.kind == ProcessTree ==>
      IsProven(record, record.requirements[i].subject)
  }

  predicate HasProcess(record: Record) {
    exists i :: 0 <= i < |record.requirements| && record.requirements[i].subject.kind == ProcessTree
  }

  /** The kernel ends the whole tree when the guardian is gone. */
  predicate Contained(guardian: Option<Guardian>) {
    && guardian.Some? && guardian.value.GuardianV2? && guardian.value.containment.WindowsJob?
    && guardian.value.containment.kernelEnforced && guardian.value.containment.killOnOwnerClose
  }

  predicate Alive(r: Requirement, probe: nat -> bool) {
    r.guardian.Some? && probe(r.guardian.value.pid)
  }

  /** A process tree that nothing proves to be gone. */
  predicate Unresolved(record: Record, r: Requirement) {
    r.subject.kind == ProcessTree && !IsProven(record, r.subject)
  }

  predicate SomeAlive(record: Record, probe: nat -> bool) {
    exists i :: 0 <= i < |record.requirements| && Unresolved(record, record.requirements[i])
                && Alive(record.requirements[i], probe)
  }

  /** Every unresolved process tree was contained by a guardian that is gone. */
  predicate KernelClosed(record: Record, probe: nat -> bool) {
    forall i :: 0 <= i < |record.requirements| && Unresolved(record, record.requirements[i]) ==>
      Contained(record.requirements[i].guardian) && !Alive(record.requirements[i], probe)
  }

  /** A record without process trees gets one for the guardian in the manifest. */
  function WithLegacy(record: Record, guardian: Option<Guardian>): Record {
    if HasProcess(record) || guardian.None? then record else Register(record, Requirement(LEGACY, 5_000, guardian))
  }

  /** A guardian of an unresolved process tree was alive at both probes. */
  predicate GuardianStays(record: Record, guardian: Option<Guardian>, world: World) {
    var known := WithLegacy(record, guardian); SomeAlive(known, world.first) && SomeAlive(known, world.second)
  }

  /** There are process trees, and every one is proven gone or was ended by the kernel. */
  predicate ProcessesGone(record: Record, guardian: Option<Guardian>, world: World) {
    var known := WithLegacy(record, guardian);
    HasProcess(known) && !GuardianStays(record, guardian, world) && KernelClosed(known, world.last)
  }

  /** Recovery may end a launched attempt: all its process trees and resources are gone. */
  predicate Endable(record: Record, guardian: Option<Guardian>, resources: seq<Resource>, world: World) {
    world.readable && ProcessesGone(record, guardian, world) && Releasable(record, resources, world.runs)
  }

  lemma {:induction false} LatestAppended(evidence: seq<Observation>, o: Observation, subject: Subject)
    ensures Latest(evidence + [o], subject) == if o.subject == subject then Some(o) else Latest(evidence, subject)
  {
    assert (evidence + [o])[..|evidence|] == evidence;
  }

  /** A requirement whose newest evidence is no proof keeps the record from being clean. */
  lemma UnprovenIsUnsafe(record: Record, subject: Subject)
    requires Cleanup.Valid(record) && Registered(record.requirements, subject) && !IsProven(record, subject)
    ensures !CleanupSafe(record.status)
  {
    ProvenMeansAll(record.requirements, record.evidence);
    var k :| 0 <= k < |record.requirements| && record.requirements[k].subject == subject;
    assert State(record.evidence, record.requirements[k].subject) != Some(SeenProven);
  }

  /** In a clean record everything registered is proven. */
  lemma SafeIsProven(record: Record, subject: Subject)
    requires Cleanup.Valid(record) && Registered(record.requirements, subject) && CleanupSafe(record.status)
    ensures IsProven(record, subject)
  {
    if !IsProven(record, subject) { UnprovenIsUnsafe(record, subject); }
  }

  /** The worktree is the only workspace that is required. */
  predicate OneWorkspace(record: Record) {
    forall i :: 0 <= i < |record.requirements| && record.requirements[i].subject.kind == Workspace ==>
      record.requirements[i].subject == WORKTREE
  }

  /** The newest evidence of the worktree decides the status once everything else is proven. */
  lemma RemovalDecides(record: Record)
    requires Cleanup.Valid(record) && Registered(record.requirements, WORKTREE) && RemovalSafe(record)
    ensures IsProven(record, WORKTREE) && OneWorkspace(record) ==> record.status == Proven
    ensures State(record.evidence, WORKTREE) == Some(SeenFailed) ==> record.status == CleanupFailed
  {
    ProvenMeansAll(record.requirements, record.evidence);
    var k :| 0 <= k < |record.requirements| && record.requirements[k].subject == WORKTREE;
    assert State(record.evidence, record.requirements[k].subject) == State(record.evidence, WORKTREE);
  }

  lemma NotRemovableIsUnsafe(record: Record)
    requires Cleanup.Valid(record) && !RemovalSafe(record)
    ensures !CleanupSafe(record.status)
  {
    var k :| 0 <= k < |record.requirements| && record.requirements[k].subject.kind != Workspace
             && State(record.evidence, record.requirements[k].subject) != Some(SeenProven);
    UnprovenIsUnsafe(record, record.requirements[k].subject);
  }

  /** The subject's requirement names this guardian. */
  predicate Guards(record: Record, subject: Subject, guardian: Guardian) {
    exists i :: 0 <= i < |record.requirements| && record.requirements[i].subject == subject
                && record.requirements[i].guardian == Some(guardian)
  }

  lemma RegisterGuards(record: Record, r: Requirement)
    requires Cleanup.Valid(record)
    ensures r.guardian.Some? ==> Guards(Register(record, r), r.subject, r.guardian.value)
  {
    RegisterMeans(record, r);
    if Registered(record.requirements, r.subject) {
      var i :| 0 <= i < |record.requirements| && record.requirements[i].subject == r.subject;
      assert RequiredAs(record, i, r.subject, record.requirements[i].deadlineMs, record.requirements[i].guardian);
    } else {
      assert Register(record, r).requirements[|record.requirements|] == r;
    }
  }

  lemma RegisterCovers(record: Record, r: Requirement)
    ensures Registered(Register(record, r).requirements, r.subject) && Register(record, r).evidence == record.evidence
    ensures forall s :: Registered(record.requirements, s) ==> Registered(Register(record, r).requirements, s)
    ensures forall s :: Registered(Register(record, r).requirements, s) ==>
              s == r.subject || Registered(record.requirements, s)
  {
    var after := Register(record, r).requirements;
    assert after == WithRequirement(record.requirements, r);
    assert forall i :: 0 <= i < |record.requirements| ==> after[i].subject == record.requirements[i].subject;
    if Registered(record.requirements, r.subject) {
      var k :| 0 <= k < |record.requirements| && record.requirements[k].subject == r.subject;
      assert after[k].subject == r.subject;
    } else {
      assert after[|record.requirements|] == r;
    }
    forall s | Registered(record.requirements, s) ensures Registered(after, s) {
      var k :| 0 <= k < |record.requirements| && record.requirements[k].subject == s;
      assert after[k].subject == s;
    }
    forall s | Registered(after, s) ensures s == r.subject || Registered(record.requirements, s) {
      var k :| 0 <= k < |after| && after[k].subject == s;
      assert k < |record.requirements| ==> record.requirements[k].subject == s;
    }
  }

  /** Process trees that are proven stay so if only proven ones are added. */
  lemma ProcessesStayProven(before: Record, after: Record)
    requires ProcessesProven(before)
    requires forall s: Subject :: s.kind == ProcessTree && Registered(after.requirements, s) && !IsProven(after, s) ==>
               Registered(before.requirements, s) && !IsProven(before, s)
    ensures ProcessesProven(after)
  {
    forall i | 0 <= i < |after.requirements| && after.requirements[i].subject.kind == ProcessTree
      ensures IsProven(after, after.requirements[i].subject)
    {
      var s := after.requirements[i].subject;
      assert Registered(after.requirements, s);
      assert Registered(before.requirements, s) ==> IsProven(before, s);
    }
  }

  /** Nothing about workspaces changes and no requirement is lost. */
  ghost predicate Keeps(before: Record, after: Record) {
    && (forall s: Subject :: s.kind == Workspace ==>
          && State(after.evidence, s) == State(before.evidence, s)
          && (Registered(after.requirements, s) <==> Registered(before.requirements, s)))
    && (forall s :: Registered(before.requirements, s) ==> Registered(after.requirements, s))
  }

  /** The cleanup of one resource proves its subjects and touches no other. */
  ghost predicate Resolves(before: Record, after: Record, id: string, run: CleanupRun) {
    && (after == before || (IsProven(after, External(id)) && IsProven(after, CleanupProcess(id)) && CleanRun(run)))
    && (forall s :: s != External(id) && s != CleanupProcess(id) ==>
          && State(after.evidence, s) == State(before.evidence, s)
          && (Registered(after.requirements, s) <==> Registered(before.requirements, s)))
  }

  /** The cleanup of several resources: each is as it was or proven by its command, and no process tree is left over. */
  ghost predicate Resolving(before: Record, after: Record, runs: string -> CleanupRun) {
    && (forall id :: || State(after.evidence, External(id)) == State(before.evidence, External(id))
                     || (IsProven(after, External(id)) && CleanRun(runs(id))))
    && (ProcessesProven(before) ==> ProcessesProven(after))
  }

  lemma ResolvesMore(first: Record, before: Record, after: Record, id: string, runs: string -> CleanupRun)
    requires Resolving(first, before, runs) && Resolves(before, after, id, runs(id))
    ensures Resolving(first, after, runs)
  {
    if ProcessesProven(before) { ProcessesStayProven(before, after); }
  }

  /** The first i resources have been dealt with, and each is proven gone. */
  ghost predicate Releasing(first: Record, record: Record, resources: seq<Resource>, i: nat, runs: string -> CleanupRun)
    requires i <= |resources|
  {
    && Releasable(first, resources[..i], runs) && Released(record, resources[..i])
    && (Released(first, resources) ==> record == first)
    && Keeps(first, record) && Resolving(first, record, runs)
  }

  lemma ReleasesMore(first: Record, before: Record, after: Record, resources: seq<Resource>, i: nat,
                     runs: string -> CleanupRun)
    requires i < |resources| && resources[i].active && Releasing(first, before, resources, i, runs)
    requires Keeps(before, after) && Resolves(before, after, resources[i].id, runs(resources[i].id))
    requires IsProven(before, External(resources[i].id)) ==> after == before
    requires IsProven(before, External(resources[i].id)) || CleanRun(runs(resources[i].id))
    requires IsProven(after, External(resources[i].id))
    ensures Releasing(first, after, resources, i + 1, runs)
  {
    assert resources[..i + 1] == resources[..i] + [resources[i]];
    ResolvesMore(first, before, after, resources[i].id, runs);
    ReleasedStays(before, after, resources[i].id, runs(resources[i].id), resources[..i]);
  }

  lemma NotReleasable(first: Record, before: Record, after: Record, resources: seq<Resource>, i: nat,
                      runs: string -> CleanupRun)
    requires i < |resources| && resources[i].active && Releasing(first, before, resources, i, runs)
    requires !IsProven(before, External(resources[i].id)) && !CleanRun(runs(resources[i].id)) && Keeps(before, after)
    ensures !Releasable(first, resources, runs) && !Released(first, resources) && Keeps(first, after)
  {
    assert State(before.evidence, External(resources[i].id)) == State(first.evidence, External(resources[i].id));
  }

  lemma ReleasedStays(before: Record, after: Record, id: string, run: CleanupRun, resources: seq<Resource>)
    requires Resolves(before, after, id, run) && Released(before, resources)
    ensures Released(after, resources)
  {
    forall i | 0 <= i < |resources| && resources[i].active ensures IsProven(after, External(resources[i].id)) {
      assert IsProven(before, External(resources[i].id));
    }
  }

  /** Only the worktree's requirement is new. */
  ghost predicate WorktreeAdded(before: Record, after: Record) {
    && after.evidence == before.evidence
    && (forall s :: Registered(after.requirements, s) <==> s == WORKTREE || Registered(before.requirements, s))
  }

  /** With everything else proven, a worktree that was just registered is what the record waits for. */
  lemma WorktreeRegistered(before: Record, after: Record)
    requires Cleanup.Valid(before) && Cleanup.Valid(after) && RemovalSafe(before) && !IsProven(before, WORKTREE)
    requires Registered(after.requirements, WORKTREE) && WorktreeAdded(before, after)
    ensures RemovalSafe(after)
    ensures CleanupSafe(before.status) ==> after.status == Pending
  {
    forall i | 0 <= i < |after.requirements| && after.requirements[i].subject != WORKTREE
      ensures Registered(before.requirements, after.requirements[i].subject)
    {
      assert Registered(after.requirements, after.requirements[i].subject);
    }
    if CleanupSafe(before.status) {
      if Registered(before.requirements, WORKTREE) { UnprovenIsUnsafe(before, WORKTREE); }
      assert !exists i :: 0 <= i < |before.evidence| && before.evidence[i].subject == WORKTREE;
      LatestIsNewest(before.evidence, WORKTREE);
      forall i | 0 <= i < |after.requirements|
        ensures State(after.evidence, after.requirements[i].subject) ==
                if after.requirements[i].subject == WORKTREE then None else Some(SeenProven)
      {
        if after.requirements[i].subject != WORKTREE { SafeIsProven(before, after.requirements[i].subject); }
      }
      var k :| 0 <= k < |after.requirements| && after.requirements[k].subject == WORKTREE;
      assert State(after.evidence, after.requirements[k].subject) == None;
    }
  }

  predicate Closed(record: Record, r: Requirement, probe: nat -> bool) {
    IsProven(record, r.subject) || (Contained(r.guardian) && !Alive(r, probe))
  }

  lemma ReleasableSame(before: Record, after: Record, resources: seq<Resource>, runs: string -> CleanupRun)
    requires forall s: Subject :: s.kind != ProcessTree ==> State(after.evidence, s) == State(before.evidence, s)
    ensures Releasable(after, resources, runs) <==> Releasable(before, resources, runs)
  {
  }

  /** Nothing changes but what is known about the worktree. */
  ghost predicate OnlyWorktree(before: Record, after: Record) {
    forall s :: s != WORKTREE ==>
      && State(after.evidence, s) == State(before.evidence, s)
      && (Registered(after.requirements, s) <==> Registered(before.requirements, s))
  }

  lemma OnlyWorktreeKeeps(before: Record, after: Record, resources: seq<Resource>)
    requires OnlyWorktree(before, after) && Released(before, resources) && ProcessesProven(before) && HasProcess(before)
    ensures Released(after, resources) && ProcessesProven(after) && HasProcess(after)
  {
    ProcessesStayProven(before, after);
    forall i | 0 <= i < |resources| && resources[i].active ensures IsProven(after, External(resources[i].id)) {
      assert IsProven(before, External(resources[i].id));
    }
    var k :| 0 <= k < |before.requirements| && before.requirements[k].subject.kind == ProcessTree;
    assert Registered(before.requirements, before.requirements[k].subject);
    var i :| 0 <= i < |after.requirements| && after.requirements[i].subject == before.requirements[k].subject;
  }

  lemma HasProcessStays(before: Record, after: Record)
    requires HasProcess(before) && Keeps(before, after)
    ensures HasProcess(after)
  {
    var k :| 0 <= k < |before.requirements| && before.requirements[k].subject.kind == ProcessTree;
    assert Registered(before.requirements, before.requirements[k].subject);
    var i :| 0 <= i < |after.requirements| && after.requirements[i].subject == before.requirements[k].subject;
  }

  class Finalizer {
    var record: Record
    /** Evidence identities are fresh. */
    var nextId: nat
    var status: AttemptStatus
    var verification: VerificationStatus
    /** The worktree's directory has been removed. */
    var removed: bool
    const resources: seq<Resource>
    /** The manifest's workspace, if any, and whether it is marked as retained. */
    const workspace: Option<bool>
    const guardian: Option<Guardian>

    ghost predicate Valid() reads this {
      Cleanup.Valid(record) && forall i :: 0 <= i < |record.evidence| ==> record.evidence[i].evidenceId < nextId
    }

    constructor (record: Record, nextId: nat, status: AttemptStatus, verification: VerificationStatus,
                 resources: seq<Resource>, workspace: Option<bool>, guardian: Option<Guardian>)
      requires Cleanup.Valid(record) && forall i :: 0 <= i < |record.evidence| ==>
                 record.evidence[i].evidenceId < nextId
      ensures Valid() && this.record == record && this.status == status && this.verification == verification && !removed
      ensures this.resources == resources && this.workspace == workspace && this.guardian == guardian
    {
      this.record, this.nextId, this.status, this.verification, removed := record, nextId, status, verification, false;
      this.resources, this.workspace, this.guardian := resources, workspace, guardian;
    }

    /** registerCleanupRequirement. */
    method Require(subject: Subject, guardian: Option<Guardian>)
      requires Valid()
      modifies this`record
      ensures Valid()
      ensures record == Register(old(record), Requirement(subject, if subject.kind == ProcessTree then 5_000
                                                          else 30_000, guardian))
      ensures Registered(record.requirements, subject) && record.evidence == old(record.evidence)
      ensures guardian.Some? ==> Guards(record, subject, guardian.value)
      ensures forall s :: Registered(record.requirements, s) <==>
                s == subject || Registered(old(record.requirements), s)
    {
      var r := Requirement(subject, if subject.kind == ProcessTree then 5_000 else 30_000, guardian);
      RegisterKeeps(record, r);
      RegisterCovers(record, r);
      RegisterGuards(record, r);
      record := Register(record, r);
    }

    /** Appends an observation of a registered subject. */
    method Observe(subject: Subject, seen: Seen)
      requires Valid() && Registered(record.requirements, subject)
      modifies this`record, this`nextId
      ensures Valid() && record.requirements == old(record.requirements)
      ensures forall s :: State(record.evidence, s) == if s == subject then Some(seen)
              else State(old(record.evidence), s)
    {
      var o := Observation(nextId, subject, seen);
      nextId := nextId + 1;
      ApplyKeeps(record, Observing(o));
      forall s ensures State(record.evidence + [o], s) == if s == subject then Some(seen)
          else State(record.evidence, s) {
        LatestAppended(record.evidence, o, s);
      }
      record := Changed(record, record.requirements, record.evidence + [o]);
    }

    /** One active external resource; false if it may still exist. */
    method CleanupResource(id: string, run: CleanupRun) returns (safe: bool)
      requires Valid()
      modifies this`record, this`nextId
      ensures Valid()
      ensures safe <==> IsProven(old(record), External(id)) || CleanRun(run)
      ensures IsProven(old(record), External(id)) ==> record == old(record)
      ensures safe <==> IsProven(record, External(id))
      ensures !safe ==> !CleanupSafe(record.status)
      ensures Keeps(old(record), record) && (safe ==> Resolves(old(record), record, id, run))
      ensures run.Ends? && !IsProven(old(record), External(id)) ==> Guards(record, CleanupProcess(id), run.guardian)
    {
      var known := LatestEvidence(record.evidence, External(id));
      if known.Some? && known.value.seen == SeenProven { return true; }
      Require(External(id), None);
      if run.Throws? {
        if run.started.Some? { Require(CleanupProcess(id), run.started); }
        Observe(External(id), SeenFailed);
        UnprovenIsUnsafe(record, External(id));
        return false;
      }
      Require(CleanupProcess(id), Some(run.guardian));
      Observe(CleanupProcess(id), run.termination);
      if run.outputLimit || run.termination != SeenProven || !run.exitedCleanly {
        Observe(External(id), if run.termination == SeenProven then SeenFailed else SeenUnknown);
        UnprovenIsUnsafe(record, External(id));
        return false;
      }
      Observe(External(id), run.termination);
      return true;
    }

    /** cleanupExternalResources: stops at the first resource that is not proven gone. */
    method CleanupExternalResources(runs: string -> CleanupRun) returns (safe: bool)
      requires Valid()
      modifies this`record, this`nextId
      ensures Valid()
      ensures safe <==> Releasable(old(record), resources, runs)
      ensures safe ==> Released(record, resources)
      ensures Released(old(record), resources) ==> record == old(record)
      ensures !safe ==> !CleanupSafe(record.status)
      ensures Keeps(old(record), record)
      ensures safe && ProcessesProven(old(record)) ==> ProcessesProven(record)
    {
      var i := 0;
      while i < |resources|
        invariant 0 <= i <= |resources| && Valid() && Releasing(old(record), record, resources, i, runs)
      {
        if resources[i].active {
          ghost var before := record;
          var ok := CleanupResource(resources[i].id, runs(resources[i].id));
          if !ok {
            NotReleasable(old(record), before, record, resources, i, runs);
            return false;
          }
          ReleasesMore(old(record), before, record, resources, i, runs);
        } else {
          assert resources[..i + 1] == resources[..i] + [resources[i]];
        }
        i := i + 1;
      }
      assert resources[..i] == resources;
      return true;
    }

    /** Removes the worktree's directory; nothing but the worktree itself may be unresolved then. */
    method RemoveDirectory(throws: bool) returns (ok: bool)
      requires RemovalSafe(record)
      modifies this`removed
      ensures ok <==> !throws
      ensures removed == (old(removed) || ok)
    {
      ok := !throws;
      if ok { removed := true; }
    }

    /** Removes the directory and records the outcome. */
    method RemoveAndObserve(throws: bool) returns (ok: bool)
      requires Valid() && Registered(record.requirements, WORKTREE) && RemovalSafe(record)
      modifies this`record, this`nextId, this`removed
      ensures Valid() && RemovalSafe(record) && record.requirements == old(record.requirements)
      ensures ok <==> !throws
      ensures removed == (old(removed) || ok)
      ensures forall s :: s != WORKTREE ==> State(record.evidence, s) == State(old(record.evidence), s)
      ensures if ok then IsProven(record, WORKTREE) else record.status == CleanupFailed
      ensures ok && OneWorkspace(record) ==> record.status == Proven
    {
      ok := RemoveDirectory(throws);
      Observe(WORKTREE, if ok then SeenProven else SeenFailed);
      RemovalDecides(record);
    }

    /**
     The worktree's end when the execution is over and the contract does not retain it.  It is removed only when every
     active external resource is proven gone and every other requirement's newest evidence is a proof; an attempt whose
     worktree was not removed never counts as clean.
     */
    method EndWorkspace(runs: string -> CleanupRun, removeThrows: bool) returns (ok: bool)
      requires Valid() && Registered(record.requirements, WORKTREE)
      modifies this`record, this`nextId, this`removed
      ensures Valid() && removed == (old(removed) || ok)
      ensures ok ==> RemovalSafe(record) && IsProven(record, WORKTREE) && Released(record, resources)
      ensures !ok ==> !CleanupSafe(record.status)
      ensures Released(old(record), resources) && RemovalSafe(old(record)) ==> (ok <==> !removeThrows)
    {
      var released := CleanupExternalResources(runs);
      var safe := WorkspaceRemovalSafe(record);
      ghost var before := record;
      if released && safe {
        ok := RemoveAndObserve(removeThrows);
        if ok { assert Released(before, resources); }
      } else {
        ok := false;
        Observe(WORKTREE, SeenFailed);
        UnprovenIsUnsafe(record, WORKTREE);
      }
    }

    /**
     releaseAttemptExternalResources, the check before a retry: it passes exactly if the attempt has ended and
     everything required is proven; it changes nothing if all active resources were proven gone before.
     */
    method ReleaseExternalResources(runs: string -> CleanupRun) returns (ok: bool)
      requires Valid()
      modifies this`record, this`nextId
      ensures Valid()
      ensures ok <==> AttemptTerminal(status) && CleanupSafe(record.status)
      ensures !AttemptTerminal(status) || Released(old(record), resources) ==> record == old(record)
    {
      if !AttemptTerminal(status) { return false; }
      ok := CleanupExternalResources(runs);
      ok := ok && CleanupSafe(record.status);
    }

    /** removeAttemptWorkspace up to the registration of the worktree; `goes` says that the removal is to be tried. */
    method StartRemoval(runs: string -> CleanupRun) returns (ok: bool, goes: bool)
      requires Valid()
      modifies this`record, this`nextId
      ensures Valid() && (goes ==> ok && workspace == Some(true))
      ensures !AttemptTerminal(status) ==> !ok && record == old(record)
      ensures goes ==> RemovalSafe(record) && Registered(record.requirements, WORKTREE) && !IsProven(record, WORKTREE)
      ensures goes ==> !CleanupSafe(record.status)
      ensures AttemptTerminal(status) && !ok ==> !CleanupSafe(record.status)
      ensures ok && !goes && workspace == Some(true) ==> RemovalSafe(record) && IsProven(record, WORKTREE)
      ensures Released(old(record), resources) ==> record == old(record) || (goes && WorktreeAdded(old(record), record))
      ensures Released(old(record), resources) && CleanupSafe(old(record.status)) && goes ==> record.status == Pending
      ensures Released(old(record), resources) && RemovalSafe(old(record)) && AttemptTerminal(status) ==>
                ok && (goes <==> workspace == Some(true) && !IsProven(old(record), WORKTREE))
    {
      if !AttemptTerminal(status) { return false, false; }
      var released := CleanupExternalResources(runs);
      if !released { return false, false; }
      if workspace != Some(true) { return true, false; }
      var safe := WorkspaceRemovalSafe(record);
      if !safe {
        NotRemovableIsUnsafe(record);
        return false, false;
      }
      var known := LatestEvidence(record.evidence, WORKTREE);
      if known.Some? && known.value.seen == SeenProven { return true, false; }
      ghost var before := record;
      Require(WORKTREE, None);
      WorktreeRegistered(before, record);
      UnprovenIsUnsafe(record, WORKTREE);
      return true, true;
    }

    /**
     removeAttemptWorkspace.  The directory is removed only with every other requirement proven, and then the
     worktree is proven too; a removal that fails, or is refused for an ended attempt, leaves the record unclean.
     */
    method RemoveAttemptWorkspace(runs: string -> CleanupRun, removeThrows: bool) returns (ok: bool)
      requires Valid()
      modifies this`record, this`nextId, this`removed
      ensures Valid()
      ensures !AttemptTerminal(status) ==> !ok && record == old(record) && removed == old(removed)
      ensures removed && !old(removed) ==> ok && RemovalSafe(record) && IsProven(record, WORKTREE)
      ensures removed && !old(removed) && OneWorkspace(record) ==> record.status == Proven
      ensures AttemptTerminal(status) && !ok ==> !CleanupSafe(record.status) && removed == old(removed)
      ensures ok && workspace == Some(true) ==> RemovalSafe(record) && IsProven(record, WORKTREE)
      ensures workspace != Some(true) ==> removed == old(removed)
      ensures Released(old(record), resources) ==> OnlyWorktree(old(record), record)
      ensures Released(old(record), resources) && RemovalSafe(old(record)) && AttemptTerminal(status)
              && workspace == Some(true) && !IsProven(old(record), WORKTREE) ==>
                (ok <==> !removeThrows) && removed == (old(removed) || ok)
    {
      var goes;
      ok, goes := StartRemoval(runs);
      if goes { ok := RemoveAndObserve(removeThrows); }
    }

    /** Records for every unresolved process tree whether the kernel has ended it. */
    method CloseProcesses(probe: nat -> bool)
      requires Valid()
      modifies this`record, this`nextId
      ensures Valid() && record.requirements == old(record.requirements)
      ensures ProcessesProven(record) <==> KernelClosed(old(record), probe)
      ensures forall s: Subject :: s.kind != ProcessTree ==> State(record.evidence, s) == State(old(record.evidence), s)
    {
      var cleanup := record;
      var i := 0;
      while i < |cleanup.requirements|
        invariant 0 <= i <= |cleanup.requirements| && Valid() && record.requirements == cleanup.requirements
        invariant forall k :: 0 <= k < i && cleanup.requirements[k].subject.kind == ProcessTree ==>
                    (IsProven(record, cleanup.requirements[k].subject) <==>
                       Closed(cleanup, cleanup.requirements[k], probe))
        invariant forall k :: i <= k < |cleanup.requirements| ==>
                    State(record.evidence, cleanup.requirements[k].subject) ==
                        State(cleanup.evidence, cleanup.requirements[k].subject)
        invariant forall s: Subject :: s.kind != ProcessTree ==> State(record.evidence, s) == State(cleanup.evidence, s)
      {
        var r := cleanup.requirements[i];
        assert forall k :: 0 <= k < |cleanup.requirements| && k != i ==> cleanup.requirements[k].subject != r.subject;
        if Unresolved(cleanup, r) {
          assert Registered(record.requirements, r.subject);
          Observe(r.subject, if Contained(r.guardian) && !Alive(r, probe) then SeenProven else SeenUnknown);
        }
        i := i + 1;
      }
    }

    /** What becomes of the process trees of an interrupted attempt. */
    method SettleProcesses(world: World) returns (processes: Processes)
      requires Valid() && world.readable
      modifies this`record, this`nextId
      ensures Valid()
      ensures processes == GuardianAlive <==> GuardianStays(old(record), guardian, world)
      ensures processes == Gone <==> ProcessesGone(old(record), guardian, world)
      ensures processes == Gone ==> ProcessesProven(record) && HasProcess(record)
      ensures forall s: Subject :: s.kind != ProcessTree ==>
                && State(record.evidence, s) == State(old(record.evidence), s)
                && (Registered(record.requirements, s) <==> Registered(old(record.requirements), s))
    {
      if !HasProcess(record) && guardian.Some? { Require(LEGACY, guardian); }
      if !HasProcess(record) { return Open; }
      if SomeAlive(record, world.first) && SomeAlive(record, world.second) { return GuardianAlive; }
      CloseProcesses(world.last);
      processes := if ProcessesProven(record) then Gone else Open;
    }

    /** The end of recovery, once the process trees and resources are gone. */
    method EndRecovered(world: World) returns (verdict: Verdict)
      requires Valid() && ProcessesProven(record) && HasProcess(record) && Released(record, resources)
      modifies this
      ensures Valid() && status == Failed && verification == Ineligible
      ensures ProcessesProven(record) && HasProcess(record) && Released(record, resources)
      ensures verdict == if CleanupSafe(record.status) then SafeToRetry else Unclear
      ensures verdict == SafeToRetry && workspace == Some(true) && !world.retain ==> IsProven(record, WORKTREE)
      ensures removed && !old(removed) ==> !world.retain && RemovalSafe(record) && IsProven(record, WORKTREE)
    {
      status, verification := Failed, Ineligible;
      if workspace.Some? && !world.retain {
        ghost var before := record;
        var ok := RemoveAttemptWorkspace(world.runs, world.removeThrows);
        OnlyWorktreeKeeps(before, record, resources);
        if !ok { return Unclear; }
      }
      if !CleanupSafe(record.status) { return Unclear; }
      return SafeToRetry;
    }

    /**
     recoverInterruptedAttempt on an attempt that was launched.  It is ended exactly if all its process trees and
     resources are gone; it is safe to retry exactly if it was ended and its record is clean; and its worktree is
     removed only if it was ended, the contract does not retain it and everything else is proven.
     */
    method RecoverLaunched(world: World) returns (verdict: Verdict)
      requires Valid() && status in {Preparing, AttemptRunning, Verifying}
      modifies this
      ensures Valid() && verdict != Terminal
      ensures status == Failed <==> Endable(old(record), guardian, resources, world)
      ensures if status == Failed then verification == Ineligible && ProcessesProven(record)
              && Released(record, resources)
              else status == old(status) && verification == old(verification)
      ensures verdict == SafeToRetry <==> status == Failed && CleanupSafe(record.status)
      ensures verdict == SafeToRetry ==> HasProcess(record)
      ensures verdict == SafeToRetry && workspace == Some(true) && !world.retain ==> IsProven(record, WORKTREE)
      ensures verdict == StillRunning <==> world.readable && GuardianStays(old(record), guardian, world)
      ensures removed && !old(removed) ==>
                status == Failed && !world.retain && RemovalSafe(record) && IsProven(record, WORKTREE)
    {
      if !world.readable { return Unclear; }
      var processes := SettleProcesses(world);
      ghost var settled := record;
      if processes == GuardianAlive { return StillRunning; }
      if processes == Open { return Unclear; }
      var released := CleanupExternalResources(world.runs);
      ReleasableSame(old(record), settled, resources, world.runs);
      if !released { return Unclear; }
      HasProcessStays(settled, record);
      verdict := EndRecovered(world);
    }

    /**
     recoverInterruptedAttempt.  An attempt is safe to retry exactly if this call ended it and, unless it was never
     launched, the newest evidence of every requirement is a proof.
     */
    method RecoverInterruptedAttempt(world: World) returns (verdict: Verdict)
      requires Valid()
      modifies this
      ensures Valid()
      ensures verdict == Terminal <==> AttemptTerminal(old(status))
      ensures verdict == SafeToRetry <==>
                && !AttemptTerminal(old(status)) && AttemptTerminal(status)
                && (old(status) in {Reserved, Claimed} || AllProven(record))
      ensures verdict == StillRunning <==>
                && old(status) in {Preparing, AttemptRunning, Verifying} && world.readable
                && GuardianStays(old(record), guardian, world)
      ensures AttemptTerminal(old(status)) ==>
                status == old(status) && verification == old(verification) && record == old(record)
      ensures old(status) in {Reserved, Claimed} ==>
                status == Cancelled && verification == Ineligible && record == old(record)
      ensures old(status) in {Preparing, AttemptRunning, Verifying} ==>
                if Endable(old(record), guardian, resources, world)
                then status == Failed && verification == Ineligible && ProcessesProven(record)
                    && Released(record, resources)
                else status == old(status) && verification == old(verification)
      ensures removed && !old(removed) ==>
                status == Failed && !world.retain && RemovalSafe(record) && IsProven(record, WORKTREE)
    {
      if AttemptTerminal(status) { return Terminal; }
      if status in {Reserved, Claimed} {
        status, verification := Cancelled, Ineligible;
        return SafeToRetry;
      }
      StatusCases(status);
      verdict := RecoverLaunched(world);
      ProvenMeansAll(record.requirements, record.evidence);
    }
  }
}
