/**
 The execution of a launched attempt.  Every foreign step (Git, workers, commands, probes, files) is a parameter: it
 may return any result or throw.  Only the manifest updates themselves are assumed to succeed when the transition
 table allows them.
 */
module Execution {
  import opened Common

  datatype CommandStatus = CommandPassed | CommandFailed | CommandTimedOut | CommandCancelled | PolicyDenied

  /** What happens when one command of a sequence is run. */
  datatype Command = Ran(status: CommandStatus) | CommandThrows

  datatype Phase = NotConfigured | PhasePending | PhasePassed | PhaseFailed | PhaseCancelled | PhaseDenied | PhaseNotRun

  datatype Lineage = NoLineage | Composes | CannotCompose

  datatype WorkerResult = WorkerResult(cancelled: bool, timedOut: bool, exitCode: int)

  /**
   What each step does.  A `...Throws` flag covers the foreign calls of that step; `...Updates` counts the manifest
   updates made by its callbacks; the deadline flags are the state of the deadline signal when it is consulted.
   */
  datatype Steps = Steps(
    workspaceThrows: bool, monitorThrows: bool, recordThrows: bool,
    lineage: Lineage, rejectionWriteThrows: bool,
    setup: seq<Command>, setupUpdates: nat, setupThrows: bool, repositoryClean: bool, setupDeadline: bool,
    setupWriteThrows: bool,
    profileThrows: bool, profileComplete: bool,
    workerUpdates: nat, workerThrows: bool, worker: WorkerResult, workerDeadline: bool,
    captureThrows: bool, captureWriteThrows: bool, scopeFailed: bool, workerWriteThrows: bool,
    acceptance: seq<Command>, acceptanceUpdates: nat, acceptanceThrows: bool, proposalStable: bool,
    finalWriteThrows: bool,
    finalDeadline: bool, aborted: bool, catchDeadline: bool)

  /** How a part of the execution was left. */
  datatype Flow = Continues | Threw | Terminated

  // ----- command sequences -----

  predicate AllPass(commands: seq<Command>) {
    forall i :: 0 <= i < |commands| ==> commands[i] == Ran(CommandPassed)
  }

  /** The first command that did not pass, which ends the sequence. */
  function FirstBad(commands: seq<Command>): (bad: Option<Command>)
    ensures bad.None? <==> AllPass(commands)
    ensures bad.Some? ==> bad.value in commands && bad.value != Ran(CommandPassed)
  {
    if commands == [] then None
    else if commands[0] != Ran(CommandPassed) then Some(commands[0])
    else
      assert commands == [commands[0]] + commands[1..];
      FirstBad(commands[1..])
  }

  /** runCommandSequence: stops after the first command that did not pass. */
  method RunCommands(commands: seq<Command>) returns (evidence: seq<CommandStatus>, threw: bool)
    ensures threw <==> FirstBad(commands) == Some(CommandThrows)
    ensures !threw ==> PhaseStatus(evidence) == PhaseOf(FirstBad(commands))
    ensures forall i :: 0 <= i < |evidence| ==> i < |commands| && commands[i] == Ran(evidence[i])
    ensures !threw && FirstBad(commands).None? ==> |evidence| == |commands|
  {
    evidence, threw := [], false;
    var i := 0;
    assert commands[0..] == commands;
    while i < |commands|
      invariant 0 <= i <= |commands| && |evidence| == i && FirstBad(commands) == FirstBad(commands[i..])
      invariant forall k :: 0 <= k < i ==> evidence[k] == CommandPassed && commands[k] == Ran(CommandPassed)
    {
      assert commands[i..][1..] == commands[i + 1..];
      if commands[i].CommandThrows? { return evidence, true; }
      evidence := evidence + [commands[i].status];
      if commands[i].status != CommandPassed {
        assert evidence[i] == commands[i].status;
        return;
      }
      i := i + 1;
    }
  }

  predicate AllPassed(evidence: seq<CommandStatus>) {
    forall i :: 0 <= i < |evidence| ==> evidence[i] == CommandPassed
  }

  function PhaseStatus(evidence: seq<CommandStatus>): Phase {
    if exists i :: 0 <= i < |evidence| && evidence[i] == CommandCancelled then PhaseCancelled
    else if exists i :: 0 <= i < |evidence| && evidence[i] == PolicyDenied then PhaseDenied
    else if AllPassed(evidence) then PhasePassed
    else PhaseFailed
  }

  /** What a phase amounts to, given the command that ended it. */
  function PhaseOf(bad: Option<Command>): Phase {
    match bad
    case None => PhasePassed
    case Some(Ran(CommandCancelled)) => PhaseCancelled
    case Some(Ran(PolicyDenied)) => PhaseDenied
    case _ => PhaseFailed
  }

  // ----- what the outcome should be -----

  predicate PreparationThrows(e: Steps) {
    e.workspaceThrows || e.monitorThrows || e.recordThrows
  }

  predicate SetupThrows(e: Steps) {
    e.setup != [] && (FirstBad(e.setup) == Some(CommandThrows) || e.setupThrows || e.setupWriteThrows)
  }

  /** Setup is not configured, or all its commands passed and left the repository clean. */
  predicate SetupPasses(e: Steps) {
    e.setup == [] || (AllPass(e.setup) && e.repositoryClean)
  }

  predicate WorkerFails(e: Steps) {
    e.worker.cancelled || e.worker.timedOut || e.worker.exitCode != 0
  }

  predicate VerificationThrows(e: Steps) {
    e.finalWriteThrows
    || (!e.scopeFailed && e.acceptance != [] && (FirstBad(e.acceptance) == Some(CommandThrows) || e.acceptanceThrows))
  }

  /** Acceptance is not configured, or all its commands passed and left the proposal as it was. */
  predicate AcceptancePasses(e: Steps) {
    e.acceptance == [] || (AllPass(e.acceptance) && e.proposalStable)
  }

  /** What keeps an execution from its end, if anything: the first that applies decides. */
  datatype Obstacle = Nothing | Exception | Rejection | SetupFailure | CaptureFailure | WorkerFailure

  function ObstacleOf(e: Steps): Obstacle {
    if PreparationThrows(e) then Exception
    else if e.lineage == CannotCompose then (if e.rejectionWriteThrows then Exception else Rejection)
    else if SetupThrows(e) then Exception
    else if !SetupPasses(e) then SetupFailure
    else if e.profileThrows || e.workerThrows then Exception
    else if e.captureThrows then (if e.captureWriteThrows then Exception else CaptureFailure)
    else if WorkerFails(e) then (if e.workerWriteThrows then Exception else WorkerFailure)
    else if VerificationThrows(e) then Exception
    else Nothing
  }

  /** The end that each obstacle leads to; cancellation counts only if the deadline has not passed. */
  function FinalStatus(e: Steps): AttemptStatus {
    match ObstacleOf(e)
    case Exception => if e.aborted && !e.catchDeadline then Cancelled else Failed
    case Rejection => NeedsInput
    case SetupFailure => if SetupCancelled(e) && !e.setupDeadline then Cancelled else Failed
    case CaptureFailure => Failed
    case WorkerFailure => if e.worker.cancelled && !e.workerDeadline then Cancelled else Failed
    case Nothing => if !AcceptanceCancelled(e) then Completed else if e.finalDeadline then Failed else Cancelled
  }

  predicate SetupCancelled(e: Steps) {
    e.repositoryClean && FirstBad(e.setup) == Some(Ran(CommandCancelled))
  }

  predicate AcceptanceCancelled(e: Steps) {
    !e.scopeFailed && FirstBad(e.acceptance) == Some(Ran(CommandCancelled))
  }

  /** Nothing stood in the way and every check of the proposal passed. */
  predicate Flawless(e: Steps) {
    ObstacleOf(e) == Nothing && !e.scopeFailed && AcceptancePasses(e) && e.profileComplete
  }

  /** What eligibility needs, spelled out: no step threw, and every check passed. */
  predicate AllWell(e: Steps) {
    && !e.workspaceThrows && !e.monitorThrows && !e.recordThrows && e.lineage != CannotCompose
    && (e.setup == [] || (AllPass(e.setup) && e.repositoryClean && !e.setupThrows && !e.setupWriteThrows))
    && !e.profileThrows && e.profileComplete && !e.workerThrows && !e.captureThrows
    && !e.worker.cancelled && !e.worker.timedOut && e.worker.exitCode == 0
    && !e.scopeFailed
    && (e.acceptance == [] || (AllPass(e.acceptance) && e.proposalStable && !e.acceptanceThrows))
    && !e.finalWriteThrows
  }

  lemma FlawlessMeans(e: Steps)
    ensures Flawless(e) <==> AllWell(e)
    ensures Flawless(e) ==> FinalStatus(e) == Completed
  {
  }

  // ----- the ends of an execution, by how far it came -----

  predicate Prepared(e: Steps) {
    !e.workspaceThrows && !e.monitorThrows && !e.recordThrows
  }

  predicate Composed(e: Steps) {
    Prepared(e) && e.lineage != CannotCompose
  }

  predicate SetUp(e: Steps) {
    Composed(e) && (e.setup == [] || (AllPass(e.setup) && e.repositoryClean && !e.setupThrows && !e.setupWriteThrows))
  }

  predicate WorkerRan(e: Steps) {
    SetUp(e) && !e.profileThrows && !e.workerThrows
  }

  predicate WorkerSucceeded(e: Steps) {
    WorkerRan(e) && !e.captureThrows && !e.worker.cancelled && !e.worker.timedOut && e.worker.exitCode == 0
  }

  /** Some step that was reached threw. */
  predicate CutShort(e: Steps) {
    || e.workspaceThrows || e.monitorThrows || e.recordThrows
    || (Prepared(e) && e.lineage == CannotCompose && e.rejectionWriteThrows)
    || (Composed(e) && e.setup != []
        && (FirstBad(e.setup) == Some(CommandThrows) || e.setupThrows || e.setupWriteThrows))
    || (SetUp(e) && (e.profileThrows || e.workerThrows))
    || (WorkerRan(e) && e.captureThrows && e.captureWriteThrows)
    || (WorkerRan(e) && !e.captureThrows && !WorkerSucceeded(e) && e.workerWriteThrows)
    || (WorkerSucceeded(e) && e.finalWriteThrows)
    || (WorkerSucceeded(e) && !e.scopeFailed && e.acceptance != []
        && (FirstBad(e.acceptance) == Some(CommandThrows) || e.acceptanceThrows))
  }

  /** Acceptance was cut off by cancellation. */
  predicate AcceptanceStopped(e: Steps) {
    WorkerSucceeded(e) && !e.scopeFailed && FirstBad(e.acceptance) == Some(Ran(CommandCancelled))
  }

  /** Where each status comes from; the deadline turns a cancellation into a failure. */
  predicate EndsRightly(e: Steps, status: AttemptStatus) {
    && (status == Completed <==> !CutShort(e) && WorkerSucceeded(e) && !AcceptanceStopped(e))
    && (status == NeedsInput <==> !CutShort(e) && Prepared(e) && e.lineage == CannotCompose)
    && (status == Cancelled <==>
          || (CutShort(e) && e.aborted && !e.catchDeadline)
          || (!CutShort(e) && Composed(e) && !SetUp(e) && e.repositoryClean
              && FirstBad(e.setup) == Some(Ran(CommandCancelled)) && !e.setupDeadline)
          || (!CutShort(e) && WorkerRan(e) && !e.captureThrows && e.worker.cancelled && !e.workerDeadline)
          || (!CutShort(e) && AcceptanceStopped(e) && !e.finalDeadline))
    && (status !in {Completed, NeedsInput, Cancelled} ==> status == Failed)
  }

  lemma FinalStatusMeans(e: Steps)
    ensures EndsRightly(e, FinalStatus(e))
  {
  }

  predicate LegalPath(statuses: seq<AttemptStatus>) {
    forall i :: 1 <= i < |statuses| ==> AttemptMay(statuses[i - 1], statuses[i])
  }

  class AttemptExecution {
    var status: AttemptStatus
    var verification: VerificationStatus
    var finished: bool
    ghost var statuses: seq<AttemptStatus>

    constructor ()
      ensures Valid() && status == Claimed && verification == NotRun && statuses == [Claimed]
    {
      status, verification, finished, statuses := Claimed, NotRun, false, [Claimed];
    }

    /**
     finishedAt is set exactly on terminal manifests, only a completed one is eligible, and every update was legal.
     */
    ghost predicate Valid() reads this {
      && statuses != [] && statuses[|statuses| - 1] == status && LegalPath(statuses)
      && (finished <==> AttemptTerminal(status))
      && (verification == Eligible ==> status == Completed)
      && (AttemptTerminal(status) ==> verification in {Eligible, Ineligible})
    }

    /** A manifest update that keeps the attempt going. */
    method Update(next: AttemptStatus, verification': VerificationStatus)
      requires Valid() && AttemptMay(status, next) && !AttemptTerminal(next) && verification' != Eligible
      modifies this
      ensures Valid() && status == next && verification == verification' && statuses == old(statuses) + [next]
    {
      status, verification := next, verification';
      statuses := statuses + [next];
    }

    /** A manifest update that ends the attempt. */
    method Finish(next: AttemptStatus, eligible: bool)
      requires Valid() && AttemptMay(status, next) && AttemptTerminal(next) && (eligible ==> next == Completed)
      modifies this
      ensures Valid() && status == next && verification == (if eligible then Eligible else Ineligible)
      ensures statuses == old(statuses) + [next]
    {
      status, verification, finished := next, if eligible then Eligible else Ineligible, true;
      statuses := statuses + [next];
    }

    /** The updates made by callbacks of a running step: guardian identities and external resources. */
    method CallbackUpdates(count: nat)
      requires Valid() && status in {Preparing, AttemptRunning, Verifying} && verification != Eligible
      modifies this
      ensures Valid() && status == old(status) && verification == old(verification)
    {
      for i := 0 to count
        invariant Valid() && status == old(status) && verification == old(verification)
      {
        Update(status, verification);
      }
    }

    /** Workspace, monitor and first record; `created` says whether a workspace exists. */
    method Prepare(e: Steps) returns (flow: Flow, created: bool)
      requires Valid() && status == Claimed && verification == NotRun
      modifies this
      ensures Valid() && status == Preparing && verification != Eligible
      ensures flow == if PreparationThrows(e) then Threw else Continues
      ensures created <==> !e.workspaceThrows
    {
      Update(Preparing, NotRun);
      if e.workspaceThrows { return Threw, false; }
      if e.monitorThrows { return Threw, true; }
      Update(Preparing, VerificationRunning);
      if e.recordThrows { return Threw, true; }
      return Continues, true;
    }

    /** Composition of the proposal baseline. */
    method Compose(e: Steps) returns (flow: Flow)
      requires Valid() && status == Preparing && verification != Eligible
      modifies this
      ensures Valid() && verification != Eligible
      ensures flow == if e.lineage != CannotCompose then Continues
                      else if e.rejectionWriteThrows then Threw else Terminated
      ensures status == if flow == Terminated then NeedsInput else Preparing
    {
      match e.lineage
      case NoLineage => return Continues;
      case Composes =>
        Update(Preparing, verification);
        return Continues;
      case CannotCompose =>
        if e.rejectionWriteThrows { return Threw; }
        Finish(NeedsInput, false);
        return Terminated;
    }

    /** Setup commands. */
    method Setup(e: Steps) returns (flow: Flow)
      requires Valid() && status == Preparing && verification != Eligible
      modifies this
      ensures Valid() && verification != Eligible
      ensures flow == if SetupThrows(e) then Threw else if SetupPasses(e) then Continues else Terminated
      ensures status == if flow != Terminated then Preparing
                        else if SetupCancelled(e) && !e.setupDeadline then Cancelled else Failed
    {
      if e.setup == [] { return Continues; }
      var evidence, threw := RunCommands(e.setup);
      CallbackUpdates(e.setupUpdates);
      if threw || e.setupThrows { return Threw; }
      var phase := if e.repositoryClean then PhaseStatus(evidence) else PhaseFailed;
      if e.setupWriteThrows { return Threw; }
      if phase == PhasePassed { return Continues; }
      Finish(if phase == PhaseCancelled && !e.setupDeadline then Cancelled else Failed, false);
      return Terminated;
    }

    /** The worker and the capture of its proposal, up to its exit status. */
    method Work(e: Steps) returns (flow: Flow)
      requires Valid() && status == Preparing && verification != Eligible
      modifies this
      ensures Valid() && verification != Eligible
      ensures flow == Continues <==> !e.profileThrows && !e.workerThrows && !e.captureThrows && !WorkerFails(e)
      ensures flow == Threw <==>
                || e.profileThrows || e.workerThrows
                || (if e.captureThrows then e.captureWriteThrows else WorkerFails(e) && e.workerWriteThrows)
      ensures flow == Continues ==> status == Verifying
      ensures flow == Terminated ==>
                status == if !e.captureThrows && e.worker.cancelled && !e.workerDeadline then Cancelled else Failed
      ensures flow == Threw ==> status in {Preparing, AttemptRunning}
    {
      if e.profileThrows { return Threw; }
      Update(AttemptRunning, verification);
      CallbackUpdates(e.workerUpdates);
      if e.workerThrows { return Threw; }
      if e.captureThrows {
        if e.captureWriteThrows { return Threw; }
        Finish(Failed, false);
        return Terminated;
      }
      var failed := e.worker.cancelled || e.worker.timedOut || e.worker.exitCode != 0;
      if failed && e.workerWriteThrows { return Threw; }
      if e.worker.cancelled {
        Finish(if e.workerDeadline then Failed else Cancelled, false);
        return Terminated;
      }
      if e.worker.timedOut || e.worker.exitCode != 0 {
        Finish(Failed, false);
        return Terminated;
      }
      Update(Verifying, verification);
      return Continues;
    }

    /** Scope, acceptance commands and the final verdict. */
    method Verify(e: Steps) returns (flow: Flow)
      requires Valid() && status == Verifying && verification != Eligible
      modifies this
      ensures Valid()
      ensures flow == if VerificationThrows(e) then Threw else Terminated
      ensures flow == Threw ==> status == Verifying && verification != Eligible
      ensures flow == Terminated ==>
                status == if !AcceptanceCancelled(e) then Completed else if e.finalDeadline then Failed else Cancelled
      ensures verification == Eligible <==>
                flow == Terminated && !e.scopeFailed && AcceptancePasses(e) && e.profileComplete
    {
      var phase, eligible := PhaseNotRun, false;
      if e.scopeFailed {
        phase, eligible := PhaseNotRun, false;
      } else if e.acceptance != [] {
        var evidence, threw := RunCommands(e.acceptance);
        CallbackUpdates(e.acceptanceUpdates);
        if threw || e.acceptanceThrows { return Threw; }
        phase := PhaseStatus(evidence);
        eligible := phase == PhasePassed && e.proposalStable && e.profileComplete;
      } else {
        phase, eligible := NotConfigured, e.profileComplete;
      }
      if e.finalWriteThrows { return Threw; }
      var cancelled := phase == PhaseCancelled;
      Finish(if cancelled && e.finalDeadline then Failed else if cancelled then Cancelled else Completed, eligible);
      return Terminated;
    }

    /** The body of the try block. */
    method Attempt(e: Steps) returns (flow: Flow, created: bool)
      requires Valid() && status == Claimed && verification == NotRun
      modifies this
      ensures Valid() && flow == if ObstacleOf(e) == Exception then Threw else Terminated
      ensures flow == Terminated ==> AttemptTerminal(status) && status == FinalStatus(e)
      ensures flow == Threw ==> status in {Preparing, AttemptRunning, Verifying}
      ensures verification == Eligible <==> Flawless(e)
      ensures created <==> !e.workspaceThrows
    {
      flow, created := Prepare(e);
      if flow != Continues { return; }
      flow := Compose(e);
      if flow != Continues { return; }
      flow := Setup(e);
      if flow != Continues { return; }
      flow := Work(e);
      if flow != Continues { return; }
      flow := Verify(e);
    }

    /**
     executeAttempt: whatever the steps return or throw, the attempt ends terminal with finishedAt set, through
     allowed transitions only, each status for its own reasons: if a step threw, cancelled exactly if the attempt was
     aborted before its deadline and failed otherwise; it is eligible exactly if nothing threw and every check passed,
     and then it is completed.
     */
    method Execute(e: Steps) returns (created: bool)
      requires Valid() && status == Claimed && verification == NotRun
      modifies this
      ensures Valid() && AttemptTerminal(status) && finished && LegalPath(statuses)
      ensures EndsRightly(e, status)
      ensures verification == if AllWell(e) then Eligible else Ineligible
      ensures verification == Eligible ==> status == Completed
      ensures created <==> !e.workspaceThrows
    {
      var flow;
      flow, created := Attempt(e);
      if flow == Threw {
        Finish(if e.aborted && !e.catchDeadline then Cancelled else Failed, false);
      }
      FlawlessMeans(e);
      FinalStatusMeans(e);
    }
  }
}
