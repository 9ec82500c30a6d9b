/**
 Claim, launch, recovery and cancellation of one attempt by any number of tasks in any number of processes.  Tasks
 read the manifest, decide, and commit a compare-and-swap on exactly the manifest they read; anything may happen in
 between, and a process may die at any point.
 */
module Launch {
  import opened Common

  type Task = nat
  type Process = nat
  type OpId = nat

  datatype Manifest = Manifest(revision: nat, status: AttemptStatus, op: Option<OpId>, owner: Option<Process>)

  datatype PC =
    | Idle
    // claimReservedAttempt: manifest read and checked, claim not yet committed
    | Claiming(seen: Manifest, op: OpId)
    // launchClaimedAttempt handed the manifest to executeAttempt, which has not yet committed `preparing`
    | Launched(seen: Manifest)
    // executeAttempt after its `preparing` commit: workspace, setup and worker run only here
    | Executing(seen: Manifest)
    // the error path of executeAttempt, with the last manifest it holds
    | Failing(seen: Manifest)
    // recoverInterruptedAttempt or cancelReservedAttempt: manifest read, end not yet committed
    | Ending(seen: Manifest)

  /**
   History: who won a claim commit and a `preparing` commit, whether the attempt was ended before it was launched,
   and the statuses it has had.
   */
  datatype History = History(claims: seq<Task>, starts: seq<Task>, withdrawn: bool, statuses: seq<AttemptStatus>)

  datatype State = State(manifest: Manifest, home: map<Task, Process>, pcs: map<Task, PC>, dead: set<Process>,
                         history: History)

  datatype Action =
    | ReadToClaim(task: Task, op: OpId)
    | ReadToLaunch(task: Task, op: OpId)
    | ReadToEnd(task: Task)
    | CommitClaim(task: Task)
    | CommitPreparing(task: Task)
    | CommitProgress(task: Task, next: AttemptStatus)
    | CommitFailure(task: Task, next: AttemptStatus)
    | CommitEnd(task: Task)
    | Throw(task: Task)
    | Die(process: Process)

  predicate Initial(s: State) {
    && s.manifest.status == Reserved && s.manifest.owner == None
    && s.history == History([], [], false, [Reserved]) && s.dead == {}
    && s.home.Keys == s.pcs.Keys
    && (forall t :: t in s.pcs ==> s.pcs[t] == Idle)
  }

  predicate Alive(s: State, t: Task) {
    t in s.pcs && t in s.home && s.home[t] !in s.dead
  }

  function Become(s: State, t: Task, pc: PC): State {
    s.(pcs := s.pcs[t := pc])
  }

  predicate Unstarted(status: AttemptStatus) {
    status == Reserved || status == Claimed
  }

  /** What a commit adds to the history. */
  function Record(h: History, t: Task, before: AttemptStatus, after: AttemptStatus): History {
    History(if before == Reserved && after == Claimed then h.claims + [t] else h.claims,
            if before == Claimed && after == Preparing then h.starts + [t] else h.starts,
            h.withdrawn || (Unstarted(before) && AttemptTerminal(after)),
            h.statuses + [after])
  }

  /** transitionAttempt: the commit happens only over exactly the expected manifest, along the transition table. */
  function Swap(s: State, t: Task, seen: Manifest, next: Manifest, won: PC, lost: PC): State {
    if s.manifest != seen || !AttemptMay(seen.status, next.status) then Become(s, t, lost)
    else Become(s, t, won).(manifest := next.(revision := seen.revision + 1),
                            history := Record(s.history, t, seen.status, next.status))
  }

  /** The position of an execution after a commit of its own. */
  function After(next: Manifest, seen: Manifest): PC {
    if AttemptTerminal(next.status) then Idle else Executing(next.(revision := seen.revision + 1))
  }

  function Apply(s: State, a: Action): State {
    if a.Die? then s.(dead := s.dead + {a.process})
    else if !Alive(s, a.task) then s
    else
      var t, pc, m := a.task, s.pcs[a.task], s.manifest;
      match a
      case ReadToClaim(_, op) =>
        if pc.Idle? && m.status == Reserved && (m.op == None || m.op == Some(op)) then Become(s, t, Claiming(m, op))
        else s
      case ReadToLaunch(_, op) =>
        if pc.Idle? && m.status == Claimed && m.op == Some(op) && m.owner == Some(s.home[t])
        then Become(s, t, Launched(m)) else s
      case ReadToEnd(_) =>
        if pc.Idle? && !AttemptTerminal(m.status) then Become(s, t, Ending(m)) else s
      case CommitClaim(_) =>
        if pc.Claiming?
        then Swap(s, t, pc.seen, pc.seen.(status := Claimed, op := Some(pc.op), owner := Some(s.home[t])), Idle, Idle)
        else s
      case CommitPreparing(_) =>
        if pc.Launched? then
          var next := pc.seen.(status := Preparing);
          Swap(s, t, pc.seen, next, After(next, pc.seen), Failing(pc.seen))
        else s
      case CommitProgress(_, status) =>
        if pc.Executing? then
          var next := pc.seen.(status := status);
          Swap(s, t, pc.seen, next, After(next, pc.seen), Failing(pc.seen))
        else s
      case CommitFailure(_, status) =>
        if pc.Failing? && AttemptTerminal(status) then Swap(s, t, pc.seen, pc.seen.(status := status), Idle, Idle)
        else s
      case CommitEnd(_) =>
        if pc.Ending? then
          var status := if pc.seen.status in {Reserved, Claimed} then Cancelled else Failed;
          Swap(s, t, pc.seen, pc.seen.(status := status), Idle, Idle)
        else s
      case Throw(_) =>
        Become(s, t, match pc
                     case Launched(seen) => Failing(seen)
                     case Executing(seen) => Failing(seen)
                     case Failing(seen) => Failing(seen)
                     case _ => Idle)
  }

  function Run(s: State, actions: seq<Action>): State {
    if actions == [] then s else Apply(Run(s, actions[..|actions| - 1]), actions[|actions| - 1])
  }

  // ----- invariant -----

  predicate LegalPath(statuses: seq<AttemptStatus>) {
    forall i :: 1 <= i < |statuses| ==> AttemptMay(statuses[i - 1], statuses[i])
  }

  /** What the history says, given where the manifest stands. */
  predicate HistoryOk(s: State) {
    var h := s.history;
    && |h.claims| <= 1 && |h.starts| <= 1
    && (s.manifest.status == Reserved ==> h.claims == [])
    && (Unstarted(s.manifest.status) ==> h.starts == [] && !h.withdrawn)
    && (h.withdrawn ==> AttemptTerminal(s.manifest.status) && h.starts == [])
    && (s.manifest.status == Claimed ==>
          |h.claims| == 1 && h.claims[0] in s.home && s.manifest.owner == Some(s.home[h.claims[0]]))
    && (h.starts != [] ==> |h.claims| == 1 && h.claims[0] in s.home && h.starts[0] in s.home
                           && s.home[h.starts[0]] == s.home[h.claims[0]])
    && h.statuses != [] && h.statuses[|h.statuses| - 1] == s.manifest.status && LegalPath(h.statuses)
  }

  predicate TaskOk(s: State, t: Task, pc: PC) {
    match pc
    case Claiming(seen, _) => seen.status == Reserved
    case Launched(seen) => seen.status == Claimed && t in s.home && seen.owner == Some(s.home[t])
    case Executing(seen) => s.history.starts == [t] && !Unstarted(seen.status)
    case _ => true
  }

  predicate Inv(s: State) {
    && s.home.Keys == s.pcs.Keys
    && HistoryOk(s)
    && (forall t :: t in s.pcs ==> TaskOk(s, t, s.pcs[t]))
  }

  // ----- preservation -----

  lemma BecomeKeeps(s: State, t: Task, pc: PC)
    requires Inv(s) && t in s.pcs && TaskOk(s, t, pc)
    ensures Inv(Become(s, t, pc))
  {
  }

  /** A commit keeps the history in order; only a start needs a fact about its author. */
  lemma SwapKeeps(s: State, t: Task, seen: Manifest, next: Manifest, won: PC, lost: PC)
    requires Inv(s) && t in s.pcs && TaskOk(s, t, lost)
    requires next.owner == seen.owner || (seen.status == Reserved && next.status == Claimed)
    requires next.status == Claimed ==> seen.status == Reserved && next.owner == Some(s.home[t])
    requires next.status == Preparing && seen.status == Claimed ==> seen.owner == Some(s.home[t])
    requires won.Idle? || (won.Executing? && !Unstarted(won.seen.status) && next.status == won.seen.status
                           && (s.history.starts == [t] || (seen.status == Claimed && next.status == Preparing)))
    ensures Inv(Swap(s, t, seen, next, won, lost))
  {
    var s' := Swap(s, t, seen, next, won, lost);
    if s.manifest != seen || !AttemptMay(seen.status, next.status) {
      BecomeKeeps(s, t, lost);
    } else {
      assert HistoryOk(s');
      forall u | u in s'.pcs ensures TaskOk(s', u, s'.pcs[u]) {
        assert TaskOk(s, u, s.pcs[u]);
      }
    }
  }

  lemma CommitKeeps(s: State, a: Action)
    requires Inv(s) && (a.CommitClaim? || a.CommitPreparing? || a.CommitProgress? || a.CommitFailure? || a.CommitEnd?)
    ensures Inv(Apply(s, a))
  {
    if Alive(s, a.task) {
      var t, pc := a.task, s.pcs[a.task];
      assert TaskOk(s, t, pc);
      match a
      case CommitClaim(_) =>
        if pc.Claiming? {
          SwapKeeps(s, t, pc.seen, pc.seen.(status := Claimed, op := Some(pc.op), owner := Some(s.home[t])), Idle,
                    Idle);
        }
      case CommitPreparing(_) =>
        if pc.Launched? {
          var next := pc.seen.(status := Preparing);
          SwapKeeps(s, t, pc.seen, next, After(next, pc.seen), Failing(pc.seen));
        }
      case CommitProgress(_, status) => if pc.Executing? { ProgressKeeps(s, t, status); }
      case CommitFailure(_, status) =>
        if pc.Failing? && AttemptTerminal(status) {
          SwapKeeps(s, t, pc.seen, pc.seen.(status := status), Idle, Idle);
        }
      case CommitEnd(_) =>
        if pc.Ending? {
          var status := if pc.seen.status in {Reserved, Claimed} then Cancelled else Failed;
          SwapKeeps(s, t, pc.seen, pc.seen.(status := status), Idle, Idle);
        }
    }
  }

  lemma ProgressKeeps(s: State, t: Task, status: AttemptStatus)
    requires Inv(s) && Alive(s, t) && s.pcs[t].Executing?
    ensures Inv(Apply(s, CommitProgress(t, status)))
  {
    var pc := s.pcs[t];
    var next := pc.seen.(status := status);
    assert TaskOk(s, t, pc);
    if Unstarted(status) {
      assert !AttemptMay(pc.seen.status, status);
      BecomeKeeps(s, t, Failing(pc.seen));
    } else {
      SwapKeeps(s, t, pc.seen, next, After(next, pc.seen), Failing(pc.seen));
    }
  }

  lemma ApplyKeeps(s: State, a: Action)
    requires Inv(s)
    ensures Inv(Apply(s, a))
  {
    if a.CommitClaim? || a.CommitPreparing? || a.CommitProgress? || a.CommitFailure? || a.CommitEnd? {
      CommitKeeps(s, a);
    } else if a.Die? {
      var s' := Apply(s, a);
      forall u | u in s'.pcs ensures TaskOk(s', u, s'.pcs[u]) {
        assert TaskOk(s, u, s.pcs[u]);
      }
    } else if Alive(s, a.task) {
      var pc := Apply(s, a).pcs[a.task];
      assert TaskOk(s, a.task, s.pcs[a.task]);
      if Apply(s, a) != s { BecomeKeeps(s, a.task, pc); }
    }
  }

  lemma {:induction false} RunKeeps(s: State, actions: seq<Action>)
    requires Initial(s)
    ensures Inv(Run(s, actions))
  {
    if actions != [] {
      RunKeeps(s, actions[..|actions| - 1]);
      ApplyKeeps(Run(s, actions[..|actions| - 1]), actions[|actions| - 1]);
    }
  }

  // ----- what holds over every run -----

  /**
   In every interleaving: at most one claim and at most one start is ever committed; the start was made in the
   process that made the claim; only its author is ever past the `preparing` commit; and the statuses of the
   attempt follow the transition table.
   */
  lemma AtMostOneStart(s: State, actions: seq<Action>, s': State)
    requires Initial(s) && s' == Run(s, actions)
    ensures |s'.history.claims| <= 1 && |s'.history.starts| <= 1
    ensures s'.history.starts != [] ==>
              && s'.history.claims != []
              && s'.history.starts[0] in s'.home && s'.history.claims[0] in s'.home
              && s'.home[s'.history.starts[0]] == s'.home[s'.history.claims[0]]
    ensures forall t :: t in s'.pcs && s'.pcs[t].Executing? ==> s'.history.starts == [t]
    ensures LegalPath(s'.history.statuses)
  {
    RunKeeps(s, actions);
    forall t | t in s'.pcs && s'.pcs[t].Executing? ensures s'.history.starts == [t] {
      assert TaskOk(s', t, s'.pcs[t]);
    }
  }

  /** Once recovery or cancellation ended the attempt before its launch, no execution ever starts, now or later. */
  lemma WithdrawnNeverStarts(s: State, first: seq<Action>, later: seq<Action>)
    requires Initial(s) && Run(s, first).history.withdrawn
    ensures var s' := Run(s, first + later);
            s'.history.starts == [] && forall t :: t in s'.pcs ==> !s'.pcs[t].Executing?
  {
    WithdrawnStays(s, first, later);
    RunKeeps(s, first + later);
    var s' := Run(s, first + later);
    forall t | t in s'.pcs ensures !s'.pcs[t].Executing? {
      assert TaskOk(s', t, s'.pcs[t]);
    }
  }

  lemma {:induction false} WithdrawnStays(s: State, first: seq<Action>, later: seq<Action>)
    requires Run(s, first).history.withdrawn
    ensures Run(s, first + later).history.withdrawn
  {
    if later == [] {
      assert first + later == first;
    } else {
      var n := |later| - 1;
      WithdrawnStays(s, first, later[..n]);
      assert (first + later)[..|first + later| - 1] == first + later[..n];
    }
  }

  // ----- operations -----

  /** A task that has read the manifest may claim it. */
  predicate OperationOk(pc: PC) {
    pc.Claiming? ==> pc.seen.op == None || pc.seen.op == Some(pc.op)
  }

  predicate AllOperationsOk(s: State) {
    forall t :: t in s.pcs ==> OperationOk(s.pcs[t])
  }

  lemma StepKeepsOperation(s: State, a: Action)
    requires AllOperationsOk(s)
    ensures AllOperationsOk(Apply(s, a))
    ensures s.manifest.op.Some? ==> Apply(s, a).manifest.op == s.manifest.op
  {
    if !a.Die? && Alive(s, a.task) { assert OperationOk(s.pcs[a.task]); }
  }

  lemma {:induction false} RunOperationsOk(s: State, actions: seq<Action>)
    requires AllOperationsOk(s)
    ensures AllOperationsOk(Run(s, actions))
    ensures s.manifest.op.Some? ==> Run(s, actions).manifest.op == s.manifest.op
  {
    if actions != [] {
      RunOperationsOk(s, actions[..|actions| - 1]);
      StepKeepsOperation(Run(s, actions[..|actions| - 1]), actions[|actions| - 1]);
    }
  }

  lemma {:induction false} RunConcat(s: State, first: seq<Action>, later: seq<Action>)
    ensures Run(s, first + later) == Run(Run(s, first), later)
  {
    if later == [] {
      assert first + later == first;
    } else {
      assert (first + later)[..|first + later| - 1] == first + later[..|later| - 1];
      RunConcat(s, first, later[..|later| - 1]);
    }
  }

  /** The operation that an attempt was reserved by, or that first claimed it, stays its operation. */
  lemma OperationFixed(s: State, first: seq<Action>, later: seq<Action>)
    requires Initial(s) && Run(s, first).manifest.op.Some?
    ensures Run(s, first + later).manifest.op == Run(s, first).manifest.op
  {
    RunOperationsOk(s, first);
    RunOperationsOk(Run(s, first), later);
    RunConcat(s, first, later);
  }

  /** A task that acts for some other operation than this one, or for none. */
  predicate Foreign(a: Action, op: OpId) {
    (a.ReadToClaim? ==> a.op != op) && (a.ReadToLaunch? ==> a.op != op)
  }

  /**
   An attempt reserved by one operation is never claimed and never started by calls made for others, in whatever
   order these interleave.
   */
  lemma {:induction false} ForeignOperationNeverStarts(s: State, op: OpId, actions: seq<Action>)
    requires Initial(s) && s.manifest.op == Some(op)
    requires forall i :: 0 <= i < |actions| ==> Foreign(actions[i], op)
    ensures var s' := Run(s, actions);
            && s'.history.claims == [] && s'.history.starts == [] && s'.manifest.op == Some(op)
            && (forall t :: t in s'.pcs ==> !s'.pcs[t].Claiming? && !s'.pcs[t].Launched? && !s'.pcs[t].Executing?)
  {
    if actions != [] {
      var n := |actions| - 1;
      ForeignOperationNeverStarts(s, op, actions[..n]);
      RunOperationsOk(s, actions);
      assert Foreign(actions[n], op);
    }
  }

  // ----- undisturbed -----

  /** A claim and a launch for the right operation, with nobody in between, start the attempt. */
  lemma ClaimAndLaunchStarts(s: State, actions: seq<Action>, before: State, t: Task, op: OpId)
    requires Initial(s) && before == Run(s, actions) && Alive(before, t) && before.pcs[t].Idle?
    requires before.manifest.status == Reserved && (before.manifest.op == None || before.manifest.op == Some(op))
    ensures var claimed := Apply(Apply(before, ReadToClaim(t, op)), CommitClaim(t));
            var started := Apply(Apply(claimed, ReadToLaunch(t, op)), CommitPreparing(t));
            && claimed.manifest.status == Claimed && claimed.manifest.op == Some(op)
            && claimed.manifest.owner == Some(before.home[t]) && claimed.history.claims == [t]
            && started.manifest == claimed.manifest.(status := Preparing, revision := claimed.manifest.revision + 1)
            && started.history.starts == [t] && started.pcs[t] == Executing(started.manifest)
  {
    RunKeeps(s, actions);
  }

  /**
   An undisturbed recovery or cancellation ends an open attempt: cancelled if it was not launched, failed otherwise.
   */
  lemma EndingEnds(s: State, t: Task)
    requires Alive(s, t) && s.pcs[t].Idle? && !AttemptTerminal(s.manifest.status)
    ensures var after := Apply(Apply(s, ReadToEnd(t)), CommitEnd(t));
            && after.manifest.status == (if Unstarted(s.manifest.status) then Cancelled else Failed)
            && after.manifest.op == s.manifest.op && after.pcs == s.pcs[t := Idle]
            && (after.history.withdrawn <==> s.history.withdrawn || Unstarted(s.manifest.status))
  {
    StatusCases(s.manifest.status);
    var seen := Apply(s, ReadToEnd(t));
    assert seen.pcs[t := Idle] == s.pcs[t := Idle];
  }
}
