/**
 Any number of apply calls of one approved queue action, interleaved with other writers and with crashes at any
 point.  The lease that an apply call also takes is not needed for what is proved here and is left out.
 */
module ApplyOnce {
  import opened Common
  import opened Completion
  import opened Reconciler
  import opened Repair

  type Task = nat

  datatype PC =
    | Idle
    // the replay check found no result
    | Applying
    // the evidence token matched the proposal; the queue mutation is not yet committed
    | Executing(seen: Item)
    // the action has taken effect, or was found to have; the result is not yet written
    | Recording

  /** The records the token covers, the result file, and the history of mutations committed by the action. */
  datatype State = State(item: Item, attempt: Attempt, result: bool, pcs: map<Task, PC>, committed: seq<Item>)

  datatype Action =
    | Start(task: Task)
    | Read(task: Task)
    | Commit(task: Task)
    | WriteResult(task: Task)
    | Crash(task: Task)
    | OtherWriter(next: Item)
    | AttemptChange(changed: Attempt)

  /** The proposal that the current records would give, which is what the recomputed token stands for. */
  function Current(p: Proposal, item: Item, attempt: Attempt): Proposal
    requires !p.RecoverAttempt?
  {
    match p
    case ResetItem(_) => ResetItem(item)
    case QuarantineItem(_) => QuarantineItem(item)
    case BindItem(_, _) => BindItem(item, attempt)
    case SynchronizeItem(_, _, cleanup) =>
      SynchronizeItem(item, attempt, match attempt.cleanup case Some(now) => now case None => cleanup)
  }

  /** runtimeActionPostcondition for the queue actions. */
  predicate Postcondition(p: Proposal, item: Item, attempt: Attempt)
    requires !p.RecoverAttempt?
  {
    var cleared := item.op.None? && item.attempt.None? && item.completion.None?;
    match p
    case ResetItem(_) => item.status == Queued && cleared
    case QuarantineItem(_) => item.status == ItemNeedsInput && cleared
    case BindItem(proposed, bound) => item.status == Running && item.attempt == Some(bound.id) && item.op == proposed.op
    case SynchronizeItem(_, _, _) =>
      AttemptTerminal(attempt.status) && attempt.cleanup.Some? && QueueMatches(item, attempt, attempt.cleanup.value)
  }

  function Become(s: State, t: Task, pc: PC): State {
    s.(pcs := s.pcs[t := pc])
  }

  function Apply(s: State, p: Proposal, a: Action): State
    requires !p.RecoverAttempt?
  {
    match a
    case OtherWriter(next) => s.(item := next.(job := s.item.job, revision := s.item.revision + 1))
    case AttemptChange(changed) => s.(attempt := changed)
    case _ =>
      var t := a.task;
      if t !in s.pcs then s
      else
        match a
        case Start(_) => if s.pcs[t].Idle? && !s.result then Become(s, t, Applying) else s
        case Read(_) =>
          if !s.pcs[t].Applying? then s
          else if Current(p, s.item, s.attempt) == p then Become(s, t, Executing(s.item))
          else Become(s, t, if Postcondition(p, s.item, s.attempt) then Recording else Idle)
        case Commit(_) =>
          if !s.pcs[t].Executing? then s
          else if s.item != s.pcs[t].seen || !StoreAllows(p, s.item, Patched(p)) then Become(s, t, Idle)
          else Become(s, t, Recording).(item := Patched(p), committed := s.committed + [s.item])
        case WriteResult(_) => if s.pcs[t].Recording? then Become(s, t, Idle).(result := true) else s
        case Crash(_) => Become(s, t, Idle)
  }

  function Run(s: State, p: Proposal, actions: seq<Action>): State
    requires !p.RecoverAttempt?
  {
    if actions == [] then s else Apply(Run(s, p, actions[..|actions| - 1]), p, actions[|actions| - 1])
  }

  predicate Initial(s: State) {
    !s.result && s.committed == [] && forall t :: t in s.pcs ==> s.pcs[t].Idle?
  }

  predicate Inv(s: State, p: Proposal)
    requires !p.RecoverAttempt?
  {
    && |s.committed| <= 1
    && (s.committed != [] ==> s.committed[0] == p.item && s.item.revision > p.item.revision)
    && (forall t :: t in s.pcs && s.pcs[t].Executing? ==> s.pcs[t].seen == p.item)
  }

  lemma {:induction false} RunKeeps(s: State, p: Proposal, actions: seq<Action>)
    requires Initial(s) && !p.RecoverAttempt?
    ensures Inv(Run(s, p, actions), p)
  {
    if actions != [] { RunKeeps(s, p, actions[..|actions| - 1]); }
  }

  /**
   However many calls apply the approved action, whatever others write and wherever calls crash, its mutation is
   committed at most once, over exactly the record the owner approved, and never again once it has been.
   */
  lemma AppliedAtMostOnce(s: State, p: Proposal, actions: seq<Action>, s': State)
    requires Initial(s) && !p.RecoverAttempt? && s' == Run(s, p, actions)
    ensures |s'.committed| <= 1
    ensures s'.committed != [] ==> s'.committed == [p.item] && s'.item.revision > p.item.revision
    ensures s'.item.revision > p.item.revision ==> Current(p, s'.item, s'.attempt) != p
  {
    RunKeeps(s, p, actions);
  }

  /** Right after the commit of a well-derived action the postcondition holds. */
  lemma CommitIsRecognised(s: State, p: Proposal, w: World, t: Task)
    requires WellFormed(w) && !p.RecoverAttempt? && Derived(p, w)
    requires t in s.pcs && s.pcs[t] == Executing(p.item) && s.item == p.item && Current(p, s.item, s.attempt) == p
    ensures var s' := Apply(s, p, Commit(t));
            s'.committed == s.committed + [p.item] && Postcondition(p, s'.item, s'.attempt)
  {
    PatchedIsLighter(w, p);
    if p.SynchronizeItem? { ProjectionMeaning(Projection(p.attempt, p.cleanup).result); }
  }

  /** A step of an apply call, as opposed to another writer's. */
  predicate OfCall(a: Action) {
    !a.OtherWriter? && !a.AttemptChange?
  }

  /** Once committed, the action is committed, and further calls leave the records alone. */
  lemma {:induction false} CallsLeaveRecords(s: State, p: Proposal, calls: seq<Action>)
    requires !p.RecoverAttempt? && Inv(s, p) && s.committed != []
    requires forall i :: 0 <= i < |calls| ==> OfCall(calls[i])
    ensures var s' := Run(s, p, calls);
            && Inv(s', p) && s'.item == s.item && s'.attempt == s.attempt
            && s'.committed == s.committed && s'.pcs.Keys == s.pcs.Keys
  {
    if calls != [] {
      var before, last := calls[..|calls| - 1], calls[|calls| - 1];
      CallsLeaveRecords(s, p, before);
      assert OfCall(last);
      CallLeavesRecords(Run(s, p, before), p, last);
    }
  }

  lemma CallLeavesRecords(s: State, p: Proposal, a: Action)
    requires !p.RecoverAttempt? && Inv(s, p) && s.committed != [] && OfCall(a)
    ensures var s' := Apply(s, p, a);
            && Inv(s', p) && s'.item == s.item && s'.attempt == s.attempt
            && s'.committed == s.committed && s'.pcs.Keys == s.pcs.Keys
  {
  }

  /** A call that finds the postcondition records the result. */
  lemma CallRecords(s: State, p: Proposal, u: Task)
    requires !p.RecoverAttempt? && Inv(s, p) && s.committed != [] && Postcondition(p, s.item, s.attempt)
    requires u in s.pcs && s.pcs[u].Idle?
    ensures Apply(Apply(Apply(s, p, Start(u)), p, Read(u)), p, WriteResult(u)).result
  {
    var s1 := Apply(s, p, Start(u));
    if !s.result {
      assert Current(p, s1.item, s1.attempt) != p;
      assert Apply(s1, p, Read(u)) == Become(s1, u, Recording);
    }
  }

  /**
   A crash between the commit and the writing of its result loses nothing: in every run, after the commit, however calls
   then interleave and crash, the action stays committed once, and any call that runs to its end leaves the result
   recorded.
   */
  lemma CrashedApplyIsRecorded(s: State, p: Proposal, w: World, actions: seq<Action>, t: Task, calls: seq<Action>,
                               u: Task, before: State, after: State)
    requires Initial(s) && WellFormed(w) && !p.RecoverAttempt? && Derived(p, w) && before == Run(s, p, actions)
    requires t in before.pcs && before.pcs[t].Executing? && before.item == before.pcs[t].seen
    requires Current(p, before.item, before.attempt) == p
    requires forall i :: 0 <= i < |calls| ==> OfCall(calls[i])
    requires after == Run(Apply(before, p, Commit(t)), p, calls) && u in after.pcs && after.pcs[u].Idle?
    ensures after.committed == [p.item]
    ensures Apply(Apply(Apply(after, p, Start(u)), p, Read(u)), p, WriteResult(u)).result
  {
    RunKeeps(s, p, actions + [Commit(t)]);
    assert (actions + [Commit(t)])[..|actions|] == actions;
    RunKeeps(s, p, actions);
    CommitIsRecognised(before, p, w, t);
    CallsLeaveRecords(Apply(before, p, Commit(t)), p, calls);
    CallRecords(after, p, u);
  }

  // ----- one call alone -----

  /** A call alone: the check for an earlier result, the check of the records, the mutation, the result. */
  function Alone(s: State, p: Proposal, t: Task): State
    requires !p.RecoverAttempt?
  {
    Apply(Apply(Apply(Apply(s, p, Start(t)), p, Read(t)), p, Commit(t)), p, WriteResult(t))
  }

  /** An undisturbed call of a proposal that the records still bear out commits its mutation and records the result. */
  lemma FreshProposalIsApplied(s: State, p: Proposal, w: World, t: Task)
    requires WellFormed(w) && !p.RecoverAttempt? && Derived(p, w) && t in s.pcs && s.pcs[t].Idle? && !s.result
    requires s.item == p.item && Current(p, s.item, s.attempt) == p
    ensures var s' := Alone(s, p, t);
            && s'.item == Patched(p) && s'.committed == s.committed + [p.item] && s'.result
            && Postcondition(p, s'.item, s'.attempt) && s'.pcs == s.pcs
  {
    var s2 := Apply(Apply(s, p, Start(t)), p, Read(t));
    assert s2.pcs[t] == Executing(p.item);
    CommitIsRecognised(s2, p, w, t);
    assert Alone(s, p, t).pcs == s.pcs;
  }

  /** A call of a proposal that the records no longer bear out, and that has not been applied, changes nothing. */
  lemma StaleProposalIsRefused(s: State, p: Proposal, t: Task)
    requires !p.RecoverAttempt? && t in s.pcs && s.pcs[t].Idle?
    requires s.result || (Current(p, s.item, s.attempt) != p && !Postcondition(p, s.item, s.attempt))
    ensures Alone(s, p, t) == s
  {
    var s1 := Apply(s, p, Start(t));
    assert s.result ==> s1 == s;
    assert s.pcs[t := Applying][t := Idle] == s.pcs;
    assert Apply(s1, p, Read(t)) == s;
  }
}
