/**
 The dispatcher's startup recovery as functions of the state a crash left, and the proof that they are runs of the
 protocol in module Dispatch that settle every interrupted item.
 */
module StartupRecovery {
  import opened Common
  import opened Completion
  import opened Dispatch
  import opened DispatchSafety
  import opened DispatchPaths

  /** What the conductor finds when it recovers an attempt that had been launched. */
  datatype Finding =
    | Stays(cleanup: CleanupStatus)   // a guardian is alive, or process cleanup is unresolved
    | Ends(cleanup: CleanupStatus)    // the attempt is ended, with this cleanup status

  type Findings = AttemptId -> Finding

  datatype Disposition = WasTerminal | SafeToRetryNow | Unresolved

  type Grouping = map<(JobId, OpId), seq<AttemptId>>

  predicate Distinct<T(==)>(s: seq<T>) {
    forall i :: 0 <= i < |s| ==> s[i] !in s[..i]
  }

  /** A listing without duplicates of exactly these keys. */
  ghost predicate Lists<T(!new)>(order: seq<T>, keys: set<T>) {
    (forall x :: x in order <==> x in keys) && Distinct(order)
  }

  // ----- what recovery makes of one record -----

  /** A dispatching item becomes queued if nothing was reserved, running if exactly one attempt was. */
  function Rebound(item: Item, matching: seq<AttemptId>): Item {
    if item.op.None? then item.(status := ItemNeedsInput)
    else if |matching| == 0 then item.(status := Queued, op := None, attempt := None)
    else if |matching| != 1 then item.(status := ItemNeedsInput)
    else item.(status := Running, attempt := Some(matching[0]))
  }

  /** The attempts reserved by the operation of a dispatching item. */
  function Reservations(byOperation: Grouping, job: JobId, item: Item): seq<AttemptId> {
    if item.op.Some? && (job, item.op.value) in byOperation then byOperation[(job, item.op.value)] else []
  }

  /** How recovery leaves an attempt. */
  function Recovered(attempt: Attempt, finding: Finding): Attempt {
    if AttemptTerminal(attempt.status) then attempt
    else if attempt.status in {Reserved, Claimed} then attempt.(status := Cancelled, verification := Ineligible)
    else match finding
      case Stays(cleanup) => attempt.(cleanup := cleanup)
      case Ends(cleanup) => attempt.(cleanup := cleanup, status := Failed, verification := Ineligible)
  }

  function DispositionOf(attempt: Attempt, finding: Finding): Disposition {
    if AttemptTerminal(attempt.status) then WasTerminal
    else if attempt.status in {Reserved, Claimed} then SafeToRetryNow
    else if finding.Ends? && CleanupSafe(finding.cleanup) then SafeToRetryNow
    else Unresolved
  }

  /** An active item whose attempt recovery has just dealt with. */
  function Settled(item: Item, disposition: Disposition, maxRetries: nat): Item {
    if disposition != SafeToRetryNow then item.(status := ItemNeedsInput)
    else if item.status == Cancelling then item.(status := ItemCancelled, op := None, completion := None)
    else if item.retries >= maxRetries then item.(status := ItemNeedsInput)
    else item.(status := Queued, op := None, attempt := None, completion := None, retries := item.retries + 1)
  }

  predicate Active(item: Item) {
    item.status in {Running, Cancelling}
  }

  predicate Interrupted(item: Item) {
    item.status == Dispatching || Active(item)
  }

  // ----- the three loops as functions -----

  function BindStep(s: State, job: JobId, byOperation: Grouping): State {
    if !Is(s, job, Dispatching) then s
    else Write(s, job, Rebound(s.items[job], Reservations(byOperation, job, s.items[job])))
  }

  function BindAll(s: State, order: seq<JobId>, byOperation: Grouping): State {
    if order == [] then s
    else BindStep(BindAll(s, order[..|order| - 1], byOperation), order[|order| - 1], byOperation)
  }

  function EndAttempt(s: State, a: AttemptId, finding: Finding): State {
    if a !in s.attempts then s else s.(attempts := s.attempts[a := Recovered(s.attempts[a], finding)])
  }

  function SettleStep(s: State, job: JobId, findings: Findings): State {
    if !ActiveItem(s, job) || job !in s.maxRetries then s
    else
      var item := s.items[job];
      if item.attempt.None? then Write(s, job, item.(status := ItemNeedsInput))
      else if item.attempt.value !in s.attempts then s
      else
        var a := item.attempt.value;
        if TerminalAttempt(s, a) then Write(s, job, Projected(item, Result(s, a)))
        else Write(EndAttempt(s, a, findings(a)), job,
                   Settled(item, DispositionOf(s.attempts[a], findings(a)), s.maxRetries[job]))
  }

  function SettleAll(s: State, order: seq<JobId>, findings: Findings): State {
    if order == [] then s
    else SettleStep(SettleAll(s, order[..|order| - 1], findings), order[|order| - 1], findings)
  }

  /** Ends every listed attempt that was unfinished when listed and that no item refers to. */
  function EndOrphans(s: State, listing: seq<AttemptId>, listed: map<AttemptId, Attempt>, referenced: set<AttemptId>,
                      findings: Findings): State
  {
    if listing == [] then s
    else
      var s1 := EndOrphans(s, listing[..|listing| - 1], listed, referenced, findings);
      var a := listing[|listing| - 1];
      if a !in listed || AttemptTerminal(listed[a].status) || a in referenced then s1
      else EndAttempt(s1, a, findings(a))
  }

  function Referenced(items: map<JobId, Item>): set<AttemptId> {
    set job | job in items && items[job].attempt.Some? :: items[job].attempt.value
  }

  /** The whole recovery. */
  function RecoverAll(s: State, order: seq<JobId>, listing: seq<AttemptId>, byOperation: Grouping,
                      findings: Findings): State
  {
    var settled := SettleAll(BindAll(s, order, byOperation), order, findings);
    EndOrphans(settled, listing, s.attempts, Referenced(settled.items), findings)
  }

  // ----- readability -----

  /** A restarted dispatcher finds every record that it reads. */
  ghost predicate Readable(s: State) {
    && s.recovery == On && s.reading == map[] && s.vouched == map[]
    && (forall job :: job in s.items && s.items[job].attempt.Some? ==> s.items[job].attempt.value in s.attempts)
    && (forall job :: job in s.items ==> job in s.maxRetries)
    && (forall a :: a in s.attempts ==> LaunchedOk(s.attempts[a]))
  }

  /** The listed attempts grouped, without repetition, by the operation that reserved them. */
  ghost predicate Groups(byOperation: Grouping, attempts: map<AttemptId, Attempt>, listing: seq<AttemptId>) {
    && (forall key, a :: key in byOperation && a in byOperation[key] ==>
          a in listing && a in attempts && ReservedBy(attempts[a], key.0, key.1))
    && (forall a :: a in listing && a in attempts && attempts[a].op.Some? ==>
          Grouped(byOperation, a, attempts[a].job, attempts[a].op.value))
    && (forall key :: key in byOperation ==> Distinct(byOperation[key]))
  }

  predicate Grouped(byOperation: Grouping, a: AttemptId, job: JobId, op: OpId) {
    (job, op) in byOperation && a in byOperation[(job, op)]
  }

  lemma WriteReadable(s: State, job: JobId, next: Item)
    requires Readable(s) && job in s.items && (next.attempt.Some? ==> next.attempt.value in s.attempts)
    ensures Readable(Write(s, job, next))
  {
  }

  // ----- the first loop -----

  function BindAction(job: JobId, item: Item, matching: seq<AttemptId>): Action {
    if item.op.None? || |matching| > 1 then RecoverNeedsInput(job)
    else if |matching| == 0 then RecoverUnreserved(job)
    else RecoverBind(job, matching[0])
  }

  lemma BindStepIsAction(s: State, job: JobId, byOperation: Grouping, listing: seq<AttemptId>)
    requires Is(s, job, Dispatching) && s.recovery == On && s.vouched == map[]
    requires Lists(listing, s.attempts.Keys) && Groups(byOperation, s.attempts, listing)
    ensures BindStep(s, job, byOperation) ==
            Apply(s, BindAction(job, s.items[job], Reservations(byOperation, job, s.items[job])), false)
  {
    var item := s.items[job];
    var matching := Reservations(byOperation, job, item);
    var action := BindAction(job, item, matching);
    assert Apply(s, action, false) == ApplyRecovery(s, action);
    assert s.vouched - {job} == s.vouched;
    if item.op.Some? && |matching| == 1 {
      assert matching[0] in byOperation[(job, item.op.value)];
    }
  }

  lemma BindStepReadable(s: State, job: JobId, byOperation: Grouping, listing: seq<AttemptId>)
    requires Readable(s) && Groups(byOperation, s.attempts, listing)
    ensures Readable(BindStep(s, job, byOperation))
  {
    if Is(s, job, Dispatching) {
      var matching := Reservations(byOperation, job, s.items[job]);
      if |matching| == 1 { assert matching[0] in matching; }
      WriteReadable(s, job, Rebound(s.items[job], matching));
    }
  }

  lemma BindStepReaches(s: State, job: JobId, byOperation: Grouping, listing: seq<AttemptId>)
    requires s.recovery == On && s.vouched == map[]
    requires Lists(listing, s.attempts.Keys) && Groups(byOperation, s.attempts, listing)
    ensures Leads(s, BindStep(s, job, byOperation), false)
  {
    if Is(s, job, Dispatching) {
      BindStepIsAction(s, job, byOperation, listing);
      LeadsOne(s, BindAction(job, s.items[job], Reservations(byOperation, job, s.items[job])), false);
    } else {
      LeadsSelf(s, false);
    }
  }

  /** What the first loop makes of an item. */
  function AfterBinding(item: Item, job: JobId, byOperation: Grouping): (bound: Item)
    ensures bound.status != Dispatching
  {
    if item.status != Dispatching then item
    else Rebound(item, Reservations(byOperation, job, item)).(revision := item.revision + 1)
  }

  lemma BindStepEffect(s: State, job: JobId, byOperation: Grouping)
    requires job in s.items
    ensures BindStep(s, job, byOperation) == s.(items := s.items[job := AfterBinding(s.items[job], job, byOperation)])
  {
    if s.items[job].status != Dispatching { assert s.items == s.items[job := s.items[job]]; }
  }

  /** The first loop takes every listed item out of dispatching and leaves everything else alone. */
  lemma {:induction false} BindAllEffect(s: State, order: seq<JobId>, byOperation: Grouping)
    requires forall job :: job in order ==> job in s.items
    ensures var s' := BindAll(s, order, byOperation);
            && s' == s.(items := s'.items) && s'.items.Keys == s.items.Keys
            && (forall job :: job in s.items ==>
                  s'.items[job] == if job in order then AfterBinding(s.items[job], job, byOperation) else s.items[job])
  {
    if order != [] {
      var before, job := order[..|order| - 1], order[|order| - 1];
      assert order == before + [job];
      BindAllEffect(s, before, byOperation);
      BindStepEffect(BindAll(s, before, byOperation), job, byOperation);
    }
  }

  /** The first loop is a run and keeps the state readable. */
  lemma {:induction false} BindAllRuns(s: State, order: seq<JobId>, byOperation: Grouping, listing: seq<AttemptId>)
    requires forall job :: job in order ==> job in s.items
    requires Readable(s) && Lists(listing, s.attempts.Keys) && Groups(byOperation, s.attempts, listing)
    ensures Readable(BindAll(s, order, byOperation)) && Leads(s, BindAll(s, order, byOperation), false)
  {
    if order == [] {
      LeadsSelf(s, false);
    } else {
      var before, job := order[..|order| - 1], order[|order| - 1];
      BindAllRuns(s, before, byOperation, listing);
      BindAllEffect(s, before, byOperation);
      var s1 := BindAll(s, before, byOperation);
      BindStepReadable(s1, job, byOperation, listing);
      BindStepReaches(s1, job, byOperation, listing);
      LeadsTrans(s, s1, BindStep(s1, job, byOperation), false);
    }
  }

  // ----- the second loop -----

  /** Attempts only change the way recovery leaves them. */
  ghost predicate Advances(before: map<AttemptId, Attempt>, after: map<AttemptId, Attempt>, findings: Findings) {
    && after.Keys == before.Keys
    && forall a :: a in before ==> after[a] == before[a] || after[a] == Recovered(before[a], findings(a))
  }

  /** Recovering twice is recovering once. */
  lemma RecoveredTwice(attempt: Attempt, finding: Finding)
    ensures Recovered(Recovered(attempt, finding), finding) == Recovered(attempt, finding)
  {
  }

  lemma AdvancesTrans(first: map<AttemptId, Attempt>, second: map<AttemptId, Attempt>, third: map<AttemptId, Attempt>,
                      findings: Findings)
    requires Advances(first, second, findings) && Advances(second, third, findings)
    ensures Advances(first, third, findings)
  {
    forall a | a in first ensures third[a] == first[a] || third[a] == Recovered(first[a], findings(a)) {
      RecoveredTwice(first[a], findings(a));
      assert second[a] == first[a] || second[a] == Recovered(first[a], findings(a));
    }
  }

  lemma EndAttemptReaches(s: State, a: AttemptId, finding: Finding)
    requires a in s.attempts && LaunchedOk(s.attempts[a]) && s.recovery == On
    ensures Leads(s, EndAttempt(s, a, finding), false)
  {
    var attempt := s.attempts[a];
    if AttemptTerminal(attempt.status) {
      assert s.attempts == s.attempts[a := attempt];
      LeadsSelf(s, false);
    } else if attempt.status in {Reserved, Claimed} {
      LeadsOne(s, RecoverAttempt(a), false);
    } else {
      var s1 := s.(attempts := s.attempts[a := attempt.(cleanup := finding.cleanup)]);
      StatusCases(attempt.status);
      assert Apply(s, CleanupChange(a, finding.cleanup), false) == ApplyCleanupChange(s, a, finding.cleanup) == s1;
      LeadsOne(s, CleanupChange(a, finding.cleanup), false);
      if finding.Ends? {
        LeadsOne(s1, RecoverAttempt(a), false);
        LeadsTrans(s, s1, ApplyRecoverAttempt(s1, a), false);
      }
    }
  }

  lemma EndAttemptReadable(s: State, a: AttemptId, finding: Finding)
    requires Readable(s)
    ensures Readable(EndAttempt(s, a, finding))
  {
  }

  lemma SeeTerminalReaches(s: State, job: JobId, a: AttemptId)
    requires ActiveItem(s, job) && s.recovery == On && s.reading == map[]
    requires s.items[job].attempt == Some(a) && TerminalAttempt(s, a)
    ensures Leads(s, s.(recovery := Finishing(job, a)), false)
  {
    var s1 := s.(reading := map[job := a]);
    assert Apply(s, RecoverRead(job), false) == ApplyRecoverRead(s, job) == s1;
    LeadsOne(s, RecoverRead(job), false);
    assert s1.reading - {job} == map[];
    assert Apply(s1, RecoverSeeTerminal(job), false) == ApplyRecoverSeeTerminal(s1, job);
    var s2 := Then(s, s1, RecoverSeeTerminal(job), false);
  }

  lemma ProjectIsAction(s: State, job: JobId, a: AttemptId, next: Item)
    requires job in s.items && s.recovery == On && a in s.attempts && next == Projected(s.items[job], Result(s, a))
    requires ItemMay(s.items[job].status, next.status)
    ensures ApplyRecoverFinish(s.(recovery := Finishing(job, a)), job, a) == Write(s, job, next)
  {
  }

  lemma ProjectReaches(s: State, job: JobId, a: AttemptId)
    requires ActiveItem(s, job) && s.recovery == On && TerminalAttempt(s, a)
    ensures Leads(s.(recovery := Finishing(job, a)), Write(s, job, Projected(s.items[job], Result(s, a))), false)
  {
    var s1 := s.(recovery := Finishing(job, a));
    ProjectionMeaning(Result(s, a));
    ProjectIsAction(s, job, a, Projected(s.items[job], Result(s, a)));
    assert Apply(s1, RecoverFinish, false) == ApplyRecoverFinish(s1, job, a);
    LeadsOne(s1, RecoverFinish, false);
  }

  lemma FinishReaches(s: State, job: JobId, a: AttemptId)
    requires ActiveItem(s, job) && s.recovery == On && s.reading == map[]
    requires s.items[job].attempt == Some(a) && TerminalAttempt(s, a)
    ensures Leads(s, Write(s, job, Projected(s.items[job], Result(s, a))), false)
  {
    SeeTerminalReaches(s, job, a);
    ProjectReaches(s, job, a);
    LeadsTrans(s, s.(recovery := Finishing(job, a)), Write(s, job, Projected(s.items[job], Result(s, a))), false);
  }

  lemma NeedsInputReaches(s: State, job: JobId)
    requires ActiveItem(s, job) && s.recovery == On && s.vouched == map[]
    ensures Leads(s, Write(s, job, s.items[job].(status := ItemNeedsInput)), false)
  {
    assert s.vouched - {job} == s.vouched;
    assert Apply(s, RecoverNeedsInput(job), false) == ApplyRecoverNeedsInput(s, job);
    LeadsOne(s, RecoverNeedsInput(job), false);
  }

  /** Recovery has just found the attempt of this item safe to retry. */
  function Vouching(s: State, job: JobId): State
    requires job in s.items
  {
    s.(vouched := map[job := s.items[job]])
  }

  function SettledAction(job: JobId, item: Item, maxRetries: nat): Action {
    if item.status == Cancelling then RecoverCancelled(job)
    else if item.retries >= maxRetries then RecoverNeedsInput(job)
    else RecoverRequeue(job)
  }

  lemma SettledIsAction(s: State, job: JobId)
    requires ActiveItem(s, job) && s.vouched == map[] && job in s.maxRetries
    ensures ApplySettling(Vouching(s, job), SettledAction(job, s.items[job], s.maxRetries[job])) ==
            Write(s, job, Settled(s.items[job], SafeToRetryNow, s.maxRetries[job]))
  {
    assert Vouching(s, job).vouched - {job} == map[];
  }

  lemma SettledReaches(s: State, job: JobId)
    requires ActiveItem(s, job) && s.recovery == On && s.vouched == map[] && job in s.maxRetries
    ensures Leads(Vouching(s, job), Write(s, job, Settled(s.items[job], SafeToRetryNow, s.maxRetries[job])), false)
  {
    var action := SettledAction(job, s.items[job], s.maxRetries[job]);
    SettledIsAction(s, job);
    assert Apply(Vouching(s, job), action, false) == ApplySettling(Vouching(s, job), action);
    LeadsOne(Vouching(s, job), action, false);
  }

  /** Recovery comes to vouch for the attempt of an item: by withdrawing it, or by ending it and finding it clean. */
  lemma VouchReaches(s: State, job: JobId, a: AttemptId, finding: Finding)
    requires Readable(s) && ActiveItem(s, job) && s.items[job].attempt == Some(a)
    requires a in s.attempts && DispositionOf(s.attempts[a], finding) == SafeToRetryNow
    ensures Leads(s, Vouching(EndAttempt(s, a, finding), job), false)
  {
    var s1 := EndAttempt(s, a, finding);
    if s.attempts[a].status in {Reserved, Claimed} {
      assert s.vouched[job := s.items[job]] == map[job := s.items[job]];
      assert Apply(s, RecoverWithdraw(job), false) == ApplyRecoverWithdraw(s, job);
      LeadsOne(s, RecoverWithdraw(job), false);
    } else {
      EndAttemptReaches(s, a, finding);
      assert s1.vouched[job := s1.items[job]] == map[job := s1.items[job]];
      assert Apply(s1, RecoverCheck(job), false) == ApplyRecoverCheck(s1, job);
      var s2 := Then(s, s1, RecoverCheck(job), false);
    }
  }

  lemma OpenSettleReaches(s: State, job: JobId, a: AttemptId, finding: Finding)
    requires Readable(s) && ActiveItem(s, job) && s.items[job].attempt == Some(a) && a in s.attempts
    requires !TerminalAttempt(s, a)
    ensures var settled := Settled(s.items[job], DispositionOf(s.attempts[a], finding), s.maxRetries[job]);
            Leads(s, Write(EndAttempt(s, a, finding), job, settled), false)
  {
    var s1 := EndAttempt(s, a, finding);
    var settled := Settled(s.items[job], DispositionOf(s.attempts[a], finding), s.maxRetries[job]);
    if DispositionOf(s.attempts[a], finding) == SafeToRetryNow {
      VouchReaches(s, job, a, finding);
      SettledReaches(s1, job);
      LeadsTrans(s, Vouching(s1, job), Write(s1, job, settled), false);
    } else {
      EndAttemptReaches(s, a, finding);
      NeedsInputReaches(s1, job);
      LeadsTrans(s, s1, Write(s1, job, settled), false);
    }
  }

  lemma SettleStepReaches(s: State, job: JobId, findings: Findings)
    requires Readable(s)
    ensures Leads(s, SettleStep(s, job, findings), false)
  {
    if SettleStep(s, job, findings) == s {
      LeadsSelf(s, false);
    } else if s.items[job].attempt.None? {
      NeedsInputReaches(s, job);
    } else {
      var a := s.items[job].attempt.value;
      if TerminalAttempt(s, a) {
        FinishReaches(s, job, a);
      } else {
        OpenSettleReaches(s, job, a, findings(a));
      }
    }
  }

  lemma SettleStepReadable(s: State, job: JobId, findings: Findings)
    requires Readable(s)
    ensures Readable(SettleStep(s, job, findings))
  {
    if ActiveItem(s, job) {
      var item := s.items[job];
      if item.attempt.None? {
        WriteReadable(s, job, item.(status := ItemNeedsInput));
      } else {
        var a := item.attempt.value;
        if TerminalAttempt(s, a) {
          WriteReadable(s, job, Projected(item, Result(s, a)));
        } else {
          EndAttemptReadable(s, a, findings(a));
          WriteReadable(EndAttempt(s, a, findings(a)), job,
                        Settled(item, DispositionOf(s.attempts[a], findings(a)), s.maxRetries[job]));
        }
      }
    }
  }

  /**
   What recovery may make of an active item: the projection of its finished attempt; a requeue within the retry
   budget or a completed cancellation, when the attempt it named is finished and clean; or needs-input.
   */
  predicate ItemSettled(before: Item, after: Item, attempts: map<AttemptId, Attempt>, maxRetries: nat) {
    && after.revision == before.revision + 1
    && (|| after == before.(status := ItemNeedsInput, revision := after.revision)
        || (&& before.attempt.Some? && before.attempt.value in attempts
            && var a := before.attempt.value; var attempt := attempts[a];
            && AttemptTerminal(attempt.status)
            && var result := Evidence(a, attempt.status, attempt.verification, attempt.cleanup);
            && (|| after == Projected(before, result).(revision := after.revision)
                || (&& (attempt.launched ==> CleanupSafe(attempt.cleanup))
                    && after == Settled(before, SafeToRetryNow, maxRetries).(revision := after.revision)))))
  }

  lemma SettledIsOver(before: Item, after: Item, attempts: map<AttemptId, Attempt>, maxRetries: nat)
    requires Active(before) && ItemSettled(before, after, attempts, maxRetries)
    ensures !Interrupted(after)
    ensures after.attempt.Some? ==> after.attempt == before.attempt
    ensures after.status == Queued ==> after.retries == before.retries + 1 <= maxRetries
  {
    if before.attempt.Some? && before.attempt.value in attempts {
      var a := before.attempt.value;
      ProjectionMeaning(Evidence(a, attempts[a].status, attempts[a].verification, attempts[a].cleanup));
    }
  }

  lemma SettledStays(before: Item, after: Item, first: map<AttemptId, Attempt>, second: map<AttemptId, Attempt>,
                     maxRetries: nat, findings: Findings)
    requires ItemSettled(before, after, first, maxRetries) && Advances(first, second, findings)
    ensures ItemSettled(before, after, second, maxRetries)
  {
  }

  /** What a settling step does to its item, given the attempt it names. */
  function AfterSettling(item: Item, a: AttemptId, attempt: Attempt, finding: Finding, maxRetries: nat): Item {
    var next := if AttemptTerminal(attempt.status)
                then Projected(item, Evidence(a, attempt.status, attempt.verification, attempt.cleanup))
                else Settled(item, DispositionOf(attempt, finding), maxRetries);
    next.(revision := item.revision + 1)
  }

  /** A settling step recovers the attempt that its item names, and updates the item by what that attempt was. */
  lemma SettleStepIs(s: State, job: JobId, a: AttemptId, findings: Findings)
    requires ActiveItem(s, job) && job in s.maxRetries && s.items[job].attempt == Some(a) && a in s.attempts
    ensures SettleStep(s, job, findings) ==
            s.(items := s.items[job := AfterSettling(s.items[job], a, s.attempts[a], findings(a), s.maxRetries[job])],
               attempts := s.attempts[a := Recovered(s.attempts[a], findings(a))])
  {
    if TerminalAttempt(s, a) { assert s.attempts == s.attempts[a := s.attempts[a]]; }
  }

  lemma AfterSettlingIsSettled(item: Item, a: AttemptId, attempt: Attempt, finding: Finding, maxRetries: nat,
                               attempts: map<AttemptId, Attempt>)
    requires LaunchedOk(attempt) && item.attempt == Some(a) && a in attempts
             && attempts[a] == Recovered(attempt, finding)
    ensures ItemSettled(item, AfterSettling(item, a, attempt, finding, maxRetries), attempts, maxRetries)
  {
  }

  lemma SettleStepEffect(s: State, job: JobId, findings: Findings)
    requires Readable(s) && job in s.items
    ensures var s' := SettleStep(s, job, findings);
            && s' == s.(items := s'.items, attempts := s'.attempts)
            && job in s'.items && s'.items == s.items[job := s'.items[job]]
            && Advances(s.attempts, s'.attempts, findings)
            && (if Active(s.items[job]) then ItemSettled(s.items[job], s'.items[job], s'.attempts, s.maxRetries[job])
                else s' == s)
  {
    if Active(s.items[job]) {
      if s.items[job].attempt.Some? {
        SettleStepAttempt(s, job, s.items[job].attempt.value, findings, SettleStep(s, job, findings));
      } else {
        assert SettleStep(s, job, findings) == Write(s, job, s.items[job].(status := ItemNeedsInput));
      }
    } else {
      assert SettleStep(s, job, findings) == s;
    }
  }

  lemma SettleStepAttempt(s: State, job: JobId, a: AttemptId, findings: Findings, s': State)
    requires Readable(s) && ActiveItem(s, job) && s.items[job].attempt == Some(a) && s' == SettleStep(s, job, findings)
    ensures s' == s.(items := s'.items, attempts := s'.attempts)
    ensures job in s'.items && s'.items == s.items[job := s'.items[job]]
    ensures Advances(s.attempts, s'.attempts, findings)
    ensures ItemSettled(s.items[job], s'.items[job], s'.attempts, s.maxRetries[job])
  {
    SettleStepIs(s, job, a, findings);
    AfterSettlingIsSettled(s.items[job], a, s.attempts[a], findings(a), s.maxRetries[job], s'.attempts);
  }

  /** What the second loop has done to one item of those it has visited. */
  predicate Visited(s: State, s': State, order: seq<JobId>, job: JobId)
    requires job in s.items && job in s'.items && job in s.maxRetries
  {
    if job in order && Active(s.items[job])
    then ItemSettled(s.items[job], s'.items[job], s'.attempts, s.maxRetries[job])
    else s'.items[job] == s.items[job]
  }

  /** The second loop settles every listed active item and leaves the other items alone. */
  ghost predicate SettlesItems(s: State, s': State, order: seq<JobId>, findings: Findings) {
    && s' == s.(items := s'.items, attempts := s'.attempts) && s'.items.Keys == s.items.Keys
    && Advances(s.attempts, s'.attempts, findings)
    && (forall job :: job in s.items ==> job in s.maxRetries && Visited(s, s', order, job))
  }

  lemma SettlesMore(s: State, s1: State, order: seq<JobId>, job: JobId, findings: Findings)
    requires Readable(s) && Readable(s1) && SettlesItems(s, s1, order, findings) && job in s.items
    ensures SettlesItems(s, SettleStep(s1, job, findings), order + [job], findings)
  {
    var s' := SettleStep(s1, job, findings);
    SettleStepEffect(s1, job, findings);
    AdvancesTrans(s.attempts, s1.attempts, s'.attempts, findings);
    forall j | j in s.items ensures j in s.maxRetries && Visited(s, s', order + [job], j) {
      assert Visited(s, s1, order, j);
      if j in order && Active(s.items[j]) {
        SettledIsOver(s.items[j], s1.items[j], s1.attempts, s.maxRetries[j]);
        SettledStays(s.items[j], s1.items[j], s1.attempts, s'.attempts, s.maxRetries[j], findings);
      }
    }
  }

  lemma {:induction false} SettleAllRuns(s: State, order: seq<JobId>, findings: Findings)
    requires Readable(s) && forall job :: job in order ==> job in s.items
    ensures var s' := SettleAll(s, order, findings);
            Readable(s') && Leads(s, s', false) && SettlesItems(s, s', order, findings)
  {
    if order == [] {
      LeadsSelf(s, false);
    } else {
      var before, job := order[..|order| - 1], order[|order| - 1];
      assert order == before + [job];
      SettleAllRuns(s, before, findings);
      var s1 := SettleAll(s, before, findings);
      SettleStepReadable(s1, job, findings);
      SettleStepReaches(s1, job, findings);
      LeadsTrans(s, s1, SettleStep(s1, job, findings), false);
      SettlesMore(s, s1, before, job, findings);
    }
  }

  // ----- the third loop -----

  lemma EndAttemptAdvances(s: State, a: AttemptId, findings: Findings)
    ensures Advances(s.attempts, EndAttempt(s, a, findings(a)).attempts, findings)
  {
  }

  /** The third loop ends every orphan and changes no item. */
  lemma {:induction false} EndOrphansRuns(s: State, listing: seq<AttemptId>, listed: map<AttemptId, Attempt>,
                                          referenced: set<AttemptId>, findings: Findings)
    requires Readable(s)
    ensures var s' := EndOrphans(s, listing, listed, referenced, findings);
            && Readable(s') && Leads(s, s', false) && s' == s.(attempts := s'.attempts)
            && Advances(s.attempts, s'.attempts, findings)
  {
    if listing == [] {
      LeadsSelf(s, false);
    } else {
      var before, a := listing[..|listing| - 1], listing[|listing| - 1];
      EndOrphansRuns(s, before, listed, referenced, findings);
      var s1 := EndOrphans(s, before, listed, referenced, findings);
      if a in s1.attempts {
        EndAttemptReadable(s1, a, findings(a));
        EndAttemptReaches(s1, a, findings(a));
        LeadsTrans(s, s1, EndAttempt(s1, a, findings(a)), false);
        EndAttemptAdvances(s1, a, findings);
        AdvancesTrans(s.attempts, s1.attempts, EndAttempt(s1, a, findings(a)).attempts, findings);
      }
    }
  }

  lemma EndAttemptRecovers(s: State, listed: map<AttemptId, Attempt>, a: AttemptId, b: AttemptId, findings: Findings)
    requires Advances(listed, s.attempts, findings) && a in listed
    requires a == b || s.attempts[a] == Recovered(listed[a], findings(a))
    ensures var s' := EndAttempt(s, b, findings(b));
            a in s'.attempts && s'.attempts[a] == Recovered(listed[a], findings(a))
  {
    RecoveredTwice(listed[a], findings(a));
  }

  lemma {:induction false} OrphansEnd(s: State, listing: seq<AttemptId>, listed: map<AttemptId, Attempt>,
                                      referenced: set<AttemptId>, findings: Findings, a: AttemptId)
    requires Advances(listed, s.attempts, findings) && Readable(s)
    requires a in listing && a in listed && a !in referenced
    ensures var s' := EndOrphans(s, listing, listed, referenced, findings);
            a in s'.attempts && s'.attempts[a] == Recovered(listed[a], findings(a))
  {
    var before, last := listing[..|listing| - 1], listing[|listing| - 1];
    EndOrphansRuns(s, before, listed, referenced, findings);
    var s1 := EndOrphans(s, before, listed, referenced, findings);
    AdvancesTrans(listed, s.attempts, s1.attempts, findings);
    if last != a {
      assert a in before;
      OrphansEnd(s, before, listed, referenced, findings, a);
    }
    EndAttemptRecovers(s1, listed, a, last, findings);
  }

  /** One more round of the third loop. */
  lemma EndOrphansStep(s: State, listing: seq<AttemptId>, i: nat, listed: map<AttemptId, Attempt>,
                       referenced: set<AttemptId>, findings: Findings)
    requires i < |listing|
    ensures var s1 := EndOrphans(s, listing[..i], listed, referenced, findings); var a := listing[i];
            EndOrphans(s, listing[..i + 1], listed, referenced, findings) ==
            if a !in listed || AttemptTerminal(listed[a].status) || a in referenced then s1
            else EndAttempt(s1, a, findings(a))
  {
    assert listing[..i + 1][..i] == listing[..i];
  }

  // ----- the whole recovery -----

  /**
   From any readable state, startup recovery is a run of the protocol that leaves no item dispatching, running or
   cancelling, leaves every other item as it was, and requeues an interrupted item only within its retry budget.
   Every attempt that no item names afterwards has been recovered.
   */
  lemma RecoveryRuns(s: State, order: seq<JobId>, listing: seq<AttemptId>, byOperation: Grouping, findings: Findings,
                     s': State)
    requires Readable(s) && Lists(order, s.items.Keys) && Lists(listing, s.attempts.Keys)
    requires Groups(byOperation, s.attempts, listing)
    requires s' == RecoverAll(s, order, listing, byOperation, findings)
    ensures Readable(s') && Leads(s, s', false) && s'.items.Keys == s.items.Keys
    ensures forall job :: job in s'.items ==> !Interrupted(s'.items[job])
    ensures forall job :: job in s.items && !Interrupted(s.items[job]) ==> s'.items[job] == s.items[job]
    ensures forall job :: job in s.items ==>
              s'.items[job].retries <= s.items[job].retries || s'.items[job].retries <= s.maxRetries[job]
    ensures Advances(s.attempts, s'.attempts, findings)
    ensures forall a :: a in s.attempts && a !in Referenced(s'.items) ==>
              s'.attempts[a] == Recovered(s.attempts[a], findings(a))
  {
    var bound := BindAll(s, order, byOperation);
    BindAllRuns(s, order, byOperation, listing);
    BindAllEffect(s, order, byOperation);
    var settled := SettleAll(bound, order, findings);
    SettleAllRuns(bound, order, findings);
    LeadsTrans(s, bound, settled, false);
    var referenced := Referenced(settled.items);
    EndOrphansRuns(settled, listing, s.attempts, referenced, findings);
    LeadsTrans(s, settled, s', false);
    AdvancesTrans(s.attempts, settled.attempts, s'.attempts, findings);
    RecoveryItems(s, bound, settled, order, byOperation, findings);
    forall a | a in s.attempts && a !in Referenced(s'.items)
      ensures s'.attempts[a] == Recovered(s.attempts[a], findings(a))
    {
      OrphansEnd(settled, listing, s.attempts, referenced, findings, a);
    }
  }

  lemma RecoveryItems(s: State, bound: State, settled: State, order: seq<JobId>, byOperation: Grouping,
                      findings: Findings)
    requires Lists(order, s.items.Keys) && bound.items.Keys == s.items.Keys && bound.maxRetries == s.maxRetries
    requires forall job :: job in s.items ==> bound.items[job] == AfterBinding(s.items[job], job, byOperation)
    requires SettlesItems(bound, settled, order, findings)
    ensures forall job :: job in s.items ==> !Interrupted(settled.items[job])
    ensures forall job :: job in s.items && !Interrupted(s.items[job]) ==> settled.items[job] == s.items[job]
    ensures forall job :: job in s.items ==>
              settled.items[job].retries <= s.items[job].retries || settled.items[job].retries <= s.maxRetries[job]
  {
    forall job | job in s.items
      ensures !Interrupted(settled.items[job])
      ensures !Interrupted(s.items[job]) ==> settled.items[job] == s.items[job]
      ensures settled.items[job].retries <= s.items[job].retries || settled.items[job].retries <= s.maxRetries[job]
    {
      assert Visited(bound, settled, order, job);
      if Active(bound.items[job]) {
        SettledIsOver(bound.items[job], settled.items[job], settled.attempts, s.maxRetries[job]);
      }
    }
  }

  // ----- what becomes of each interrupted item -----

  lemma SettleStepLocal(s: State, s1: State, job: JobId, a: AttemptId, findings: Findings)
    requires job in s.items && job in s1.items && s1.items[job] == s.items[job] && s.items[job].attempt == Some(a)
    requires a in s.attempts && a in s1.attempts && s1.attempts[a] == s.attempts[a] && s1.maxRetries == s.maxRetries
    ensures SettleStep(s1, job, findings).items[job] == SettleStep(s, job, findings).items[job]
  {
    if ActiveItem(s, job) && job in s.maxRetries {
      SettleStepIs(s, job, a, findings);
      SettleStepIs(s1, job, a, findings);
    }
  }

  lemma SettleStepElsewhere(s: State, job: JobId, a: AttemptId, findings: Findings)
    requires a in s.attempts && (ActiveItem(s, job) ==> s.items[job].attempt != Some(a))
    ensures var s' := SettleStep(s, job, findings); a in s'.attempts && s'.attempts[a] == s.attempts[a]
  {
    if ActiveItem(s, job) && job in s.maxRetries && s.items[job].attempt.Some?
       && s.items[job].attempt.value in s.attempts {
      SettleStepIs(s, job, s.items[job].attempt.value, findings);
    }
  }

  /** An item whose attempt no other item names is settled by the state that recovery started from. */
  lemma {:induction false} SettleAllExactly(s: State, order: seq<JobId>, findings: Findings, job: JobId, a: AttemptId)
    requires Readable(s) && (forall j :: j in order ==> j in s.items)
    requires job in s.items && Active(s.items[job]) && s.items[job].attempt == Some(a)
    requires forall j :: j in s.items && j != job ==> s.items[j].attempt != Some(a)
    ensures var s' := SettleAll(s, order, findings);
            if job in order then job in s'.items && s'.items[job] == SettleStep(s, job, findings).items[job]
            else job in s'.items && s'.items[job] == s.items[job] && a in s'.attempts && s'.attempts[a] == s.attempts[a]
  {
    if order != [] {
      var before, last := order[..|order| - 1], order[|order| - 1];
      assert order == before + [last];
      SettleAllExactly(s, before, findings, job, a);
      SettleAllRuns(s, before, findings);
      var s1 := SettleAll(s, before, findings);
      SettleStepEffect(s1, last, findings);
      assert Visited(s, s1, before, last);
      if last in before && Active(s.items[last]) {
        SettledIsOver(s.items[last], s1.items[last], s1.attempts, s.maxRetries[last]);
      } else if last == job {
        SettleStepLocal(s, s1, job, a, findings);
      } else if job !in before {
        SettleStepElsewhere(s1, last, a, findings);
      }
    }
  }

  /** What settling decides: the projection of a finished attempt, or the verdict on one that was still open. */
  predicate Decided(item: Item, attempt: Attempt, finding: Finding, maxRetries: nat, after: Item) {
    if AttemptTerminal(attempt.status) then
      item.attempt.Some?
      && after == Projected(item, Evidence(item.attempt.value, attempt.status, attempt.verification, attempt.cleanup))
                  .(revision := item.revision + 1)
    else
      var safe := attempt.status in {Reserved, Claimed} || (finding.Ends? && CleanupSafe(finding.cleanup));
      && (after.status == Queued <==> safe && item.status == Running && item.retries < maxRetries)
      && (after.status == ItemCancelled <==> safe && item.status == Cancelling)
      && (after.status in {Queued, ItemCancelled}
          || after == item.(status := ItemNeedsInput, revision := item.revision + 1))
      && (after.status == Queued ==> after.attempt.None? && after.op.None? && after.retries == item.retries + 1)
      && (after.status == ItemCancelled ==> after.attempt == item.attempt && after.retries == item.retries)
  }

  lemma SettleStepDecides(s: State, job: JobId, findings: Findings)
    requires Readable(s) && ActiveItem(s, job) && s.items[job].attempt.Some?
    ensures var a := s.items[job].attempt.value;
            Decided(s.items[job], s.attempts[a], findings(a), s.maxRetries[job],
                    SettleStep(s, job, findings).items[job])
  {
    SettleStepIs(s, job, s.items[job].attempt.value, findings);
  }

  /** The recorded attempts that the item's operation reserved. */
  function ReservedFor(attempts: map<AttemptId, Attempt>, job: JobId, item: Item): set<AttemptId> {
    set a | a in attempts && item.op.Some? && ReservedBy(attempts[a], job, item.op.value)
  }

  /**
   What binding makes of an item: a dispatching one goes back to queued if its operation reserved nothing, on to running
   with the one attempt it reserved, and to its owner if there are several or the operation is unknown.
   */
  ghost predicate BindsTo(item: Item, reserved: set<AttemptId>, after: Item) {
    if item.status != Dispatching then after == item
    else
      && after.revision == item.revision + 1
      && (item.op.None? ==> after == item.(status := ItemNeedsInput, revision := after.revision))
      && (item.op.Some? && reserved == {} ==>
            after == item.(status := Queued, op := None, attempt := None, revision := after.revision))
      && (forall a :: item.op.Some? && reserved == {a} ==>
            after == item.(status := Running, attempt := Some(a), revision := after.revision))
      && (forall a, b :: a in reserved && b in reserved && a != b ==>
            after == item.(status := ItemNeedsInput, revision := after.revision))
  }

  /** The group of an operation holds exactly the recorded attempts that it reserved. */
  lemma GroupIsReserved(attempts: map<AttemptId, Attempt>, listing: seq<AttemptId>, byOperation: Grouping, job: JobId,
                        item: Item)
    requires Lists(listing, attempts.Keys) && Groups(byOperation, attempts, listing)
    ensures forall a :: a in Reservations(byOperation, job, item) <==> a in ReservedFor(attempts, job, item)
    ensures Distinct(Reservations(byOperation, job, item))
  {
    forall a | a in ReservedFor(attempts, job, item) ensures a in Reservations(byOperation, job, item) {
      assert Grouped(byOperation, a, job, item.op.value);
    }
  }

  lemma BindingVerdict(attempts: map<AttemptId, Attempt>, listing: seq<AttemptId>, byOperation: Grouping, job: JobId,
                       item: Item)
    requires Lists(listing, attempts.Keys) && Groups(byOperation, attempts, listing)
    ensures BindsTo(item, ReservedFor(attempts, job, item), AfterBinding(item, job, byOperation))
  {
    var matching, reserved := Reservations(byOperation, job, item), ReservedFor(attempts, job, item);
    GroupIsReserved(attempts, listing, byOperation, job, item);
    if |matching| == 1 {
      assert forall a :: a in matching ==> a == matching[0];
      assert matching[0] in matching;
    } else if |matching| > 1 {
      assert matching[0] in matching[..1] && matching[1] !in matching[..1];
      assert matching[0] in matching && matching[1] in matching;
    }
  }

  lemma SettlementVerdict(s: State, order: seq<JobId>, findings: Findings, job: JobId)
    requires Readable(s) && NamesOwn(s) && Lists(order, s.items.Keys) && job in s.items
    ensures var after := SettleAll(s, order, findings).items; var item := s.items[job];
            && job in after
            && (!Active(item) ==> after[job] == item)
            && (Active(item) && item.attempt.None? ==> after[job].status == ItemNeedsInput)
            && (Active(item) && item.attempt.Some? ==>
                  Decided(item, s.attempts[item.attempt.value], findings(item.attempt.value), s.maxRetries[job],
                          after[job]))
  {
    SettleAllRuns(s, order, findings);
    assert Visited(s, SettleAll(s, order, findings), order, job);
    var item := s.items[job];
    if Active(item) && item.attempt.Some? {
      SettleAllExactly(s, order, findings, job, item.attempt.value);
      SettleStepDecides(s, job, findings);
    }
  }

  /**
   What the whole recovery makes of an item: first what the attempts that its operation reserved make of it; then, if it
   is active, what the attempt it names decides.
   */
  lemma RecoveryVerdict(s: State, order: seq<JobId>, listing: seq<AttemptId>, byOperation: Grouping, findings: Findings,
                        job: JobId)
    requires Readable(s) && NamesOwn(s) && Lists(order, s.items.Keys)
    requires Lists(listing, s.attempts.Keys) && Groups(byOperation, s.attempts, listing) && job in s.items
    ensures var after := RecoverAll(s, order, listing, byOperation, findings).items;
            var item := AfterBinding(s.items[job], job, byOperation);
            && job in after && BindsTo(s.items[job], ReservedFor(s.attempts, job, s.items[job]), item)
            && (!Active(item) ==> after[job] == item)
            && (Active(item) && item.attempt.None? ==> after[job].status == ItemNeedsInput)
            && (Active(item) && item.attempt.Some? ==>
                  && item.attempt.value in s.attempts
                  && Decided(item, s.attempts[item.attempt.value], findings(item.attempt.value), s.maxRetries[job],
                             after[job]))
  {
    var bound := BindAll(s, order, byOperation);
    BindAllRuns(s, order, byOperation, listing);
    BindAllEffect(s, order, byOperation);
    BoundNamesOwn(s, bound, byOperation, listing);
    SettlementVerdict(bound, order, findings, job);
    RecoveredItems(s, order, listing, byOperation, findings);
    BindingVerdict(s.attempts, listing, byOperation, job, s.items[job]);
  }

  /** The third loop changes no item. */
  lemma RecoveredItems(s: State, order: seq<JobId>, listing: seq<AttemptId>, byOperation: Grouping, findings: Findings)
    requires Readable(BindAll(s, order, byOperation)) && forall j :: j in order ==>
               j in BindAll(s, order, byOperation).items
    ensures RecoverAll(s, order, listing, byOperation, findings).items ==
            SettleAll(BindAll(s, order, byOperation), order, findings).items
  {
    var bound := BindAll(s, order, byOperation);
    var settled := SettleAll(bound, order, findings);
    SettleAllRuns(bound, order, findings);
    EndOrphansRuns(settled, listing, s.attempts, Referenced(settled.items), findings);
  }

  /** Items name attempts of their own job. */
  ghost predicate NamesOwn(s: State) {
    forall job :: job in s.items && s.items[job].attempt.Some? ==> OfJob(s, job, s.items[job].attempt.value)
  }

  lemma BoundNamesOwn(s: State, bound: State, byOperation: Grouping, listing: seq<AttemptId>)
    requires NamesOwn(s) && Groups(byOperation, s.attempts, listing)
    requires bound == s.(items := bound.items) && bound.items.Keys == s.items.Keys
    requires forall job :: job in s.items ==>
               bound.items[job] == AfterBinding(s.items[job], job, byOperation) || bound.items[job] == s.items[job]
    ensures NamesOwn(bound)
  {
    forall job | job in bound.items && bound.items[job].attempt.Some?
      ensures OfJob(bound, job, bound.items[job].attempt.value) {
      if bound.items[job].attempt != s.items[job].attempt {
        var reserved := Reservations(byOperation, job, s.items[job]);
        assert reserved[0] in byOperation[(job, s.items[job].op.value)];
      }
    }
  }

  /** Whatever was going on when the dispatcher crashed, recovery can read what it needs. */
  lemma CrashLeavesReadable(s: State, actions: seq<Action>, overlap: bool)
    requires Initial(s) && SafeFinishes(s, actions, overlap)
    ensures var crashed := Apply(Run(s, actions, overlap), Crash, overlap); Readable(crashed) && NamesOwn(crashed)
  {
    RunKeeps(s, actions, overlap);
    var before := Run(s, actions, overlap);
    var crashed := Apply(before, Crash, overlap);
    assert crashed == ApplyCrash(before);
    forall job | job in crashed.items && crashed.items[job].attempt.Some?
      ensures OfJob(crashed, job, crashed.items[job].attempt.value)
    {
      assert ItemOk(before, job, before.items[job]);
    }
    forall job | job in crashed.items ensures job in crashed.maxRetries {
      assert ItemOk(before, job, before.items[job]);
    }
    forall a | a in crashed.attempts ensures LaunchedOk(crashed.attempts[a]) {
      assert AttemptOk(before, a, before.attempts[a]);
    }
  }
}
