/**
 The invariant of the dispatch protocol: what it says, and that every action and every run keeps it.  Dispatching may
 overlap with startup recovery as long as recovery never projects an attempt onto an item that has another attempt in
 flight.
 */
module DispatchSafety {
  import opened Common
  import opened Completion
  import opened Dispatch

  // ----- invariant -----

  /** An attempt that has been claimed and is not finished. */
  predicate Live(status: AttemptStatus) {
    status in {Claimed, Preparing, AttemptRunning, Verifying}
  }

  predicate LiveAttempt(s: State, a: AttemptId) {
    a in s.attempts && Live(s.attempts[a].status)
  }

  predicate Named(s: State, job: JobId, a: AttemptId) {
    job in s.items && s.items[job].attempt == Some(a) && s.items[job].status !in {Queued, Dispatching}
  }

  predicate OfJob(s: State, job: JobId, a: AttemptId) {
    a in s.attempts && s.attempts[a].job == job
  }

  /** The item names an attempt that is live, or that an execution has read and may still claim. */
  predicate InFlight(s: State, job: JobId) {
    && job in s.items && s.items[job].attempt.Some?
    && var a := s.items[job].attempt.value;
    && (|| LiveAttempt(s, a)
        || (job in s.active && s.active[job].Claiming? && s.active[job].attempt == a
            && Claimable(s, a, s.active[job].op)))
  }

  /** A finished proposal that a dependent may build on. */
  predicate Accepted(s: State, job: JobId, a: AttemptId) {
    OfJob(s, job, a) && s.attempts[a].status == Completed && s.attempts[a].verification == Eligible
  }

  predicate CompletionOk(s: State, job: JobId, item: Item) {
    item.status == ItemCompleted ==>
      && item.completion.Some? && item.attempt == Some(item.completion.value.attempt)
      && Accepted(s, job, item.completion.value.attempt)
      && item.completion.value.status == Completed && item.completion.value.verification == Eligible
      && CleanupSafe(item.completion.value.cleanup)
  }

  predicate ItemOk(s: State, job: JobId, item: Item) {
    && (item.status in {Queued, Dispatching} ==> item.attempt.None?)
    && (item.attempt.Some? ==> OfJob(s, job, item.attempt.value))
    && CompletionOk(s, job, item)
    && job in s.maxRetries && item.retries <= s.maxRetries[job]
  }

  predicate ParentsOk(s: State, dependsOn: seq<JobId>, parents: seq<AttemptId>) {
    && |parents| == |dependsOn|
    && forall i :: 0 <= i < |parents| ==> Accepted(s, dependsOn[i], parents[i])
  }

  /** An unfinished attempt is past its claim exactly if it was launched. */
  predicate LaunchedOk(attempt: Attempt) {
    !AttemptTerminal(attempt.status) ==> (attempt.launched <==> attempt.status !in {Reserved, Claimed})
  }

  /** What an attempt's own fields say: one that was never launched has nothing to clean up. */
  predicate RecordOk(attempt: Attempt) {
    && LaunchedOk(attempt)
    && (!attempt.launched ==> attempt.cleanup == NotRequired && !attempt.workspace)
    && (attempt.removing ==> AttemptTerminal(attempt.status) && !CleanupSafe(attempt.cleanup) && attempt.workspace)
  }

  predicate AttemptOk(s: State, a: AttemptId, attempt: Attempt) {
    && attempt.job in s.items
    && (Live(attempt.status) ==> Named(s, attempt.job, a))
    && RecordOk(attempt)
    && ParentsOk(s, s.items[attempt.job].dependsOn, attempt.parents)
  }

  predicate DispatchingOk(s: State, job: JobId, d: Dispatching) {
    && job in s.items && job !in s.active
    && d.mine.status == Dispatching && d.mine.attempt.None? && d.mine.dependsOn == s.items[job].dependsOn
    && (d.Marked? ==> ParentsOk(s, d.mine.dependsOn, d.parents))
    && (d.Held? ==> OfJob(s, job, d.attempt))
  }

  /** The attempt that executeItem works on, if it has got that far. */
  function Worked(e: Execution): Option<AttemptId> {
    match e
    case Claiming(a, _) => Some(a)
    case Launching(a, _) => Some(a)
    case Waiting(a) => Some(a)
    case _ => None
  }

  /** The item names this attempt, none, or a finished one. */
  predicate NamesHarmless(s: State, job: JobId, a: AttemptId)
    requires job in s.items
  {
    s.items[job].attempt.None? || s.items[job].attempt == Some(a) || TerminalAttempt(s, s.items[job].attempt.value)
  }

  predicate ExecutionOk(s: State, job: JobId, e: Execution) {
    && job in s.items && s.items[job].status != Dispatching
    && (Worked(e).Some? ==> OfJob(s, job, Worked(e).value) && NamesHarmless(s, job, Worked(e).value))
    && (e.Claiming? && Claimable(s, e.attempt, e.op) ==> Named(s, job, e.attempt))
  }

  /** An attempt that has passed a check before a requeue: clean, or with the removal of its worktree begun since. */
  predicate Checked(s: State, a: AttemptId) {
    TerminalAttempt(s, a) && (CleanupSafe(s.attempts[a].cleanup) || s.attempts[a].removing)
  }

  /** An item that passed such a check. */
  predicate CheckedItem(s: State, job: JobId, item: Item) {
    && job in s.items && item.revision <= s.items[job].revision
    && (item.attempt.Some? ==> Checked(s, item.attempt.value))
  }

  predicate RecoveryOk(s: State) {
    s.recovery.Finishing? ==>
      s.recovery.job in s.items && OfJob(s, s.recovery.job, s.recovery.attempt)
          && TerminalAttempt(s, s.recovery.attempt)
  }

  ghost predicate RecordsOk(s: State) {
    && (forall job :: job in s.items ==> ItemOk(s, job, s.items[job]))
    && (forall a :: a in s.attempts ==> AttemptOk(s, a, s.attempts[a]))
  }

  ghost predicate VolatileOk(s: State) {
    && (forall job :: job in s.listed ==> CompletionOk(s, job, s.listed[job]))
    && (forall job :: job in s.dispatching ==> DispatchingOk(s, job, s.dispatching[job]))
    && (forall job :: job in s.active ==> ExecutionOk(s, job, s.active[job]))
    && (forall a :: a in s.executing ==> a in s.attempts && s.attempts[a].status != Reserved)
  }

  ghost predicate ChecksOk(s: State) {
    && (forall job :: job in s.reading ==> job in s.items && OfJob(s, job, s.reading[job]))
    && (forall job :: job in s.vouched ==> CheckedItem(s, job, s.vouched[job]))
    && (forall job :: job in s.retrying ==>
          CheckedItem(s, job, s.retrying[job]) && ItemTerminal(s.retrying[job].status))
    && RecoveryOk(s)
  }

  ghost predicate Inv(s: State) {
    RecordsOk(s) && VolatileOk(s) && ChecksOk(s)
  }

  // ----- updates of items -----

  /**
   What an item update must respect: an attempt in flight stays named by an item that is neither queued nor
   dispatching; a new name is that of the attempt being executed or of a finished one; and an item with an active
   execution is not marked as dispatching.
   */
  predicate Respects(s: State, job: JobId, next: Item)
    requires job in s.items
  {
    && next.dependsOn == s.items[job].dependsOn
    && (InFlight(s, job) ==> next.attempt == s.items[job].attempt && next.status !in {Queued, Dispatching})
    && (job in s.active ==> next.status != Dispatching)
    && (next.attempt.Some? && next.attempt != s.items[job].attempt && job in s.active && Worked(s.active[job]).Some? ==>
          next.attempt == Worked(s.active[job]) || TerminalAttempt(s, next.attempt.value))
  }

  lemma WriteKeepsAttempts(s: State, job: JobId, next: Item)
    requires RecordsOk(s) && job in s.items && Respects(s, job, next)
    ensures forall a :: a in s.attempts ==> AttemptOk(Write(s, job, next), a, s.attempts[a])
  {
    var s' := Write(s, job, next);
    forall a | a in s'.attempts ensures AttemptOk(s', a, s'.attempts[a]) {
      assert AttemptOk(s, a, s.attempts[a]);
      assert ParentsOk(s', s'.items[s.attempts[a].job].dependsOn, s.attempts[a].parents);
    }
  }

  lemma WriteKeepsRecords(s: State, job: JobId, next: Item)
    requires RecordsOk(s) && job in s.items && ItemOk(s, job, next) && Respects(s, job, next)
    ensures RecordsOk(Write(s, job, next))
  {
    var s' := Write(s, job, next);
    WriteKeepsAttempts(s, job, next);
    forall j | j in s'.items ensures ItemOk(s', j, s'.items[j]) {
      assert j == job || ItemOk(s, j, s.items[j]);
    }
  }

  lemma WriteKeepsVolatile(s: State, job: JobId, next: Item)
    requires Inv(s) && job in s.items && Respects(s, job, next)
    ensures VolatileOk(Write(s, job, next))
  {
    var s' := Write(s, job, next);
    forall j | j in s'.active ensures ExecutionOk(s', j, s'.active[j]) {
      assert ExecutionOk(s, j, s.active[j]);
    }
    forall j | j in s'.dispatching ensures DispatchingOk(s', j, s'.dispatching[j]) {
      assert DispatchingOk(s, j, s.dispatching[j]);
    }
    forall j | j in s'.listed ensures CompletionOk(s', j, s'.listed[j]) {
      assert CompletionOk(s, j, s.listed[j]);
    }
  }

  lemma WriteKeepsChecks(s: State, job: JobId, next: Item)
    requires ChecksOk(s) && job in s.items
    ensures ChecksOk(Write(s, job, next))
  {
    var s' := Write(s, job, next);
    forall j | j in s'.vouched ensures CheckedItem(s', j, s'.vouched[j]) {
      assert CheckedItem(s, j, s.vouched[j]);
    }
    forall j | j in s'.retrying ensures CheckedItem(s', j, s'.retrying[j]) {
      assert CheckedItem(s, j, s.retrying[j]);
    }
  }

  lemma WriteKeeps(s: State, job: JobId, next: Item)
    requires Inv(s) && job in s.items && ItemOk(s, job, next) && Respects(s, job, next)
    ensures Inv(Write(s, job, next))
  {
    WriteKeepsRecords(s, job, next);
    WriteKeepsVolatile(s, job, next);
    WriteKeepsChecks(s, job, next);
  }

  // ----- updates of attempts -----

  /**
   What an attempt update must respect: finished attempts do not change their result, a passed check stays passed, only
   a named attempt becomes live, and what was reserved keeps its operation.
   */
  predicate AttemptRespects(s: State, a: AttemptId, next: Attempt)
    requires a in s.attempts
  {
    var known := s.attempts[a];
    && next.job == known.job && next.parents == known.parents
    && (AttemptTerminal(known.status) ==> next.status == known.status && next.verification == known.verification)
    && (Checked(s, a) ==> CleanupSafe(next.cleanup) || next.removing)
    && (next.status == Reserved ==> known.status == Reserved && next.op == known.op)
    && (Live(next.status) ==> Named(s, next.job, a))
    && RecordOk(next)
  }

  /** The attempts may have advanced and grown; nothing that was settled has changed. */
  ghost predicate Advanced(s: State, s': State) {
    && s' == s.(attempts := s'.attempts)
    && (forall b :: b in s.attempts ==> b in s'.attempts && Succeeds(s.attempts[b], s'.attempts[b]))
  }

  predicate Succeeds(known: Attempt, next: Attempt) {
    && next.job == known.job
    && (AttemptTerminal(known.status) ==>
          && next.status == known.status && next.verification == known.verification
          && (CleanupSafe(known.cleanup) || known.removing ==> CleanupSafe(next.cleanup) || next.removing))
    && (next.status == Reserved ==> known.status == Reserved && next.op == known.op)
  }

  lemma AdvancedParents(s: State, s': State, dependsOn: seq<JobId>, parents: seq<AttemptId>)
    requires Advanced(s, s') && ParentsOk(s, dependsOn, parents)
    ensures ParentsOk(s', dependsOn, parents)
  {
    forall i | 0 <= i < |parents| ensures Accepted(s', dependsOn[i], parents[i]) {
      assert Accepted(s, dependsOn[i], parents[i]);
    }
  }

  lemma AdvancedVolatile(s: State, s': State)
    requires Inv(s) && Advanced(s, s')
    ensures VolatileOk(s')
  {
    forall j | j in s'.active ensures ExecutionOk(s', j, s'.active[j]) {
      assert ExecutionOk(s, j, s.active[j]);
    }
    forall j | j in s'.dispatching ensures DispatchingOk(s', j, s'.dispatching[j]) {
      assert DispatchingOk(s, j, s.dispatching[j]);
      if s.dispatching[j].Marked? { AdvancedParents(s, s', s.dispatching[j].mine.dependsOn, s.dispatching[j].parents); }
    }
    forall j | j in s'.listed ensures CompletionOk(s', j, s'.listed[j]) {
      assert CompletionOk(s, j, s.listed[j]);
    }
  }

  lemma AdvancedChecks(s: State, s': State)
    requires ChecksOk(s) && Advanced(s, s')
    ensures ChecksOk(s')
  {
    forall j | j in s'.vouched ensures CheckedItem(s', j, s'.vouched[j]) {
      assert CheckedItem(s, j, s.vouched[j]);
    }
    forall j | j in s'.retrying ensures CheckedItem(s', j, s'.retrying[j]) {
      assert CheckedItem(s, j, s.retrying[j]);
    }
  }

  lemma AdvancedKeeps(s: State, s': State)
    requires Inv(s) && Advanced(s, s')
    requires forall a :: a in s'.attempts ==> AttemptOk(s', a, s'.attempts[a])
    ensures Inv(s')
  {
    forall j | j in s'.items ensures ItemOk(s', j, s'.items[j]) {
      assert ItemOk(s, j, s.items[j]);
    }
    AdvancedVolatile(s, s');
    AdvancedChecks(s, s');
  }

  lemma AttemptKeeps(s: State, a: AttemptId, next: Attempt)
    requires Inv(s) && a in s.attempts && AttemptRespects(s, a, next)
    ensures Inv(s.(attempts := s.attempts[a := next]))
  {
    var s' := s.(attempts := s.attempts[a := next]);
    assert AttemptOk(s, a, s.attempts[a]);
    assert Advanced(s, s');
    forall b | b in s'.attempts ensures AttemptOk(s', b, s'.attempts[b]) {
      assert AttemptOk(s, b, s.attempts[b]);
      AdvancedParents(s, s', s.items[s.attempts[b].job].dependsOn, s.attempts[b].parents);
    }
    AdvancedKeeps(s, s');
  }

  /** A fresh reservation of a job whose parents are accepted. */
  lemma NewAttemptKeeps(s: State, a: AttemptId, job: JobId, op: Option<OpId>, parents: seq<AttemptId>)
    requires Inv(s) && a !in s.attempts && job in s.items && ParentsOk(s, s.items[job].dependsOn, parents)
    ensures Inv(s.(attempts := s.attempts[a := NewAttempt(job, op, parents)]))
  {
    var s' := s.(attempts := s.attempts[a := NewAttempt(job, op, parents)]);
    assert Advanced(s, s');
    AdvancedParents(s, s', s.items[job].dependsOn, parents);
    forall b | b in s'.attempts ensures AttemptOk(s', b, s'.attempts[b]) {
      if b != a {
        assert AttemptOk(s, b, s.attempts[b]);
        AdvancedParents(s, s', s.items[s.attempts[b].job].dependsOn, s.attempts[b].parents);
      }
    }
    AdvancedKeeps(s, s');
  }

  // ----- changes that touch no record -----

  /** Only what the dispatcher, recovery and clients remember has changed. */
  predicate SameRecords(s: State, s': State) {
    s'.items == s.items && s'.attempts == s.attempts && s'.maxRetries == s.maxRetries
  }

  lemma SameRecordsKeep(s: State, s': State)
    requires RecordsOk(s) && SameRecords(s, s')
    ensures RecordsOk(s')
  {
    forall a | a in s'.attempts ensures AttemptOk(s', a, s'.attempts[a]) {
      assert AttemptOk(s, a, s.attempts[a]);
    }
    forall j | j in s'.items ensures ItemOk(s', j, s'.items[j]) {
      assert ItemOk(s, j, s.items[j]);
    }
  }

  lemma VolatileKeeps(s: State, s': State)
    requires Inv(s) && SameRecords(s, s') && VolatileOk(s') && ChecksOk(s')
    ensures Inv(s')
  {
    SameRecordsKeep(s, s');
  }

  /** Less remembered is no harm. */
  predicate Fewer(s: State, s': State) {
    && SameRecords(s, s')
    && (forall j :: j in s'.listed ==> j in s.listed && s'.listed[j] == s.listed[j])
    && (forall j :: j in s'.dispatching ==> j in s.dispatching && s'.dispatching[j] == s.dispatching[j])
    && (forall j :: j in s'.active ==> j in s.active && s'.active[j] == s.active[j])
    && s'.executing <= s.executing
    && (forall j :: j in s'.reading ==> j in s.reading && s'.reading[j] == s.reading[j])
    && (forall j :: j in s'.vouched ==> j in s.vouched && s'.vouched[j] == s.vouched[j])
    && (forall j :: j in s'.retrying ==> j in s.retrying && s'.retrying[j] == s.retrying[j])
    && (s'.recovery == s.recovery || !s'.recovery.Finishing?)
  }

  lemma FewerVolatile(s: State, s': State)
    requires VolatileOk(s) && Fewer(s, s')
    ensures VolatileOk(s')
  {
    forall j | j in s'.active ensures ExecutionOk(s', j, s'.active[j]) {
      assert ExecutionOk(s, j, s.active[j]);
    }
    forall j | j in s'.dispatching ensures DispatchingOk(s', j, s'.dispatching[j]) {
      assert DispatchingOk(s, j, s.dispatching[j]);
    }
    forall j | j in s'.listed ensures CompletionOk(s', j, s'.listed[j]) {
      assert CompletionOk(s, j, s.listed[j]);
    }
  }

  lemma FewerChecks(s: State, s': State)
    requires ChecksOk(s) && Fewer(s, s')
    ensures ChecksOk(s')
  {
    forall j | j in s'.vouched ensures CheckedItem(s', j, s'.vouched[j]) {
      assert CheckedItem(s, j, s.vouched[j]);
    }
    forall j | j in s'.retrying ensures CheckedItem(s', j, s'.retrying[j]) {
      assert CheckedItem(s, j, s.retrying[j]);
    }
  }

  lemma FewerKeeps(s: State, s': State)
    requires Inv(s) && Fewer(s, s')
    ensures Inv(s')
  {
    FewerVolatile(s, s');
    FewerChecks(s, s');
    VolatileKeeps(s, s');
  }

  lemma ActiveKeeps(s: State, job: JobId, e: Execution)
    requires Inv(s) && job !in s.dispatching && ExecutionOk(s, job, e)
    ensures Inv(s.(active := s.active[job := e]))
  {
    var s' := s.(active := s.active[job := e]);
    forall j | j in s'.active ensures ExecutionOk(s', j, s'.active[j]) {
      assert j == job || ExecutionOk(s, j, s.active[j]);
    }
    forall j | j in s'.dispatching ensures DispatchingOk(s', j, s'.dispatching[j]) {
      assert DispatchingOk(s, j, s.dispatching[j]);
    }
    ChecksFrame(s, s');
    VolatileKeeps(s, s');
  }

  lemma ActiveIsNotDispatching(s: State, job: JobId)
    requires Inv(s) && job in s.active
    ensures job !in s.dispatching
  {
  }

  lemma DispatchingKeeps(s: State, job: JobId, d: Dispatching)
    requires Inv(s) && DispatchingOk(s, job, d)
    ensures Inv(s.(dispatching := s.dispatching[job := d]))
  {
    var s' := s.(dispatching := s.dispatching[job := d]);
    forall j | j in s'.dispatching ensures DispatchingOk(s', j, s'.dispatching[j]) {
      assert j == job || DispatchingOk(s, j, s.dispatching[j]);
    }
    forall j | j in s'.active ensures ExecutionOk(s', j, s'.active[j]) {
      assert ExecutionOk(s, j, s.active[j]);
    }
    ChecksFrame(s, s');
    VolatileKeeps(s, s');
  }

  /** What recovery and clients remember does not depend on the dispatcher's state. */
  lemma ChecksFrame(s: State, s': State)
    requires ChecksOk(s) && SameRecords(s, s')
    requires s'.reading == s.reading && s'.vouched == s.vouched && s'.retrying == s.retrying
             && s'.recovery == s.recovery
    ensures ChecksOk(s')
  {
    forall j | j in s'.vouched ensures CheckedItem(s', j, s'.vouched[j]) {
      assert CheckedItem(s, j, s.vouched[j]);
    }
    forall j | j in s'.retrying ensures CheckedItem(s', j, s'.retrying[j]) {
      assert CheckedItem(s, j, s.retrying[j]);
    }
  }

  lemma VolatileFrame(s: State, s': State)
    requires VolatileOk(s) && SameRecords(s, s')
    requires s'.listed == s.listed && s'.dispatching == s.dispatching && s'.active == s.active
             && s'.executing == s.executing
    ensures VolatileOk(s')
  {
    forall j | j in s'.active ensures ExecutionOk(s', j, s'.active[j]) {
      assert ExecutionOk(s, j, s.active[j]);
    }
    forall j | j in s'.dispatching ensures DispatchingOk(s', j, s'.dispatching[j]) {
      assert DispatchingOk(s, j, s.dispatching[j]);
    }
    forall j | j in s'.listed ensures CompletionOk(s', j, s'.listed[j]) {
      assert CompletionOk(s, j, s.listed[j]);
    }
  }

  lemma VouchedKeeps(s: State, job: JobId)
    requires Inv(s) && job in s.items && CheckedItem(s, job, s.items[job])
    ensures Inv(s.(vouched := s.vouched[job := s.items[job]]))
  {
    var s1 := s.(vouched := s.vouched[job := s.items[job]]);
    forall j | j in s1.vouched ensures CheckedItem(s1, j, s1.vouched[j]) {
      assert j == job || CheckedItem(s, j, s.vouched[j]);
    }
    forall j | j in s.retrying ensures CheckedItem(s1, j, s.retrying[j]) {
      assert CheckedItem(s, j, s.retrying[j]);
    }
    VolatileFrame(s, s1);
    VolatileKeeps(s, s1);
  }

  lemma RetryingKeeps(s: State, job: JobId)
    requires Inv(s) && job in s.items && CheckedItem(s, job, s.items[job]) && ItemTerminal(s.items[job].status)
    ensures Inv(s.(retrying := s.retrying[job := s.items[job]]))
  {
    var s2 := s.(retrying := s.retrying[job := s.items[job]]);
    forall j | j in s2.retrying ensures CheckedItem(s2, j, s2.retrying[j]) {
      assert j == job || CheckedItem(s, j, s.retrying[j]);
    }
    forall j | j in s.vouched ensures CheckedItem(s2, j, s.vouched[j]) {
      assert CheckedItem(s, j, s.vouched[j]);
    }
    VolatileFrame(s, s2);
    VolatileKeeps(s, s2);
  }

  // ----- dispatchAvailable -----

  lemma EnqueueKeeps(s: State, job: JobId, dependsOn: seq<JobId>)
    requires Inv(s)
    ensures Inv(ApplyEnqueue(s, job, dependsOn))
  {
    var s' := ApplyEnqueue(s, job, dependsOn);
    if s' != s {
      EnqueueAttempts(s, job, dependsOn);
      forall j | j in s'.items ensures ItemOk(s', j, s'.items[j]) {
        assert j !in s.items || ItemOk(s, j, s.items[j]);
      }
      EnqueueVolatile(s, job, dependsOn);
      EnqueueChecks(s, job, dependsOn);
    }
  }

  lemma EnqueueAttempts(s: State, job: JobId, dependsOn: seq<JobId>)
    requires RecordsOk(s) && job !in s.items
    ensures var s' := ApplyEnqueue(s, job, dependsOn); forall a :: a in s'.attempts ==> AttemptOk(s', a, s'.attempts[a])
  {
    var s' := ApplyEnqueue(s, job, dependsOn);
    forall a | a in s'.attempts ensures AttemptOk(s', a, s'.attempts[a]) {
      assert AttemptOk(s, a, s.attempts[a]);
      assert ParentsOk(s', s'.items[s.attempts[a].job].dependsOn, s.attempts[a].parents);
    }
  }

  lemma EnqueueVolatile(s: State, job: JobId, dependsOn: seq<JobId>)
    requires VolatileOk(s) && job !in s.items
    ensures VolatileOk(ApplyEnqueue(s, job, dependsOn))
  {
    var s' := ApplyEnqueue(s, job, dependsOn);
    forall j | j in s'.active ensures ExecutionOk(s', j, s'.active[j]) {
      assert ExecutionOk(s, j, s.active[j]);
    }
    forall j | j in s'.dispatching ensures DispatchingOk(s', j, s'.dispatching[j]) {
      assert DispatchingOk(s, j, s.dispatching[j]);
    }
  }

  lemma EnqueueChecks(s: State, job: JobId, dependsOn: seq<JobId>)
    requires ChecksOk(s) && job !in s.items
    ensures ChecksOk(ApplyEnqueue(s, job, dependsOn))
  {
    var s' := ApplyEnqueue(s, job, dependsOn);
    forall j | j in s'.vouched ensures CheckedItem(s', j, s'.vouched[j]) {
      assert CheckedItem(s, j, s.vouched[j]);
    }
    forall j | j in s'.retrying ensures CheckedItem(s', j, s'.retrying[j]) {
      assert CheckedItem(s, j, s.retrying[j]);
    }
  }

  lemma ListKeeps(s: State)
    requires Inv(s)
    ensures Inv(s.(listed := s.items))
  {
    var s' := s.(listed := s.items);
    forall job | job in s.items ensures CompletionOk(s', job, s.items[job]) {
      assert ItemOk(s, job, s.items[job]);
    }
    forall j | j in s'.active ensures ExecutionOk(s', j, s'.active[j]) {
      assert ExecutionOk(s, j, s.active[j]);
    }
    forall j | j in s'.dispatching ensures DispatchingOk(s', j, s'.dispatching[j]) {
      assert DispatchingOk(s, j, s.dispatching[j]);
    }
    ChecksFrame(s, s');
    VolatileKeeps(s, s');
  }

  lemma BlockKeeps(s: State, job: JobId)
    requires Inv(s)
    ensures Inv(ApplyBlock(s, job))
  {
    if Is(s, job, Queued) {
      assert ItemOk(s, job, s.items[job]);
      WriteKeeps(s, job, s.items[job].(status := ItemNeedsInput));
    }
  }

  lemma MarkKeeps(s: State, job: JobId)
    requires Inv(s)
    ensures Inv(ApplyMark(s, job))
  {
    var s' := ApplyMark(s, job);
    if s' != s {
      var item := s.items[job];
      var marked := item.(status := Dispatching, op := Some(s.nextOp), attempt := None);
      assert ItemOk(s, job, item);
      WriteKeeps(s, job, marked);
      var s1 := Write(s, job, marked);
      MarkParents(s, s1, item);
      DispatchingKeeps(s1, job, Marked(s1.items[job], Parents(s, item)));
      var s2 := s1.(dispatching := s1.dispatching[job := Marked(s1.items[job], Parents(s, item))]);
      FewerKeeps(s2, s');
    }
  }

  lemma MarkParents(s: State, s1: State, item: Item)
    requires Inv(s) && DependenciesListed(s, item) && s1.attempts == s.attempts
    ensures ParentsOk(s1, item.dependsOn, Parents(s, item))
  {
    var parents := Parents(s, item);
    forall i | 0 <= i < |parents| ensures Accepted(s1, item.dependsOn[i], parents[i]) {
      assert CompletionOk(s, item.dependsOn[i], s.listed[item.dependsOn[i]]);
    }
  }

  lemma ReserveKeeps(s: State, job: JobId, a: AttemptId)
    requires Inv(s)
    ensures Inv(ApplyReserve(s, job, a))
  {
    if job in s.dispatching && s.dispatching[job].Marked? && a !in s.attempts {
      var Marked(mine, parents) := s.dispatching[job];
      assert DispatchingOk(s, job, s.dispatching[job]);
      NewAttemptKeeps(s, a, job, mine.op, parents);
      DispatchingKeeps(s.(attempts := s.attempts[a := NewAttempt(job, mine.op, parents)]), job, Held(mine, a));
    }
  }

  lemma AbandonKeeps(s: State, job: JobId)
    requires Inv(s)
    ensures Inv(s.(dispatching := s.dispatching - {job}))
  {
    FewerKeeps(s, s.(dispatching := s.dispatching - {job}));
  }

  lemma RejectLineageKeeps(s: State, job: JobId)
    requires Inv(s)
    ensures Inv(ApplyRejectLineage(s, job))
  {
    if job in s.dispatching && s.dispatching[job].Marked? && job in s.items {
      assert DispatchingOk(s, job, s.dispatching[job]);
      AbandonKeeps(s, job);
      var s1 := s.(dispatching := s.dispatching - {job});
      if s.items[job] == s.dispatching[job].mine {
        assert ItemOk(s1, job, s.items[job]);
        WriteKeeps(s1, job, s.items[job].(status := ItemNeedsInput));
      }
    }
  }

  lemma BindKeeps(s: State, job: JobId)
    requires Inv(s)
    ensures Inv(ApplyBind(s, job))
  {
    if job in s.dispatching && s.dispatching[job].Held? && job in s.items {
      assert DispatchingOk(s, job, s.dispatching[job]);
      AbandonKeeps(s, job);
      var s1 := s.(dispatching := s.dispatching - {job});
      if s.items[job] == s.dispatching[job].mine {
        var next := s.items[job].(status := Running, attempt := Some(s.dispatching[job].attempt));
        assert ItemOk(s1, job, s.items[job]);
        WriteKeeps(s1, job, next);
        ActiveKeeps(Write(s1, job, next), job, Bound);
      }
    }
  }

  // ----- executeItem and executions -----

  lemma ReadBoundKeeps(s: State, job: JobId)
    requires Inv(s)
    ensures Inv(ApplyReadBound(s, job))
  {
    if job in s.active && s.active[job].Bound? && job in s.items {
      assert ItemOk(s, job, s.items[job]) && ExecutionOk(s, job, s.active[job]);
      ActiveIsNotDispatching(s, job);
      ActiveKeeps(s, job, ApplyReadBound(s, job).active[job]);
    }
  }

  lemma ClaimKeeps(s: State, job: JobId)
    requires Inv(s)
    ensures Inv(ApplyClaim(s, job))
  {
    if ApplyClaim(s, job) != s {
      var Claiming(a, op) := s.active[job];
      assert ExecutionOk(s, job, s.active[job]);
      ActiveIsNotDispatching(s, job);
      var s1 := s.(attempts := s.attempts[a := s.attempts[a].(status := Claimed, op := Some(op))]);
      ClaimAttemptKeeps(s, job, a, op);
      assert ExecutionOk(s1, job, s1.active[job]);
      ActiveKeeps(s1, job, Launching(a, op));
    }
  }

  lemma ClaimAttemptKeeps(s: State, job: JobId, a: AttemptId, op: OpId)
    requires Inv(s) && OfJob(s, job, a) && s.attempts[a].status == Reserved && Named(s, job, a)
    ensures Inv(s.(attempts := s.attempts[a := s.attempts[a].(status := Claimed, op := Some(op))]))
  {
    assert AttemptOk(s, a, s.attempts[a]);
    AttemptKeeps(s, a, s.attempts[a].(status := Claimed, op := Some(op)));
  }

  lemma LaunchKeeps(s: State, job: JobId)
    requires Inv(s)
    ensures Inv(ApplyLaunch(s, job))
  {
    var s' := ApplyLaunch(s, job);
    if s' != s {
      var a := s.active[job].attempt;
      assert ExecutionOk(s, job, s.active[job]);
      ActiveIsNotDispatching(s, job);
      ActiveKeeps(s, job, Waiting(a));
      var s1 := s.(active := s.active[job := Waiting(a)]);
      ExecutingKeeps(s1, a);
    }
  }

  lemma ExecutingKeeps(s: State, a: AttemptId)
    requires Inv(s) && a in s.attempts && s.attempts[a].status != Reserved
    ensures Inv(s.(executing := s.executing + {a}))
  {
    var s' := s.(executing := s.executing + {a});
    forall j | j in s'.active ensures ExecutionOk(s', j, s'.active[j]) {
      assert ExecutionOk(s, j, s.active[j]);
    }
    forall j | j in s'.dispatching ensures DispatchingOk(s', j, s'.dispatching[j]) {
      assert DispatchingOk(s, j, s.dispatching[j]);
    }
    ChecksFrame(s, s');
    VolatileKeeps(s, s');
  }

  lemma ProgressKeeps(s: State, a: AttemptId, next: AttemptStatus, verification: VerificationStatus, workspace: bool)
    requires Inv(s)
    ensures Inv(ApplyProgress(s, a, next, verification, workspace))
  {
    if ApplyProgress(s, a, next, verification, workspace) != s {
      assert AttemptOk(s, a, s.attempts[a]);
      AttemptKeeps(s, a, ApplyProgress(s, a, next, verification, workspace).attempts[a]);
    }
  }

  lemma CleanupChangeKeeps(s: State, a: AttemptId, cleanup: CleanupStatus)
    requires Inv(s)
    ensures Inv(ApplyCleanupChange(s, a, cleanup))
  {
    if ApplyCleanupChange(s, a, cleanup) != s {
      assert AttemptOk(s, a, s.attempts[a]);
      AttemptKeeps(s, a, s.attempts[a].(cleanup := cleanup));
    }
  }

  lemma RemovalStartKeeps(s: State, a: AttemptId)
    requires Inv(s)
    ensures Inv(ApplyRemovalStart(s, a))
  {
    if ApplyRemovalStart(s, a) != s {
      assert AttemptOk(s, a, s.attempts[a]);
      AttemptKeeps(s, a, ApplyRemovalStart(s, a).attempts[a]);
    }
  }

  lemma RemovalEndKeeps(s: State, a: AttemptId, proven: bool)
    requires Inv(s)
    ensures Inv(ApplyRemovalEnd(s, a, proven))
  {
    if ApplyRemovalEnd(s, a, proven) != s {
      assert AttemptOk(s, a, s.attempts[a]);
      AttemptKeeps(s, a, ApplyRemovalEnd(s, a, proven).attempts[a]);
    }
  }

  /** The projection of a finished attempt of the job is a proper item, and may be written if nothing is in flight. */
  lemma ProjectionKeeps(s: State, job: JobId, a: AttemptId)
    requires Inv(s) && job in s.items && OfJob(s, job, a) && TerminalAttempt(s, a) && !InFlight(s, job)
    ensures Inv(Write(s, job, Projected(s.items[job], Result(s, a))))
  {
    var next := Projected(s.items[job], Result(s, a));
    assert ItemOk(s, job, s.items[job]);
    ProjectionMeaning(Result(s, a));
    WriteKeeps(s, job, next);
  }

  lemma FinishKeeps(s: State, job: JobId)
    requires Inv(s)
    ensures Inv(ApplyFinish(s, job))
  {
    if ApplyFinish(s, job) != s { FinishWriteKeeps(s, job, s.active[job].attempt); }
  }

  lemma FinishWriteKeeps(s: State, job: JobId, a: AttemptId)
    requires Inv(s) && job in s.active && s.active[job] == Waiting(a) && job in s.items && TerminalAttempt(s, a)
    ensures Inv(Write(s, job, Projected(s.items[job], Result(s, a))).(active := s.active[job := Ended]))
  {
    assert ExecutionOk(s, job, s.active[job]);
    ActiveIsNotDispatching(s, job);
    ProjectionKeeps(s, job, a);
    ProjectionMeaning(Result(s, a));
    ActiveKeeps(Write(s, job, Projected(s.items[job], Result(s, a))), job, Ended);
  }

  lemma ExecutionErrorKeeps(s: State, job: JobId)
    requires Inv(s)
    ensures Inv(ApplyExecutionError(s, job))
  {
    if job in s.active && !s.active[job].Ended? && job in s.items {
      assert ExecutionOk(s, job, s.active[job]);
      ActiveIsNotDispatching(s, job);
      ActiveKeeps(s, job, Ended);
      var s1 := s.(active := s.active[job := Ended]);
      assert ItemOk(s1, job, s.items[job]);
      if s.items[job].status != ItemCancelled && ItemMay(s.items[job].status, ItemFailed) {
        WriteKeeps(s1, job, s.items[job].(status := ItemFailed));
      }
    }
  }

  lemma DropKeeps(s: State, job: JobId)
    requires Inv(s)
    ensures Inv(s.(active := s.active - {job}))
  {
    FewerKeeps(s, s.(active := s.active - {job}));
  }

  lemma EndExecutionKeeps(s: State, a: AttemptId)
    requires Inv(s)
    ensures Inv(s.(executing := s.executing - {a}))
  {
    FewerKeeps(s, s.(executing := s.executing - {a}));
  }

  // ----- clients -----

  lemma AttemptEndedKeeps(s: State, a: AttemptId, status: AttemptStatus)
    requires Inv(s) && a in s.attempts && !AttemptTerminal(s.attempts[a].status) && AttemptTerminal(status)
    ensures Inv(s.(attempts := s.attempts[a := s.attempts[a].(status := status, verification := Ineligible)]))
  {
    assert AttemptOk(s, a, s.attempts[a]);
    AttemptKeeps(s, a, s.attempts[a].(status := status, verification := Ineligible));
  }

  lemma CancelAttemptKeeps(s: State, a: AttemptId)
    requires Inv(s)
    ensures Inv(ApplyCancelAttempt(s, a))
  {
    if ApplyCancelAttempt(s, a) != s { AttemptEndedKeeps(s, a, Cancelled); }
  }

  lemma RecoverAttemptKeeps(s: State, a: AttemptId)
    requires Inv(s)
    ensures Inv(ApplyRecoverAttempt(s, a))
  {
    if a in s.attempts && !AttemptTerminal(s.attempts[a].status) {
      AttemptEndedKeeps(s, a, if s.attempts[a].status in {Reserved, Claimed} then Cancelled else Failed);
    }
  }

  lemma CancelRunningKeeps(s: State, job: JobId)
    requires Inv(s)
    ensures Inv(ApplyCancelRunning(s, job))
  {
    if ApplyCancelRunning(s, job) != s {
      assert ItemOk(s, job, s.items[job]);
      WriteKeeps(s, job, s.items[job].(status := Cancelling));
    }
  }

  lemma CancelItemKeeps(s: State, job: JobId)
    requires Inv(s)
    ensures Inv(ApplyCancelItem(s, job))
  {
    if ApplyCancelItem(s, job) != s {
      assert ItemOk(s, job, s.items[job]);
      WriteKeeps(s, job, s.items[job].(status := ItemCancelled));
    }
  }

  lemma RetryCheckKeeps(s: State, job: JobId)
    requires Inv(s)
    ensures Inv(ApplyRetryCheck(s, job))
  {
    if ApplyRetryCheck(s, job) != s { RetryingKeeps(s, job); }
  }

  /** What a requeue needs: the item is the one that was checked. */
  lemma RequeueKeeps(s: State, job: JobId, next: Item)
    requires Inv(s) && job in s.items && CheckedItem(s, job, s.items[job])
    requires next == Requeued(s.items[job]).(retries := next.retries) && job in s.maxRetries
             && next.retries <= s.maxRetries[job]
    ensures Inv(Write(s, job, next))
  {
    assert ItemOk(s, job, s.items[job]);
    WriteKeeps(s, job, next);
  }

  lemma RetryCommitKeeps(s: State, job: JobId)
    requires Inv(s)
    ensures Inv(ApplyRetryCommit(s, job))
  {
    if job in s.retrying && job in s.items {
      var s1 := s.(retrying := s.retrying - {job});
      FewerKeeps(s, s1);
      assert CheckedItem(s, job, s.retrying[job]);
      assert ItemOk(s, job, s.items[job]);
      if s.items[job] == s.retrying[job] { RequeueKeeps(s1, job, Requeued(s.items[job])); }
    }
  }

  lemma CrashKeeps(s: State)
    requires Inv(s)
    ensures Inv(ApplyCrash(s))
  {
    FewerKeeps(s, ApplyCrash(s));
  }

  // ----- startup recovery -----

  lemma RecoverUnreservedKeeps(s: State, job: JobId)
    requires Inv(s)
    ensures Inv(ApplyRecoverUnreserved(s, job))
  {
    if ApplyRecoverUnreserved(s, job) != s {
      assert ItemOk(s, job, s.items[job]);
      WriteKeeps(s, job, s.items[job].(status := Queued, op := None, attempt := None));
    }
  }

  lemma RecoverBindKeeps(s: State, job: JobId, a: AttemptId)
    requires Inv(s)
    ensures Inv(ApplyRecoverBind(s, job, a))
  {
    if ApplyRecoverBind(s, job, a) != s {
      assert ItemOk(s, job, s.items[job]);
      WriteKeeps(s, job, s.items[job].(status := Running, attempt := Some(a)));
    }
  }

  lemma RecoverReadKeeps(s: State, job: JobId)
    requires Inv(s)
    ensures Inv(ApplyRecoverRead(s, job))
  {
    var s' := ApplyRecoverRead(s, job);
    if s' != s {
      assert ItemOk(s, job, s.items[job]);
      VolatileFrame(s, s');
      ReadingKeeps(s, job, s.items[job].attempt.value);
      VolatileKeeps(s, s');
    }
  }

  lemma ReadingKeeps(s: State, job: JobId, a: AttemptId)
    requires ChecksOk(s) && job in s.items && OfJob(s, job, a)
    ensures ChecksOk(s.(reading := s.reading[job := a]))
  {
    var s' := s.(reading := s.reading[job := a]);
    forall j | j in s'.vouched ensures CheckedItem(s', j, s'.vouched[j]) {
      assert CheckedItem(s, j, s.vouched[j]);
    }
    forall j | j in s'.retrying ensures CheckedItem(s', j, s'.retrying[j]) {
      assert CheckedItem(s, j, s.retrying[j]);
    }
  }

  lemma SeeTerminalKeeps(s: State, job: JobId)
    requires Inv(s)
    ensures Inv(ApplyRecoverSeeTerminal(s, job))
  {
    var s' := ApplyRecoverSeeTerminal(s, job);
    if s' != s {
      var s1 := s.(reading := s.reading - {job});
      FewerKeeps(s, s1);
      VolatileFrame(s1, s');
      forall j | j in s'.vouched ensures CheckedItem(s', j, s'.vouched[j]) {
        assert CheckedItem(s, j, s.vouched[j]);
      }
      forall j | j in s'.retrying ensures CheckedItem(s', j, s'.retrying[j]) {
        assert CheckedItem(s, j, s.retrying[j]);
      }
      VolatileKeeps(s1, s');
    }
  }

  /** Recovery's projection finds nothing of the job in flight, if it writes at all. */
  predicate FinishSafe(s: State) {
    && s.recovery.Finishing? && s.recovery.job in s.items && s.recovery.attempt in s.attempts
    && ItemMay(s.items[s.recovery.job].status, ProjectStatus(Result(s, s.recovery.attempt)))
    ==> !InFlight(s, s.recovery.job)
  }

  lemma RecoverFinishKeeps(s: State)
    requires Inv(s) && s.recovery.Finishing? && FinishSafe(s)
    ensures Inv(ApplyRecoverFinish(s, s.recovery.job, s.recovery.attempt))
  {
    var job, a := s.recovery.job, s.recovery.attempt;
    var next := Projected(s.items[job], Result(s, a));
    if ItemMay(s.items[job].status, next.status) {
      ProjectionKeeps(s, job, a);
      FewerKeeps(Write(s, job, next), Write(s, job, next).(recovery := On));
    } else {
      FewerKeeps(s, s.(recovery := On));
    }
  }

  lemma RecoverWithdrawKeeps(s: State, job: JobId)
    requires Inv(s)
    ensures Inv(ApplyRecoverWithdraw(s, job))
  {
    if ApplyRecoverWithdraw(s, job) != s {
      var a := s.items[job].attempt.value;
      assert AttemptOk(s, a, s.attempts[a]);
      RecoverAttemptKeeps(s, a);
      VouchedKeeps(ApplyRecoverAttempt(s, a), job);
    }
  }

  lemma RecoverCheckKeeps(s: State, job: JobId)
    requires Inv(s)
    ensures Inv(ApplyRecoverCheck(s, job))
  {
    if ApplyRecoverCheck(s, job) != s { VouchedKeeps(s, job); }
  }

  lemma ForgetVouchedKeeps(s: State, job: JobId)
    requires Inv(s)
    ensures Inv(s.(vouched := s.vouched - {job}))
  {
    FewerKeeps(s, s.(vouched := s.vouched - {job}));
  }

  lemma RecoverRequeueKeeps(s: State, job: JobId)
    requires Inv(s)
    ensures Inv(ApplyRecoverRequeue(s, job))
  {
    var s' := ApplyRecoverRequeue(s, job);
    if s' == s {
    } else if s' == s.(vouched := s.vouched - {job}) {
      ForgetVouchedKeeps(s, job);
    } else {
      VouchedRequeueKeeps(s, job);
    }
  }

  lemma VouchedRequeueKeeps(s: State, job: JobId)
    requires Inv(s) && job in s.vouched && job in s.items && s.items[job] == s.vouched[job]
    requires job in s.maxRetries && s.items[job].retries < s.maxRetries[job]
    ensures Inv(Write(s.(vouched := s.vouched - {job}), job,
                      Requeued(s.items[job]).(retries := s.items[job].retries + 1)))
  {
    ForgetVouchedKeeps(s, job);
    assert CheckedItem(s, job, s.vouched[job]);
    RequeueKeeps(s.(vouched := s.vouched - {job}), job, Requeued(s.items[job]).(retries := s.items[job].retries + 1));
  }

  lemma RecoverCancelledKeeps(s: State, job: JobId)
    requires Inv(s)
    ensures Inv(ApplyRecoverCancelled(s, job))
  {
    var s1 := s.(vouched := s.vouched - {job});
    ForgetVouchedKeeps(s, job);
    if job in s.items && s.items[job].status == Cancelling {
      assert ItemOk(s1, job, s1.items[job]);
      WriteKeeps(s1, job, s.items[job].(status := ItemCancelled, op := None, completion := None));
    }
  }

  lemma RecoverNeedsInputKeeps(s: State, job: JobId)
    requires Inv(s)
    ensures Inv(ApplyRecoverNeedsInput(s, job))
  {
    if ActiveItem(s, job) || Is(s, job, Dispatching) {
      var s1 := s.(vouched := s.vouched - {job});
      ForgetVouchedKeeps(s, job);
      assert ItemOk(s1, job, s1.items[job]);
      WriteKeeps(s1, job, s.items[job].(status := ItemNeedsInput));
    }
  }

  lemma RecoverDoneKeeps(s: State)
    requires Inv(s)
    ensures Inv(s.(recovery := Off, reading := map[], vouched := map[]))
  {
    FewerKeeps(s, s.(recovery := Off, reading := map[], vouched := map[]));
  }

  // ----- every action -----

  lemma ListingKeeps(s: State, action: Action, dispatchable: bool)
    requires Inv(s) && IsListing(action)
    ensures Inv(ApplyListing(s, action, dispatchable))
  {
    match action
    case Enqueue(job, dependsOn) => EnqueueKeeps(s, job, dependsOn);
    case List => ListKeeps(s);
    case Block(job) => BlockKeeps(s, job);
    case Mark(job) => MarkKeeps(s, job);
  }

  lemma ReservingKeeps(s: State, action: Action)
    requires Inv(s) && IsReserving(action)
    ensures Inv(ApplyReserving(s, action))
  {
    match action
    case Reserve(job, a) => ReserveKeeps(s, job, a);
    case RejectLineage(job) => RejectLineageKeeps(s, job);
    case Bind(job) => BindKeeps(s, job);
    case Abandon(job) => AbandonKeeps(s, job);
  }

  lemma StartingKeeps(s: State, action: Action)
    requires Inv(s) && IsStarting(action)
    ensures Inv(ApplyStarting(s, action))
  {
    match action
    case ReadBound(job) => ReadBoundKeeps(s, job);
    case Claim(job) => ClaimKeeps(s, job);
    case Launch(job) => LaunchKeeps(s, job);
    case Progress(a, next, verification, workspace) => ProgressKeeps(s, a, next, verification, workspace);
  }

  lemma EndingKeeps(s: State, action: Action)
    requires Inv(s) && IsEnding(action)
    ensures Inv(ApplyEnding(s, action))
  {
    match action
    case CleanupChange(a, cleanup) => CleanupChangeKeeps(s, a, cleanup);
    case EndExecution(a) => EndExecutionKeeps(s, a);
    case Finish(job) => FinishKeeps(s, job);
    case ExecutionError(job) => ExecutionErrorKeeps(s, job);
    case Drop(job) => DropKeeps(s, job);
  }

  lemma CancelActionKeeps(s: State, action: Action)
    requires Inv(s) && IsCancel(action)
    ensures Inv(ApplyCancel(s, action))
  {
    match action
    case CancelRunning(job) => CancelRunningKeeps(s, job);
    case CancelAttempt(a) => CancelAttemptKeeps(s, a);
    case CancelItem(job) => CancelItemKeeps(s, job);
    case Crash => CrashKeeps(s);
  }

  lemma RetryActionKeeps(s: State, action: Action)
    requires Inv(s) && IsRetry(action)
    ensures Inv(ApplyRetry(s, action))
  {
    match action
    case RetryCheck(job) => RetryCheckKeeps(s, job);
    case RetryCommit(job) => RetryCommitKeeps(s, job);
    case RemovalStart(a) => RemovalStartKeeps(s, a);
    case RemovalEnd(a, proven) => RemovalEndKeeps(s, a, proven);
  }

  lemma BindingKeeps(s: State, action: Action)
    requires Inv(s) && IsBinding(action)
    ensures Inv(ApplyBinding(s, action))
  {
    match action
    case RecoverUnreserved(job) => RecoverUnreservedKeeps(s, job);
    case RecoverBind(job, a) => RecoverBindKeeps(s, job, a);
  }

  lemma SettlingKeeps(s: State, action: Action)
    requires Inv(s) && IsSettling(action)
    ensures Inv(ApplySettling(s, action))
  {
    match action
    case RecoverRequeue(job) => RecoverRequeueKeeps(s, job);
    case RecoverCancelled(job) => RecoverCancelledKeeps(s, job);
    case RecoverNeedsInput(job) => RecoverNeedsInputKeeps(s, job);
  }

  lemma InspectingKeeps(s: State, action: Action)
    requires Inv(s) && IsInspecting(action)
    ensures Inv(ApplyInspecting(s, action))
  {
    match action
    case RecoverRead(job) => RecoverReadKeeps(s, job);
    case RecoverForget(job) => FewerKeeps(s, s.(reading := s.reading - {job}));
    case RecoverSeeTerminal(job) => SeeTerminalKeeps(s, job);
    case RecoverAttempt(a) => RecoverAttemptKeeps(s, a);
    case RecoverWithdraw(job) => RecoverWithdrawKeeps(s, job);
    case RecoverCheck(job) => RecoverCheckKeeps(s, job);
    case RecoverDone => RecoverDoneKeeps(s);
  }

  lemma RecoveryKeeps(s: State, action: Action)
    requires Inv(s) && IsRecovery(action) && (action.RecoverFinish? ==> FinishSafe(s))
    ensures Inv(ApplyRecovery(s, action))
  {
    if action.RecoverFinish? {
      if s.recovery.Finishing? { RecoverFinishKeeps(s); }
    } else if s.recovery == On {
      if IsBinding(action) { BindingKeeps(s, action); }
      else if IsSettling(action) { SettlingKeeps(s, action); }
      else { InspectingKeeps(s, action); }
    }
  }

  /** Every action keeps the invariant, if recovery's projections find nothing in flight. */
  lemma ApplyKeeps(s: State, action: Action, overlap: bool)
    requires Inv(s) && (action.RecoverFinish? ==> FinishSafe(s))
    ensures Inv(Apply(s, action, overlap))
  {
    if IsRecovery(action) { RecoveryKeeps(s, action); }
    else if IsListing(action) { ListingKeeps(s, action, s.recovery == Off || overlap); }
    else if IsReserving(action) { ReservingKeeps(s, action); }
    else if IsStarting(action) { StartingKeeps(s, action); }
    else if IsEnding(action) { EndingKeeps(s, action); }
    else if IsCancel(action) { CancelActionKeeps(s, action); }
    else { RetryActionKeeps(s, action); }
  }

  // ----- runs -----

  /** Every projection by recovery finds nothing of its job in flight. */
  predicate SafeFinishes(s: State, actions: seq<Action>, overlap: bool) {
    forall k :: 0 <= k < |actions| && actions[k].RecoverFinish? ==> FinishSafe(Run(s, actions[..k], overlap))
  }

  lemma SafeFinishesPrefix(s: State, actions: seq<Action>, overlap: bool)
    requires actions != [] && SafeFinishes(s, actions, overlap)
    ensures SafeFinishes(s, actions[..|actions| - 1], overlap)
    ensures actions[|actions| - 1].RecoverFinish? ==> FinishSafe(Run(s, actions[..|actions| - 1], overlap))
  {
    var prefix := actions[..|actions| - 1];
    assert forall k :: 0 <= k < |prefix| ==> prefix[k] == actions[k] && prefix[..k] == actions[..k];
  }

  lemma {:induction false} RunKeeps(s: State, actions: seq<Action>, overlap: bool)
    requires Initial(s) && SafeFinishes(s, actions, overlap)
    ensures Inv(Run(s, actions, overlap))
  {
    if actions != [] {
      SafeFinishesPrefix(s, actions, overlap);
      RunKeeps(s, actions[..|actions| - 1], overlap);
      ApplyKeeps(Run(s, actions[..|actions| - 1], overlap), actions[|actions| - 1], overlap);
    }
  }
}
