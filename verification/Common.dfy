/** Small shared vocabulary: optional values and the record statuses of the control plane. */
module Common {

  datatype Option<+T> = None | Some(value: T)

  /** Queue item statuses. */
  datatype ItemStatus =
    | Queued | Dispatching | Running | Cancelling
    | ItemCompleted | ItemFailed | ItemNeedsInput | ItemCancelled

  /** Attempt statuses. */
  datatype AttemptStatus =
    | Reserved | Claimed | Preparing | AttemptRunning | Verifying
    | Completed | Failed | NeedsInput | Cancelled

  datatype VerificationStatus = NotRun | VerificationRunning | Eligible | Ineligible

  datatype CleanupStatus = NotRequired | Pending | Proven | CleanupFailed | Unknown

  predicate ItemTerminal(status: ItemStatus) {
    status in {ItemCompleted, ItemFailed, ItemNeedsInput, ItemCancelled}
  }

  predicate AttemptTerminal(status: AttemptStatus) {
    status in {Completed, Failed, NeedsInput, Cancelled}
  }

  lemma StatusCases(status: AttemptStatus)
    ensures AttemptTerminal(status) || status in {Reserved, Claimed, Preparing, AttemptRunning, Verifying}
  {
  }

  predicate CleanupSafe(status: CleanupStatus) {
    status == NotRequired || status == Proven
  }

  /** The attempt transition table. */
  predicate AttemptMay(current: AttemptStatus, next: AttemptStatus) {
    match current
    case Reserved => next in {Reserved, Claimed, Cancelled}
    case Claimed => next in {Claimed, Preparing, Cancelled, Failed}
    case Preparing => next in {Preparing, AttemptRunning, NeedsInput, Failed, Cancelled}
    case AttemptRunning => next in {AttemptRunning, Verifying, Failed, Cancelled}
    case Verifying => next in {Verifying, Completed, Failed, Cancelled}
    case _ => false
  }

  /** The queue transition table used by ordinary updates. */
  predicate ItemMay(current: ItemStatus, next: ItemStatus) {
    match current
    case Queued => next in {Queued, Dispatching, ItemCancelled, ItemNeedsInput}
    case Dispatching => next in {Dispatching, Queued, Running, ItemCancelled, ItemNeedsInput}
    case Running => next !in {Dispatching}
    case Cancelling => next in {Cancelling, ItemCompleted, ItemFailed, ItemNeedsInput, ItemCancelled}
    case ItemCompleted => next in {ItemCompleted, Queued}
    case ItemFailed => next in {ItemFailed, Queued}
    case ItemNeedsInput => next in {ItemNeedsInput, Queued}
    case ItemCancelled => next in {ItemCancelled, Queued}
  }
}
