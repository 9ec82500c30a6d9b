/** Projection of a finished attempt onto its queue item. */
module Completion {
  import opened Common

  type AttemptId = nat

  /** The completion evidence stored in a queue item. */
  datatype Evidence = Evidence(
    attempt: AttemptId, status: AttemptStatus, verification: VerificationStatus, cleanup: CleanupStatus)

  /** The queue status that a result projects to. */
  function ProjectStatus(result: Evidence): ItemStatus {
    var safe := CleanupSafe(result.cleanup);
    var eligible := result.status == Completed && result.verification == Eligible && safe;
    var needsInput := !safe || result.status == NeedsInput || (result.status == Completed && !eligible);
    if !safe then ItemNeedsInput
    else if result.status == Cancelled then ItemCancelled
    else if eligible then ItemCompleted
    else if needsInput then ItemNeedsInput
    else ItemFailed
  }

  /**
   The projection is always terminal; it is `completed` exactly for a completed, eligible attempt with safe
   cleanup, `cancelled` exactly for a cancelled one with safe cleanup, and never better than `needs-input`
   when cleanup is unresolved.
   */
  lemma ProjectionMeaning(result: Evidence)
    ensures ItemTerminal(ProjectStatus(result))
    ensures ProjectStatus(result) == ItemCompleted <==>
              result.status == Completed && result.verification == Eligible && CleanupSafe(result.cleanup)
    ensures ProjectStatus(result) == ItemCancelled <==> result.status == Cancelled && CleanupSafe(result.cleanup)
    ensures !CleanupSafe(result.cleanup) ==> ProjectStatus(result) == ItemNeedsInput
    ensures AttemptTerminal(result.status) && CleanupSafe(result.cleanup) && ProjectStatus(result) == ItemFailed ==>
              result.status == Failed
  {
  }
}
