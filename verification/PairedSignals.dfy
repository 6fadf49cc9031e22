/** From a verdict to what should happen next. */
module PairedSignals {
  import opened Common
  import opened PairedTaskStatus

  datatype Verdict = StepDone | TaskDone | DoneVerdict | DoneWithConcerns | Blocked | NeedsContext | Continue

  datatype Signal =
    | RequestReviewer(resetStatusToActive: bool)
    | RequestOwnerFinalize
    | RequestOwnerChanges
    | RequestArbiter
    | CompleteTask(reason: CompletionReason)
    | PreserveReviewReady

  predicate Stuck(v: Verdict) { v == Blocked || v == NeedsContext }

  predicate Approves(v: Verdict) { v == TaskDone || v == DoneVerdict }

  /** An owner turn on an active task. */
  function OwnerSignal(v: Verdict): Signal {
    if Stuck(v) then RequestArbiter else RequestReviewer(false)
  }

  /** The owner's last turn after an approval. Anything else than trouble, a
      step or a change finishes the task. */
  function FinalizeSignal(v: Verdict, changed: Option<bool>, roundTrips: nat, deadlockThreshold: int): Signal {
    if Stuck(v) then RequestArbiter
    else if v == StepDone then RequestReviewer(true)
    else if v == DoneWithConcerns || changed == Some(true) then
      if roundTrips >= deadlockThreshold then RequestArbiter else RequestReviewer(true)
    else CompleteTask(Done)
  }

  function ReviewerSignal(v: Verdict, roundTrips: nat, deadlockThreshold: int): Signal {
    if Approves(v) then RequestOwnerFinalize
    else if Stuck(v) || roundTrips >= deadlockThreshold then RequestArbiter
    else RequestOwnerChanges
  }

  /** A reviewer run that failed but left a text. */
  function ReviewerFailureSignal(v: Verdict): Signal {
    if Approves(v) then RequestOwnerFinalize
    else if Stuck(v) then CompleteTask(Escalated)
    else PreserveReviewReady
  }
}
