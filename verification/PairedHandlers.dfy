/** What the end of an execution does to the task row: as the sequence of
    writes the handlers issue, and as the one step they amount to when nobody
    writes in between. */
module PairedHandlers {
  import opened Common
  import opened PairedTaskStatus
  import opened PairedSignals

  const OWNER_FAILURE_ESCALATION_THRESHOLD := 2
  const EMPTY_STEP_DONE_THRESHOLD := 2

  /** No `maxRoundTrips` is the configured value 0, no limit. */
  datatype Config = Config(arbiterEnabled: bool, deadlockThreshold: int, maxRoundTrips: Option<int>)
  {
    predicate AtLimit(roundTrips: nat) {
      maxRoundTrips.Some? && roundTrips >= maxRoundTrips.value
    }
    function Resumed(): nat { Max(0, deadlockThreshold - 1) }
  }

  /** The row afterwards, and whether an invalid transition was thrown. */
  datatype Effect = Effect(row: Row, raised: bool)

  /** What an owner run leaves behind: its verdict, whether the tree differs
      from the recorded one, whether a workspace is on record, two clock readings. */
  datatype OwnerReport = OwnerReport(verdict: Verdict, changed: Option<bool>,
                                     workspace: bool, now: int, requestedAt: int)

  function Moved(row: Row, next: Status, target: Row): Effect {
    if CanMove(row.status, next) then Effect(target.(status := next), false) else Effect(row, true)
  }

  function Refer(cfg: Config, row: Row, target: Row): Effect {
    if CanMove(row.status, if cfg.arbiterEnabled then ArbiterRequested else Completed)
    then Effect(Referred(cfg.arbiterEnabled, target), false)
    else Effect(row, true)
  }

  // ----- owner -----

  function FailedOwner(cfg: Config, row: Row, now: int): Effect {
    var failures := row.ownerFailures + 1;
    var target := row.(ownerFailures := failures, updatedAt := now);
    if failures >= OWNER_FAILURE_ESCALATION_THRESHOLD then Refer(cfg, row, target)
    else Moved(row, Active, target)
  }

  /** Hand over to the reviewer and count the round trip; `row` is what `snapshot` has become. */
  function Reviewable(cfg: Config, snapshot: Row, row: Row, r: OwnerReport, streak: nat,
                      finalize: nat, empty: nat): Effect {
    if cfg.AtLimit(snapshot.roundTrips) || !r.workspace then Effect(row, false)
    else Moved(row, ReviewReady,
               row.(roundTrips := snapshot.roundTrips + 1, ownerFailures := 0, stepDoneStreak := streak,
                    finalizeStepDone := finalize, emptyStreak := empty, updatedAt := r.now))
  }

  function NextStreak(row: Row, v: Verdict): nat {
    if v == StepDone then row.stepDoneStreak + 1 else 0
  }

  /** STEP_DONE in a row with nothing changed. */
  function NextEmpty(row: Row, r: OwnerReport): nat {
    if r.verdict == StepDone && r.changed == Some(false) then row.emptyStreak + 1 else 0
  }

  function NextFinalize(row: Row, v: Verdict): nat {
    if v == StepDone then row.finalizeStepDone + 1 else row.finalizeStepDone
  }

  function OwnerWorked(cfg: Config, row: Row, r: OwnerReport): Effect {
    var streak, empty := NextStreak(row, r.verdict), NextEmpty(row, r);
    var referred := row.(ownerFailures := 0, stepDoneStreak := streak, updatedAt := r.now);
    if OwnerSignal(r.verdict).RequestArbiter? then Refer(cfg, row, referred)
    else if empty >= EMPTY_STEP_DONE_THRESHOLD then Refer(cfg, row, referred.(emptyStreak := empty))
    else
      var noted := if streak != row.stepDoneStreak
                   then row.(stepDoneStreak := streak, emptyStreak := empty, updatedAt := r.now) else row;
      Reviewable(cfg, row, noted, r, streak, row.finalizeStepDone, empty)
  }

  function OwnerFinalized(cfg: Config, row: Row, r: OwnerReport): Effect {
    var empty, finalize := NextEmpty(row, r), NextFinalize(row, r.verdict);
    var settled := row.(ownerFailures := 0, stepDoneStreak := 0, finalizeStepDone := finalize,
                        emptyStreak := empty, updatedAt := r.now);
    match FinalizeSignal(r.verdict, r.changed, row.roundTrips, cfg.deadlockThreshold)
    case RequestArbiter => Refer(cfg, row, settled)
    case RequestReviewer(_) =>
      if empty >= EMPTY_STEP_DONE_THRESHOLD then Refer(cfg, row, settled)
      else
        var active := Moved(row, Active, settled);
        if active.raised then active
        else Reviewable(cfg, row, active.row, r, 0, finalize, empty)
    case _ => Moved(row, Completed, settled.(emptyStreak := 0, completionReason := Some(Done)))
  }

  function OwnerCompleted(cfg: Config, row: Row, r: OwnerReport): Effect {
    if row.status == MergeReady then OwnerFinalized(cfg, row, r) else OwnerWorked(cfg, row, r)
  }

  method HandleFailedOwnerExecution(store: PairedTaskStore, cfg: Config, task: Row, now: int) returns (raised: bool)
    requires store.row == task
    modifies store
    ensures Effect(store.row, raised) == FailedOwner(cfg, task, now)
  {
    var nextFailureCount := task.ownerFailures + 1;
    var patch := NoPatch.(ownerFailures := Some(nextFailureCount));
    if nextFailureCount >= OWNER_FAILURE_ESCALATION_THRESHOLD {
      var outcome := store.RequestArbiterOrEscalate(cfg.arbiterEnabled, task.status, task.updatedAt, now, patch);
      return outcome.Invalid?;
    }
    if task.status != Active {
      var outcome := store.TransitionStatus(task.status, Active, task.updatedAt, now, patch);
      return outcome.Invalid?;
    }
    var _ := store.ApplyPatch(task.updatedAt, now, patch);
    return false;
  }

  /** Reads the row again before each write, and stamps the last one with the
      older `now`. */
  method MaybeAutoTriggerReviewer(store: PairedTaskStore, cfg: Config, task: Row, r: OwnerReport, patch: Patch)
    returns (raised: bool)
    requires patch.status.None? && patch.sourceRef.None? && patch.roundTrips.None? && patch.ownerFailures.None?
    requires patch.arbiterVerdict.None? && patch.completionReason.None?
    modifies store
    ensures Effect(store.row, raised) ==
            Reviewable(cfg, task, old(store.row), r, Or(patch.stepDoneStreak, 0),
                       Or(patch.finalizeStepDone, old(store.row).finalizeStepDone), Or(patch.emptyStreak, 0))
  {
    if cfg.AtLimit(task.roundTrips) { return false; }
    if !r.workspace { return false; }
    var current := store.row;
    var outcome := store.TransitionStatus(current.status, ReviewReady, current.updatedAt, r.requestedAt, NoPatch);
    if outcome.Invalid? { return true; }
    var reviewReadyTask := store.row;
    var _ := store.ApplyPatch(reviewReadyTask.updatedAt, r.now,
               Patch(None, None, Some(task.roundTrips + 1), Some(0), Some(Or(patch.stepDoneStreak, 0)),
                     patch.finalizeStepDone, Some(Or(patch.emptyStreak, 0)), None, None));
    return false;
  }

  method HandleOwnerFinalizeCompletion(store: PairedTaskStore, cfg: Config, task: Row, r: OwnerReport)
      returns (raised: bool)
    requires store.row == task
    modifies store
    ensures Effect(store.row, raised) == OwnerFinalized(cfg, task, r)
  {
    var nextFinalize := NextFinalize(task, r.verdict);
    var nextEmpty := NextEmpty(task, r);
    var settled := NoPatch.(ownerFailures := Some(0), stepDoneStreak := Some(0),
                            finalizeStepDone := Some(nextFinalize), emptyStreak := Some(nextEmpty));
    var signal := FinalizeSignal(r.verdict, r.changed, task.roundTrips, cfg.deadlockThreshold);
    if signal.RequestArbiter? {
      var outcome := store.RequestArbiterOrEscalate(cfg.arbiterEnabled, task.status, task.updatedAt, r.now, settled);
      return outcome.Invalid?;
    }
    if r.verdict == StepDone && r.changed == Some(false) && nextEmpty >= EMPTY_STEP_DONE_THRESHOLD {
      var outcome := store.RequestArbiterOrEscalate(cfg.arbiterEnabled, task.status, task.updatedAt, r.now, settled);
      return outcome.Invalid?;
    }
    if signal.RequestReviewer? {
      if signal.resetStatusToActive {
        var empty := if r.verdict == StepDone then nextEmpty else 0;
        var outcome := store.TransitionStatus(task.status, Active, task.updatedAt, r.now,
                                              settled.(emptyStreak := Some(empty)));
        if outcome.Invalid? { return true; }
      }
      var patch := if r.verdict == StepDone
                   then NoPatch.(finalizeStepDone := Some(nextFinalize), emptyStreak := Some(nextEmpty)) else NoPatch;
      raised := MaybeAutoTriggerReviewer(store, cfg, task, r, patch);
      return;
    }
    var outcome := store.TransitionStatus(task.status, Completed, task.updatedAt, r.now,
                     settled.(emptyStreak := Some(0), completionReason := Some(Done)));
    return outcome.Invalid?;
  }

  method HandleOwnerCompletion(store: PairedTaskStore, cfg: Config, task: Row, r: OwnerReport) returns (raised: bool)
    requires store.row == task
    modifies store
    ensures Effect(store.row, raised) == OwnerCompleted(cfg, task, r)
  {
    if task.status == MergeReady {
      raised := HandleOwnerFinalizeCompletion(store, cfg, task, r);
      return;
    }
    var nextStreak := NextStreak(task, r.verdict);
    var nextEmpty := NextEmpty(task, r);
    if OwnerSignal(r.verdict).RequestArbiter? {
      var outcome := store.RequestArbiterOrEscalate(cfg.arbiterEnabled, task.status, task.updatedAt, r.now,
                       NoPatch.(ownerFailures := Some(0), stepDoneStreak := Some(nextStreak)));
      return outcome.Invalid?;
    }
    if r.verdict == StepDone && r.changed == Some(false) && nextEmpty >= EMPTY_STEP_DONE_THRESHOLD {
      var outcome := store.RequestArbiterOrEscalate(cfg.arbiterEnabled, task.status, task.updatedAt, r.now,
                       NoPatch.(ownerFailures := Some(0), stepDoneStreak := Some(nextStreak),
                                emptyStreak := Some(nextEmpty)));
      return outcome.Invalid?;
    }
    var streaks := NoPatch.(stepDoneStreak := Some(nextStreak), emptyStreak := Some(nextEmpty));
    if nextStreak != task.stepDoneStreak {
      var _ := store.ApplyPatch(task.updatedAt, r.now, streaks);
    }
    raised := MaybeAutoTriggerReviewer(store, cfg, task, r, streaks);
  }

  // ----- reviewer -----

  /** `approvedRef` is read from the owner workspace, or kept when there is none. */
  function ReviewerCompleted(cfg: Config, row: Row, v: Verdict, approvedRef: Option<SourceRef>, now: int): Effect {
    var stamped := row.(updatedAt := now);
    match ReviewerSignal(v, row.roundTrips, cfg.deadlockThreshold)
    case RequestOwnerFinalize => Moved(row, MergeReady, stamped.(sourceRef := approvedRef))
    case RequestArbiter => Refer(cfg, row, stamped)
    case _ => Moved(row, Active, stamped)
  }

  /** `text` is the verdict of what the failed run said, if it said anything. */
  function FailedReviewer(row: Row, text: Option<Verdict>, approvedRef: Option<SourceRef>, now: int): Effect {
    var stamped := row.(updatedAt := now);
    if text.Some? && Approves(text.value) then Moved(row, MergeReady, stamped.(sourceRef := approvedRef))
    else if text.Some? && Stuck(text.value) then Moved(row, Completed, stamped.(completionReason := Some(Escalated)))
    else if row.status == InReview then Effect(stamped.(status := ReviewReady), false)
    else Effect(row, false)
  }

  method HandleReviewerCompletion(store: PairedTaskStore, cfg: Config, task: Row, v: Verdict,
                                  approvedRef: Option<SourceRef>, now: int) returns (raised: bool)
    requires store.row == task
    modifies store
    ensures Effect(store.row, raised) == ReviewerCompleted(cfg, task, v, approvedRef, now)
  {
    var signal := ReviewerSignal(v, task.roundTrips, cfg.deadlockThreshold);
    var outcome;
    if signal.RequestOwnerFinalize? {
      outcome := store.TransitionStatus(task.status, MergeReady, task.updatedAt, now,
                                        NoPatch.(sourceRef := Some(approvedRef)));
    } else if signal.RequestArbiter? {
      outcome := store.RequestArbiterOrEscalate(cfg.arbiterEnabled, task.status, task.updatedAt, now, NoPatch);
    } else {
      outcome := store.TransitionStatus(task.status, Active, task.updatedAt, now, NoPatch);
    }
    return outcome.Invalid?;
  }

  method HandleFailedReviewerExecution(store: PairedTaskStore, task: Row, text: Option<Verdict>,
                                       approvedRef: Option<SourceRef>, now: int) returns (raised: bool)
    requires store.row == task
    modifies store
    ensures Effect(store.row, raised) == FailedReviewer(task, text, approvedRef, now)
  {
    if text.Some? {
      var signal := ReviewerFailureSignal(text.value);
      if signal.RequestOwnerFinalize? {
        var outcome := store.TransitionStatus(task.status, MergeReady, task.updatedAt, now,
                                              NoPatch.(sourceRef := Some(approvedRef)));
        return outcome.Invalid?;
      }
      if signal.CompleteTask? {
        var outcome := store.TransitionStatus(task.status, Completed, task.updatedAt, now,
                         NoPatch.(completionReason := Some(signal.reason)));
        return outcome.Invalid?;
      }
    }
    var fallbackStatus := if task.status in {InReview, ReviewReady} then ReviewReady else task.status;
    if fallbackStatus != task.status {
      var outcome := store.TransitionStatus(task.status, fallbackStatus, task.updatedAt, now, NoPatch);
      return outcome.Invalid?;
    }
    return false;
  }

  // ----- arbiter -----

  /** Written as if from arbitration whatever the row says, so nothing is ever thrown. */
  function ArbiterCompleted(cfg: Config, row: Row, v: ArbiterVerdict, now: int): Row {
    var judged := row.(arbiterVerdict := Some(v), updatedAt := now);
    if v == Escalate then judged.(status := Completed, completionReason := Some(ArbiterEscalated))
    else judged.(status := Active, roundTrips := cfg.Resumed())
  }

  function FailedArbiter(row: Row, now: int): Row {
    if row.status == InArbitration then row.(status := ArbiterRequested, updatedAt := now) else row
  }

  method HandleArbiterCompletion(store: PairedTaskStore, cfg: Config, task: Row, v: ArbiterVerdict, now: int)
      returns (raised: bool)
    requires store.row == task
    modifies store
    ensures store.row == ArbiterCompleted(cfg, task, v, now) && !raised
  {
    var outcome;
    if v == Escalate {
      outcome := store.TransitionStatus(InArbitration, Completed, task.updatedAt, now,
                   NoPatch.(arbiterVerdict := Some(Escalate), completionReason := Some(ArbiterEscalated)));
    } else {
      outcome := store.TransitionStatus(InArbitration, Active, task.updatedAt, now,
                   NoPatch.(roundTrips := Some(Max(0, cfg.deadlockThreshold - 1)), arbiterVerdict := Some(v)));
    }
    return outcome.Invalid?;
  }

  method HandleFailedArbiterExecution(store: PairedTaskStore, task: Row, now: int) returns (raised: bool)
    requires store.row == task
    modifies store
    ensures store.row == FailedArbiter(task, now) && !raised
  {
    var fallbackStatus := if task.status in {InArbitration, ArbiterRequested} then ArbiterRequested else task.status;
    if fallbackStatus != task.status {
      var outcome := store.TransitionStatus(task.status, fallbackStatus, task.updatedAt, now, NoPatch);
      return outcome.Invalid?;
    }
    return false;
  }
}
