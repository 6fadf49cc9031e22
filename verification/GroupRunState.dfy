/** Per-room run state: the phase machine and the two checks that report when
    it is broken. */
module GroupRunState {
  import opened Common

  datatype RunPhase = Idle | RunningMessages | RunningTask | ClosingMessages

  /** The transition table. */
  predicate ValidTransition(source: RunPhase, target: RunPhase) {
    match source
    case Idle => target == RunningMessages || target == RunningTask
    case RunningMessages => target == ClosingMessages || target == Idle
    case ClosingMessages => target == Idle
    case RunningTask => target == Idle
  }

  /** A scheduled task. `fn` identifies the closure handed in, one per call. */
  datatype QueuedTask = QueuedTask(id: string, fn: nat)

  /** What a group's state object holds. */
  datatype GroupRec = GroupRec(
    runPhase: RunPhase,
    runningTaskId: Option<string>,
    currentRunId: Option<nat>,
    pendingMessages: bool,
    pendingTasks: seq<QueuedTask>,
    processName: Option<string>,
    ipcDir: Option<string>,
    retryCount: nat,
    retryTimer: bool,
    retryScheduledAt: Option<int>)
  {
    /** `transitionRunPhase` reports a move to `target`. */
    predicate Misstep(target: RunPhase) {
      runPhase != target && !ValidTransition(runPhase, target)
    }

    /** `assertRunPhaseInvariants` has nothing to report. */
    predicate Consistent() {
      match runPhase
      case Idle => currentRunId.None? && runningTaskId.None? && processName.None?
      case RunningTask => runningTaskId.Some? && currentRunId.None?
      case _ => currentRunId.Some? && runningTaskId.None?
    }

    /** After a run: everything about the run is forgotten, the queue is not. */
    function Reset(): (r: GroupRec)
      ensures r.Consistent()
    {
      this.(runPhase := Idle, runningTaskId := None, currentRunId := None,
            processName := None, ipcDir := None)
    }
  }

  const FreshGroup := GroupRec(Idle, None, None, false, [], None, None, 0, false, None)

  const MAX_RETRIES := 5
  const BASE_RETRY_MS := 5000

  function Pow2(n: nat): (p: nat)
    ensures p >= 1
  {
    if n == 0 then 1 else 2 * Pow2(n - 1)
  }

  /** `scheduleRetry`: exponential backoff, or giving up after the last retry. */
  function RetryRec(g: GroupRec, now: int): GroupRec {
    if g.retryCount + 1 > MAX_RETRIES then
      g.(retryCount := 0, retryTimer := false, retryScheduledAt := None)
    else
      g.(retryCount := g.retryCount + 1, retryTimer := true,
         retryScheduledAt := Some(now + BASE_RETRY_MS * Pow2(g.retryCount)))
  }

  class GroupState {
    var runPhase: RunPhase
    var runningTaskId: Option<string>
    var currentRunId: Option<nat>
    var pendingMessages: bool
    var pendingTasks: seq<QueuedTask>
    var processName: Option<string>
    var ipcDir: Option<string>
    var retryCount: nat
    var retryTimer: bool
    var retryScheduledAt: Option<int>

    function Rec(): GroupRec
      reads this
    {
      GroupRec(runPhase, runningTaskId, currentRunId, pendingMessages, pendingTasks,
               processName, ipcDir, retryCount, retryTimer, retryScheduledAt)
    }

    constructor ()
      ensures Rec() == FreshGroup
    {
      runPhase, runningTaskId, currentRunId := Idle, None, None;
      pendingMessages, pendingTasks := false, [];
      processName, ipcDir := None, None;
      retryCount, retryTimer, retryScheduledAt := 0, false, None;
    }

    /** Moves regardless; `reported` says whether the move was off the table. */
    method TransitionRunPhase(nextPhase: RunPhase) returns (reported: bool)
      modifies `runPhase
      ensures Rec() == old(Rec()).(runPhase := nextPhase)
      ensures reported == old(Rec()).Misstep(nextPhase)
    {
      reported := false;
      if runPhase == nextPhase { return; }
      if !ValidTransition(runPhase, nextPhase) {
        reported := true;
      }
      runPhase := nextPhase;
    }

    method ResetRunState() returns (reported: bool)
      modifies this
      ensures Rec() == old(Rec()).Reset()
      ensures !reported
    {
      currentRunId := None;
      runningTaskId := None;
      processName := None;
      ipcDir := None;
      reported := TransitionRunPhase(Idle);
    }

    method AssertRunPhaseInvariants() returns (reported: bool)
      ensures reported == !Rec().Consistent()
    {
      match runPhase
      case Idle =>
        reported := currentRunId.Some? || runningTaskId.Some? || processName.Some?;
      case RunningTask =>
        reported := runningTaskId.None? || currentRunId.Some?;
      case _ =>
        reported := currentRunId.None? || runningTaskId.Some?;
    }

    method ScheduleRetry(now: int)
      modifies this
      ensures Rec() == RetryRec(old(Rec()), now)
    {
      retryCount := retryCount + 1;
      if retryCount > MAX_RETRIES {
        retryTimer := false;
        retryScheduledAt := None;
        retryCount := 0;
        return;
      }
      var delayMs := BASE_RETRY_MS * Pow2(retryCount - 1);
      retryScheduledAt := Some(now + delayMs);
      retryTimer := true;
    }
  }
}
