/** The per-room run scheduler as a state machine: one function per event the
    queue reacts to. Live runs are the asynchronous calls still suspended. */
module GroupQueueModel {
  import opened Common
  import opened GroupRunState

  datatype MessageRun = MessageRun(jid: string, runId: nat)

  /** A task of a group; once started, also its run. */
  datatype TaskRun = TaskRun(jid: string, task: QueuedTask)

  /** `maxAgents` is at least 1 by configuration; the recovery limit is any integer. */
  datatype Limits = Limits(maxAgents: int, recoveryAgents: int)
  {
    predicate Valid() { maxAgents >= 1 }
    function MaxTasks(): int { if maxAgents > 1 then maxAgents - 1 else 1 }
  }

  datatype QueueState = QueueState(
    groups: map<string, GroupRec>,
    activeCount: int,
    activeTaskCount: int,
    waiting: seq<string>,
    recoveryMode: bool,
    recoveryTimers: nat,
    shuttingDown: bool,
    // what the fields above do not show
    liveMessages: multiset<MessageRun>,
    liveTasks: multiset<TaskRun>,
    accepted: set<TaskRun>,
    finished: multiset<TaskRun>,
    issued: nat,      // run ids and closures handed out so far
    violated: bool)   // a phase check has reported

  const Initial := QueueState(map[], 0, 0, [], false, 0, false,
                              multiset{}, multiset{}, {}, multiset{}, 0, false)

  function Group(s: QueueState, j: string): GroupRec {
    if j in s.groups then s.groups[j] else FreshGroup
  }

  function Put(s: QueueState, j: string, g: GroupRec): QueueState {
    s.(groups := s.groups[j := g])
  }

  function EffectiveMax(c: Limits, s: QueueState): int {
    if s.recoveryMode then c.recoveryAgents else c.maxAgents
  }

  function Waiting(s: QueueState, j: string): QueueState {
    if j in s.waiting then s else s.(waiting := s.waiting + [j])
  }

  // ----- starting runs -----

  function RunningMessagesRec(g: GroupRec, runId: nat): GroupRec {
    g.(currentRunId := Some(runId), pendingMessages := false, runPhase := RunningMessages)
  }

  /** The synchronous prefix of `runForGroup`. */
  function StartMessages(s: QueueState, j: string): QueueState {
    var g := Group(s, j);
    var g' := RunningMessagesRec(g, s.issued);
    s.(groups := s.groups[j := g'],
       violated := s.violated || g.Misstep(RunningMessages) || !g'.Consistent(),
       activeCount := s.activeCount + 1,
       liveMessages := s.liveMessages + multiset{MessageRun(j, s.issued)},
       issued := s.issued + 1)
  }

  function RunningTaskRec(g: GroupRec, id: string): GroupRec {
    g.(runningTaskId := Some(id), runPhase := RunningTask)
  }

  /** The synchronous prefix of `runTask`. */
  function StartTask(s: QueueState, run: TaskRun): QueueState {
    var g := Group(s, run.jid);
    var g' := RunningTaskRec(g, run.task.id);
    s.(groups := s.groups[run.jid := g'],
       violated := s.violated || g.Misstep(RunningTask) || !g'.Consistent(),
       activeCount := s.activeCount + 1,
       activeTaskCount := s.activeTaskCount + 1,
       liveTasks := s.liveTasks + multiset{run})
  }

  function StartQueuedTask(s: QueueState, j: string): QueueState
    requires Group(s, j).pendingTasks != []
  {
    var g := Group(s, j);
    StartTask(Put(s, j, g.(pendingTasks := g.pendingTasks[1..])), TaskRun(j, g.pendingTasks[0]))
  }

  // ----- draining -----

  predicate HasMessages(s: QueueState, j: string) { Group(s, j).pendingMessages }

  predicate HasTasks(s: QueueState, j: string) { Group(s, j).pendingTasks != [] }

  predicate Startable(c: Limits, s: QueueState, j: string) {
    HasMessages(s, j) || (HasTasks(s, j) && s.activeTaskCount < c.MaxTasks())
  }

  /** `waitingGroups.findIndex(..)`: the first position from `i` on with messages. */
  function FirstWithMessages(s: QueueState, i: nat): (r: Option<nat>)
    requires i <= |s.waiting|
    ensures r.Some? ==> i <= r.value < |s.waiting| && HasMessages(s, s.waiting[r.value])
    ensures r.Some? ==> forall k :: i <= k < r.value ==> !HasMessages(s, s.waiting[k])
    ensures r.None? ==> forall k :: i <= k < |s.waiting| ==> !HasMessages(s, s.waiting[k])
    decreases |s.waiting| - i
  {
    if i == |s.waiting| then None
    else if HasMessages(s, s.waiting[i]) then Some(i) else FirstWithMessages(s, i + 1)
  }

  function FirstWithTasks(s: QueueState, i: nat): (r: Option<nat>)
    requires i <= |s.waiting|
    ensures r.Some? ==> i <= r.value < |s.waiting| && HasTasks(s, s.waiting[r.value])
    ensures r.Some? ==> forall k :: i <= k < r.value ==> !HasTasks(s, s.waiting[k])
    ensures r.None? ==> forall k :: i <= k < |s.waiting| ==> !HasTasks(s, s.waiting[k])
    decreases |s.waiting| - i
  {
    if i == |s.waiting| then None
    else if HasTasks(s, s.waiting[i]) then Some(i) else FirstWithTasks(s, i + 1)
  }

  /** Messages before tasks; tasks only below their own limit. */
  function NextWaiting(c: Limits, s: QueueState): (r: Option<nat>)
    ensures r.Some? ==> r.value < |s.waiting| && Startable(c, s, s.waiting[r.value])
    ensures r.Some? && HasMessages(s, s.waiting[r.value]) ==>
              forall k :: 0 <= k < r.value ==> !HasMessages(s, s.waiting[k])
    ensures r.Some? && !HasMessages(s, s.waiting[r.value]) ==>
              && (forall k :: 0 <= k < |s.waiting| ==> !HasMessages(s, s.waiting[k]))
              && (forall k :: 0 <= k < r.value ==> !HasTasks(s, s.waiting[k]))
    ensures r.None? ==> forall k :: 0 <= k < |s.waiting| ==> !Startable(c, s, s.waiting[k])
  {
    match FirstWithMessages(s, 0)
    case Some(i) => Some(i)
    case None => if s.activeTaskCount < c.MaxTasks() then FirstWithTasks(s, 0) else None
  }

  function Without(waiting: seq<string>, i: nat): seq<string>
    requires i < |waiting|
  {
    waiting[..i] + waiting[i + 1..]
  }

  /** One round of the `drainWaiting` loop, for the entry at `i`: it leaves the
      list, one more run is live, and it is one of its group. */
  function Admit(c: Limits, s: QueueState, i: nat): (r: QueueState)
    requires i < |s.waiting| && Startable(c, s, s.waiting[i])
    ensures r.waiting == Without(s.waiting, i) && |r.waiting| == |s.waiting| - 1
    ensures r.activeCount == s.activeCount + 1
    ensures HasMessages(s, s.waiting[i]) ==>
              && r.liveMessages == s.liveMessages + multiset{MessageRun(s.waiting[i], s.issued)}
              && r.liveTasks == s.liveTasks && !HasMessages(r, s.waiting[i])
    ensures !HasMessages(s, s.waiting[i]) ==>
              && r.liveMessages == s.liveMessages && HasTasks(s, s.waiting[i])
              && r.liveTasks == s.liveTasks + multiset{TaskRun(s.waiting[i], Group(s, s.waiting[i]).pendingTasks[0])}
  {
    var j := s.waiting[i];
    var s' := s.(waiting := Without(s.waiting, i));
    if HasMessages(s, j) then StartMessages(s', j) else StartQueuedTask(s', j)
  }

  function DrainWaiting(c: Limits, s: QueueState): QueueState
    decreases |s.waiting|
  {
    if s.waiting == [] || s.activeCount >= EffectiveMax(c, s) then s
    else match NextWaiting(c, s)
      case None => s
      case Some(i) => DrainWaiting(c, Admit(c, s, i))
  }

  function DrainGroup(c: Limits, s: QueueState, j: string): QueueState {
    if s.shuttingDown then s
    else if HasTasks(s, j) then StartQueuedTask(s, j)
    else if HasMessages(s, j) then StartMessages(s, j)
    else DrainWaiting(c, s)
  }

  // ----- the events -----

  function AdoptIpcDir(g: GroupRec, ipcDir: Option<string>): GroupRec {
    if ipcDir.Some? && g.ipcDir.None? then g.(ipcDir := ipcDir) else g
  }

  predicate Backoff(g: GroupRec, now: int) {
    g.retryScheduledAt.Some? && now < g.retryScheduledAt.value
  }

  /** `g` is the record of the group by then. */
  function MessageCheck(c: Limits, s: QueueState, j: string, g: GroupRec, now: int): QueueState {
    var queued := Put(s, j, g.(pendingMessages := true));
    if g.runPhase != Idle then queued
    else if Backoff(g, now) then queued
    else if s.activeCount >= EffectiveMax(c, s) then Waiting(queued, j)
    else StartMessages(Put(s, j, g), j)
  }

  function EnqueueMessageCheck(c: Limits, s: QueueState, j: string, ipcDir: Option<string>, now: int): QueueState {
    if s.shuttingDown then s else MessageCheck(c, s, j, AdoptIpcDir(Group(s, j), ipcDir), now)
  }

  predicate Known(g: GroupRec, taskId: string) {
    g.runningTaskId == Some(taskId) || exists t :: t in g.pendingTasks && t.id == taskId
  }

  function EnqueueTask(c: Limits, s: QueueState, j: string, taskId: string): QueueState {
    if s.shuttingDown then s
    else
      var g := Group(s, j);
      if Known(g, taskId) then Put(s, j, g)
      else
        var t := QueuedTask(taskId, s.issued);
        var s' := s.(issued := s.issued + 1, accepted := s.accepted + {TaskRun(j, t)});
        var queued := Put(s', j, g.(pendingTasks := g.pendingTasks + [t]));
        if g.runPhase != Idle then queued
        else if s.activeCount >= EffectiveMax(c, s) || s.activeTaskCount >= c.MaxTasks() then Waiting(queued, j)
        else StartTask(Put(s', j, g), TaskRun(j, t))
  }

  /** A message run returns: `success`, or a retry is scheduled. */
  function EndedMessages(s: QueueState, run: MessageRun, success: bool, now: int): QueueState {
    var g := Group(s, run.jid);
    var g' := if success then g.(retryCount := 0, retryScheduledAt := None) else RetryRec(g, now);
    s.(groups := s.groups[run.jid := g'.Reset()],
       activeCount := s.activeCount - 1,
       liveMessages := s.liveMessages - multiset{run})
  }

  function FinishMessages(c: Limits, s: QueueState, run: MessageRun, success: bool, now: int): QueueState {
    DrainGroup(c, EndedMessages(s, run, success, now), run.jid)
  }

  function EndedTask(s: QueueState, run: TaskRun): QueueState {
    s.(groups := s.groups[run.jid := Group(s, run.jid).Reset()],
       activeCount := s.activeCount - 1,
       activeTaskCount := s.activeTaskCount - 1,
       liveTasks := s.liveTasks - multiset{run},
       finished := s.finished + multiset{run})
  }

  function FinishTask(c: Limits, s: QueueState, run: TaskRun): QueueState {
    DrainGroup(c, EndedTask(s, run), run.jid)
  }

  function Disarmed(s: QueueState, j: string): QueueState {
    Put(s, j, Group(s, j).(retryTimer := false, retryScheduledAt := None))
  }

  function RetryTimerFires(c: Limits, s: QueueState, j: string, now: int): QueueState {
    EnqueueMessageCheck(c, Disarmed(s, j), j, None, now)
  }

  function EnterRecovery(s: QueueState): QueueState {
    s.(recoveryMode := true, recoveryTimers := s.recoveryTimers + 1)
  }

  function RecoveryTimerFires(c: Limits, s: QueueState): QueueState
    requires s.recoveryTimers > 0
  {
    DrainWaiting(c, s.(recoveryMode := false, recoveryTimers := s.recoveryTimers - 1))
  }

  function ClosedRec(g: GroupRec): GroupRec {
    if g.runPhase == RunningMessages && g.ipcDir.Some? then g.(runPhase := ClosingMessages) else g
  }

  /** `ClosedRec` changed `g` and the check after it reported. */
  predicate CloseReports(g: GroupRec) {
    g.runPhase == RunningMessages && g.ipcDir.Some? && !ClosedRec(g).Consistent()
  }

  function CloseStdin(s: QueueState, j: string): QueueState {
    var g := Group(s, j);
    Put(s, j, ClosedRec(g)).(violated := s.violated || CloseReports(g))
  }

  function RegisterProcess(s: QueueState, j: string, processName: string, ipcDir: Option<string>): QueueState {
    var g := Group(s, j);
    Put(s, j, g.(processName := Some(processName), ipcDir := if ipcDir.Some? then ipcDir else g.ipcDir))
  }

  function ShutdownRec(g: GroupRec): GroupRec {
    var g' := g.(retryTimer := false, retryScheduledAt := None);
    if g.processName.Some? then ClosedRec(g') else g'
  }

  /** The synchronous part of `shutdown`. */
  function Shutdown(s: QueueState): QueueState {
    s.(shuttingDown := true,
       groups := map j | j in s.groups :: ShutdownRec(s.groups[j]),
       violated := s.violated ||
                   exists j :: j in s.groups && s.groups[j].processName.Some? && CloseReports(s.groups[j]))
  }

  datatype Event =
    | EnqueueMessagesEvent(jid: string, ipcDir: Option<string>, now: int)
    | EnqueueTaskEvent(jid: string, taskId: string)
    | MessagesDone(run: MessageRun, success: bool, now: int)
    | TaskDone(taskRun: TaskRun, now: int)
    | RetryTimer(jid: string, now: int)
    | RecoveryStarts
    | RecoveryEnds(now: int)
    | CloseStdinEvent(jid: string)
    | ProcessRegistered(jid: string, processName: string, ipcDir: Option<string>)
    | ShutdownEvent

  predicate Enabled(s: QueueState, e: Event) {
    match e
    case MessagesDone(run, _, _) => run in s.liveMessages
    case TaskDone(t, _) => t in s.liveTasks
    case RetryTimer(j, _) => Group(s, j).retryTimer
    case RecoveryEnds(_) => s.recoveryTimers > 0
    case _ => true
  }

  function Next(c: Limits, s: QueueState, e: Event): QueueState
    requires Enabled(s, e)
  {
    match e
    case EnqueueMessagesEvent(j, ipcDir, now) => EnqueueMessageCheck(c, s, j, ipcDir, now)
    case EnqueueTaskEvent(j, id) => EnqueueTask(c, s, j, id)
    case MessagesDone(run, success, now) => FinishMessages(c, s, run, success, now)
    case TaskDone(t, _) => FinishTask(c, s, t)
    case RetryTimer(j, now) => RetryTimerFires(c, s, j, now)
    case RecoveryStarts => EnterRecovery(s)
    case RecoveryEnds(_) => RecoveryTimerFires(c, s)
    case CloseStdinEvent(j) => CloseStdin(s, j)
    case ProcessRegistered(j, name, ipcDir) => RegisterProcess(s, j, name, ipcDir)
    case ShutdownEvent => Shutdown(s)
  }

  /** A finite history of the queue from its start. */
  ghost predicate Execution(c: Limits, trace: seq<QueueState>, events: seq<Event>) {
    && c.Valid()
    && |trace| == |events| + 1
    && trace[0] == Initial
    && forall i :: 0 <= i < |events| ==>
         Enabled(trace[i], events[i]) && trace[i + 1] == Next(c, trace[i], events[i])
  }

  ghost predicate Reachable(c: Limits, s: QueueState) {
    exists trace: seq<QueueState>, events: seq<Event> :: Execution(c, trace, events) && trace[|events|] == s
  }

  /** `e` can happen in `s` and makes it `s'`. */
  predicate Leads(c: Limits, s: QueueState, e: Event, s': QueueState) {
    Enabled(s, e) && s' == Next(c, s, e)
  }

  lemma ReachableInitially(c: Limits)
    requires c.Valid()
    ensures Reachable(c, Initial)
  {
    assert Execution(c, [Initial], []);
  }

  lemma ReachableNext(c: Limits, s: QueueState, e: Event, s': QueueState)
    requires Reachable(c, s) && Leads(c, s, e, s')
    ensures Reachable(c, s')
  {
    hide Next, Enabled;
    var trace, events :| Execution(c, trace, events) && trace[|events|] == s;
    assert Execution(c, trace + [s'], events + [e]);
  }
}
