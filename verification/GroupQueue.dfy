/** The queue object itself: its fields, updated in place by each event, and
    the proof that every method moves it as the state machine says. */
module GroupQueueClass {
  import opened Common
  import opened GroupRunState
  import opened GroupQueueModel

  lemma PutFields(c: Limits, s: QueueState, j: string, g: GroupRec)
    ensures Put(s, j, g).activeCount == s.activeCount && EffectiveMax(c, Put(s, j, g)) == EffectiveMax(c, s)
  {
  }

  lemma PutTwice(s: QueueState, j: string, g: GroupRec, g': GroupRec)
    ensures Group(Put(s, j, g), j) == g
    ensures Put(Put(s, j, g), j, g') == Put(s, j, g')
  {
    assert s.groups[j := g][j := g'] == s.groups[j := g'];
  }

  /** Some group outside `todo` was closed with a report. */
  ghost predicate Reported(before: map<string, GroupRec>, todo: set<string>) {
    exists j :: j in before && j !in todo && before[j].processName.Some? && CloseReports(before[j])
  }

  /** Shutting down has dealt with every group but those in `todo`. */
  ghost function Shut(s: QueueState, todo: set<string>): QueueState {
    s.(groups := map j | j in s.groups :: if j in todo then s.groups[j] else ShutdownRec(s.groups[j]),
       violated := s.violated || Reported(s.groups, todo))
  }

  lemma OneMoreShut(s: QueueState, todo: set<string>, j: string)
    requires j in todo && j in s.groups
    ensures Group(Shut(s, todo), j) == s.groups[j]
    ensures var s' := Put(Shut(s, todo), j, ShutdownRec(s.groups[j]));
            var reported := s.groups[j].processName.Some? && CloseReports(s.groups[j]);
            Shut(s, todo - {j}) == s'.(violated := s'.violated || reported)
  {
    hide ShutdownRec, CloseReports;
    assert Shut(s, todo - {j}).groups == Shut(s, todo).groups[j := ShutdownRec(s.groups[j])];
  }

  lemma ShutEnds(s: QueueState)
    ensures s == Shut(s, s.groups.Keys)
    ensures Shut(s.(shuttingDown := true), {}) == Shutdown(s)
  {
    assert s.groups == Shut(s, s.groups.Keys).groups;
  }

  class GroupQueue {
    const limits: Limits
    var groups: map<string, GroupState>
    var activeCount: int
    var activeTaskCount: int
    var waitingGroups: seq<string>
    var recoveryMode: bool
    var recoveryTimers: nat
    var shuttingDown: bool
    var issued: nat                        // run ids and task closures
    ghost var liveMessages: multiset<MessageRun>
    ghost var liveTasks: multiset<TaskRun>
    ghost var accepted: set<TaskRun>
    ghost var finished: multiset<TaskRun>
    ghost var violated: bool

    /** Each group has a state object of its own. */
    ghost predicate Valid()
      reads this
    {
      && limits.Valid()
      && (forall i, k :: i in groups && k in groups && groups[i] == groups[k] ==> i == k)
      && (forall j :: j in waitingGroups ==> j in groups)
    }

    ghost function Records(): map<string, GroupRec>
      reads `groups, groups.Values
    {
      map j | j in groups :: groups[j].Rec()
    }

    ghost function State(): QueueState
      reads this, groups.Values
    {
      QueueState(Records(), activeCount, activeTaskCount, waitingGroups, recoveryMode, recoveryTimers,
                 shuttingDown, liveMessages, liveTasks, accepted, finished, issued, violated)
    }

    constructor (limits: Limits)
      requires limits.Valid()
      ensures Valid() && State() == Initial && this.limits == limits && groups.Values == {}
    {
      this.limits := limits;
      groups, waitingGroups := map[], [];
      activeCount, activeTaskCount, recoveryMode, recoveryTimers := 0, 0, false, 0;
      shuttingDown, issued := false, 0;
      liveMessages, liveTasks, accepted, finished, violated := multiset{}, multiset{}, {}, multiset{}, false;
    }

    /** Look a group up, creating it on first use. */
    method GetGroup(groupJid: string) returns (state: GroupState)
      requires Valid()
      modifies `groups
      ensures Valid() && groupJid in groups && groups[groupJid] == state
      ensures State() == Put(old(State()), groupJid, Group(old(State()), groupJid))
      ensures state.Rec() == Group(old(State()), groupJid)
      ensures old(groupJid in groups) ==> groups == old(groups)
      ensures old(groupJid !in groups) ==> fresh(state) && groups == old(groups)[groupJid := state]
    {
      if groupJid in groups {
        state := groups[groupJid];
      } else {
        state := new GroupState();
        groups := groups[groupJid := state];
      }
      assert Records() == old(Records())[groupJid := state.Rec()];
    }

    lemma Fields()
      ensures State().shuttingDown == shuttingDown && State().issued == issued && State().violated == violated
      ensures EffectiveMax(limits, State()) == if recoveryMode then limits.recoveryAgents else limits.maxAgents
      ensures State().activeCount == activeCount && State().activeTaskCount == activeTaskCount
    {
    }

    lemma Names()
      ensures State().groups.Keys == groups.Keys
    {
    }

    // ----- starting runs -----

    method CreateRunId() returns (runId: nat)
      requires Valid()
      modifies `issued
      ensures Valid() && runId == old(issued)
      ensures State() == old(State()).(issued := runId + 1)
    {
      hide Records;
      runId := issued;
      issued := issued + 1;
    }

    /** The record of one group changed, and no other. */
    twostate lemma OneRecord(groupJid: string)
      requires Valid() && old(Valid()) && groups == old(groups) && groupJid in groups
      requires forall j :: j in groups && j != groupJid ==> unchanged(groups[j])
      ensures Records() == old(Records())[groupJid := groups[groupJid].Rec()]
      ensures Group(old(State()), groupJid) == old(groups[groupJid].Rec())
    {
    }

    /** The same when the queue's own fields did not move. */
    twostate lemma OnlyRecord(groupJid: string)
      requires Valid() && old(Valid()) && unchanged(this) && groupJid in groups
      requires forall j :: j in groups && j != groupJid ==> unchanged(groups[j])
      ensures State() == Put(old(State()), groupJid, groups[groupJid].Rec())
      ensures Group(old(State()), groupJid) == old(groups[groupJid].Rec())
    {
      OneRecord(groupJid);
    }

    method MarkMessagesRunning(state: GroupState, runId: nat) returns (reported: bool)
      modifies state
      ensures state.Rec() == RunningMessagesRec(old(state.Rec()), runId)
      ensures reported == (old(state.Rec()).Misstep(RunningMessages) || !state.Rec().Consistent())
    {
      state.currentRunId := Some(runId);
      state.pendingMessages := false;
      var misstep := state.TransitionRunPhase(RunningMessages);
      var inconsistent := state.AssertRunPhaseInvariants();
      reported := misstep || inconsistent;
    }

    method MarkTaskRunning(state: GroupState, taskId: string) returns (reported: bool)
      modifies state
      ensures state.Rec() == RunningTaskRec(old(state.Rec()), taskId)
      ensures reported == (old(state.Rec()).Misstep(RunningTask) || !state.Rec().Consistent())
    {
      state.runningTaskId := Some(taskId);
      var misstep := state.TransitionRunPhase(RunningTask);
      var inconsistent := state.AssertRunPhaseInvariants();
      reported := misstep || inconsistent;
    }

    method CountMessagesStart(run: MessageRun)
      requires Valid()
      modifies `activeCount, `liveMessages
      ensures Valid()
      ensures State() == old(State()).(activeCount := old(State()).activeCount + 1,
                                       liveMessages := old(State()).liveMessages + multiset{run})
    {
      hide Records;
      activeCount := activeCount + 1;
      liveMessages := liveMessages + multiset{run};
    }

    /** Up to the first await: the run is live from here on. */
    method RunForGroup(groupJid: string)
      requires Valid() && groupJid in groups
      modifies this, groups.Values
      ensures Valid() && groups == old(groups) && waitingGroups == old(waitingGroups)
      ensures State() == StartMessages(old(State()), groupJid)
    {
      hide GroupRec.Misstep, GroupRec.Consistent, RunningMessagesRec, Records, State;
      Fields();
      var runId := CreateRunId();
      label created:
      var state := groups[groupJid];
      var reported := MarkMessagesRunning(state, runId);
      OnlyRecord@created(groupJid);
      Report(reported);
      CountMessagesStart(MessageRun(groupJid, runId));
    }

    method CountTaskStart(run: TaskRun)
      requires Valid()
      modifies `activeCount, `activeTaskCount, `liveTasks
      ensures Valid()
      ensures State() == old(State()).(activeCount := old(State()).activeCount + 1,
                                       activeTaskCount := old(State()).activeTaskCount + 1,
                                       liveTasks := old(State()).liveTasks + multiset{run})
    {
      hide Records;
      activeCount := activeCount + 1;
      activeTaskCount := activeTaskCount + 1;
      liveTasks := liveTasks + multiset{run};
    }

    method RunTask(groupJid: string, task: QueuedTask)
      requires Valid() && groupJid in groups
      modifies this, groups.Values
      ensures Valid() && groups == old(groups) && waitingGroups == old(waitingGroups)
      ensures State() == StartTask(old(State()), TaskRun(groupJid, task))
    {
      hide GroupRec.Misstep, GroupRec.Consistent, RunningTaskRec, Records, State, Group;
      var state := groups[groupJid];
      var reported := MarkTaskRunning(state, task.id);
      OnlyRecord(groupJid);
      Report(reported);
      CountTaskStart(TaskRun(groupJid, task));
    }

    /** `pendingTasks.shift()`, then run it. */
    method RunQueuedTask(groupJid: string)
      requires Valid() && HasTasks(State(), groupJid)
      modifies this, groups.Values
      ensures Valid() && groups == old(groups) && waitingGroups == old(waitingGroups)
      ensures State() == StartQueuedTask(old(State()), groupJid)
    {
      hide StartTask;
      var state := groups[groupJid];
      var task := state.pendingTasks[0];
      state.pendingTasks := state.pendingTasks[1..];
      assert Records() == old(Records())[groupJid := state.Rec()];
      assert State() == Put(old(State()), groupJid, state.Rec());
      RunTask(groupJid, task);
    }

    // ----- draining -----

    method EffectiveMaxConcurrent() returns (n: int)
      ensures n == EffectiveMax(limits, State())
    {
      n := if recoveryMode then limits.recoveryAgents else limits.maxAgents;
    }

    method FindWithMessages() returns (index: Option<nat>)
      requires Valid()
      ensures index == FirstWithMessages(State(), 0)
    {
      var i := 0;
      while i < |waitingGroups|
        invariant i <= |waitingGroups|
        invariant FirstWithMessages(State(), 0) == FirstWithMessages(State(), i)
      {
        if groups[waitingGroups[i]].pendingMessages { return Some(i); }
        i := i + 1;
      }
      return None;
    }

    method FindWithTasks() returns (index: Option<nat>)
      requires Valid()
      ensures index == FirstWithTasks(State(), 0)
    {
      var i := 0;
      while i < |waitingGroups|
        invariant i <= |waitingGroups|
        invariant FirstWithTasks(State(), 0) == FirstWithTasks(State(), i)
      {
        if groups[waitingGroups[i]].pendingTasks != [] { return Some(i); }
        i := i + 1;
      }
      return None;
    }

    method FindNext() returns (index: Option<nat>)
      requires Valid()
      ensures index == NextWaiting(limits, State())
    {
      hide FirstWithMessages, FirstWithTasks, Records;
      index := FindWithMessages();
      if index.None? && activeTaskCount < limits.MaxTasks() {
        index := FindWithTasks();
      }
    }

    /** Take the entry at `index` off the list and start its group. */
    method AdmitNext(index: nat)
      requires Valid() && index < |waitingGroups|
      requires Startable(limits, State(), waitingGroups[index])
      modifies this, groups.Values
      ensures Valid() && groups == old(groups)
      ensures |waitingGroups| < old(|waitingGroups|)
      ensures State() == Admit(limits, old(State()), index)
    {
      hide StartMessages, StartQueuedTask;
      var nextJid := waitingGroups[index];
      waitingGroups := waitingGroups[..index] + waitingGroups[index + 1..];
      var state := groups[nextJid];
      assert Group(State(), nextJid) == state.Rec();
      if state.pendingMessages {
        RunForGroup(nextJid);
      } else if state.pendingTasks != [] && activeTaskCount < limits.MaxTasks() {
        RunQueuedTask(nextJid);
      }
    }

    method DrainWaiting()
      requires Valid()
      modifies this, groups.Values
      ensures Valid() && groups == old(groups)
      ensures State() == GroupQueueModel.DrainWaiting(limits, old(State()))
    {
      hide Admit, NextWaiting, Startable, Records;
      while |waitingGroups| > 0
        invariant Valid() && groups == old(groups)
        invariant GroupQueueModel.DrainWaiting(limits, old(State())) == GroupQueueModel.DrainWaiting(limits, State())
        decreases |waitingGroups|
      {
        var limit := EffectiveMaxConcurrent();
        if activeCount >= limit { break; }
        var nextIndex := FindNext();
        if nextIndex.None? { break; }
        AdmitNext(nextIndex.value);
      }
    }

    method DrainGroup(groupJid: string)
      requires Valid() && groupJid in groups
      modifies this, groups.Values
      ensures Valid() && groups == old(groups)
      ensures State() == GroupQueueModel.DrainGroup(limits, old(State()), groupJid)
    {
      if shuttingDown { return; }
      var state := groups[groupJid];
      if |state.pendingTasks| > 0 {
        RunQueuedTask(groupJid);
        return;
      }
      if state.pendingMessages {
        RunForGroup(groupJid);
        return;
      }
      DrainWaiting();
    }

    // ----- the events -----

    method EnqueueMessageCheck(groupJid: string, ipcDir: Option<string>, now: int)
      requires Valid()
      modifies this, groups.Values
      ensures Valid()
      ensures State() == GroupQueueModel.EnqueueMessageCheck(limits, old(State()), groupJid, ipcDir, now)
    {
      hide State, Records, Put, Group, StartMessages, Waiting, EffectiveMax, AdoptIpcDir, MessageCheck;
      Fields();
      if shuttingDown { return; }
      var state := GetGroup(groupJid);
      PresetIpcDir(old(State()), groupJid, state, ipcDir);
      RunOrQueue(old(State()), groupJid, state, now);
    }

    method RunOrQueue(ghost base: QueueState, groupJid: string, state: GroupState, now: int)
      requires Valid() && groupJid in groups && groups[groupJid] == state && State() == Put(base, groupJid, state.Rec())
      modifies this, groups.Values
      ensures Valid()
      ensures State() == MessageCheck(limits, base, groupJid, old(state.Rec()), now)
    {
      hide State, Records, Put, Group, StartMessages, Waiting, EffectiveMax;
      Fields();
      PutFields(limits, base, groupJid, state.Rec());
      if state.runPhase != Idle || (state.retryScheduledAt.Some? && now < state.retryScheduledAt.value) {
        MarkPending(base, groupJid, state);
        return;
      }
      var limit := EffectiveMaxConcurrent();
      if activeCount >= limit {
        MarkPending(base, groupJid, state);
        PushWaiting(groupJid);
        return;
      }
      RunForGroup(groupJid);
    }

    method PresetIpcDir(ghost base: QueueState, groupJid: string, state: GroupState, ipcDir: Option<string>)
      requires Valid() && groupJid in groups && groups[groupJid] == state && State() == Put(base, groupJid, state.Rec())
      modifies state
      ensures state.Rec() == AdoptIpcDir(old(state.Rec()), ipcDir)
      ensures Valid() && State() == Put(base, groupJid, state.Rec())
    {
      hide State, Records, Put, Group;
      if ipcDir.Some? && state.ipcDir.None? {
        state.ipcDir := ipcDir;
      }
      OnlyRecord(groupJid);
      PutTwice(base, groupJid, old(state.Rec()), state.Rec());
    }

    method MarkPending(ghost base: QueueState, groupJid: string, state: GroupState)
      requires Valid() && groupJid in groups && groups[groupJid] == state && State() == Put(base, groupJid, state.Rec())
      modifies state
      ensures Valid() && State() == Put(base, groupJid, old(state.Rec()).(pendingMessages := true))
    {
      hide State, Records, Put, Group;
      state.pendingMessages := true;
      OnlyRecord(groupJid);
      PutTwice(base, groupJid, old(state.Rec()), state.Rec());
    }

    method PushWaiting(groupJid: string)
      requires Valid() && groupJid in groups
      modifies `waitingGroups
      ensures Valid() && State() == Waiting(old(State()), groupJid)
    {
      if groupJid !in waitingGroups {
        waitingGroups := waitingGroups + [groupJid];
      }
    }

    method PushTask(ghost base: QueueState, groupJid: string, state: GroupState, task: QueuedTask)
      requires Valid() && groupJid in groups && groups[groupJid] == state && State() == Put(base, groupJid, state.Rec())
      modifies state
      ensures Valid()
      ensures State() == Put(base, groupJid,
                old(state.Rec()).(pendingTasks := old(state.pendingTasks) + [task]))
    {
      hide State, Records, Put, Group;
      state.pendingTasks := state.pendingTasks + [task];
      OnlyRecord(groupJid);
      PutTwice(base, groupJid, old(state.Rec()), state.Rec());
    }

    /** `fn` is named by a number not used before. */
    method Accept(ghost base: QueueState, groupJid: string, taskId: string) returns (task: QueuedTask)
      requires Valid() && groupJid in groups && State() == Put(base, groupJid, groups[groupJid].Rec())
      modifies `issued, `accepted
      ensures Valid() && task == QueuedTask(taskId, base.issued)
      ensures State() == Put(base.(issued := base.issued + 1, accepted := base.accepted + {TaskRun(groupJid, task)}),
                             groupJid, groups[groupJid].Rec())
    {
      hide Records;
      task := QueuedTask(taskId, issued);
      issued := issued + 1;
      accepted := accepted + {TaskRun(groupJid, task)};
    }

    /** Already running or queued. */
    method IsKnown(state: GroupState, taskId: string) returns (known: bool)
      ensures known == Known(state.Rec(), taskId)
    {
      if state.runningTaskId == Some(taskId) { return true; }
      if exists t :: t in state.pendingTasks && t.id == taskId { return true; }
      return false;
    }

    method EnqueueTask(groupJid: string, taskId: string)
      requires Valid()
      modifies this, groups.Values
      ensures Valid()
      ensures State() == GroupQueueModel.EnqueueTask(limits, old(State()), groupJid, taskId)
    {
      hide State, Records, Put, Group, StartTask, Waiting, EffectiveMax, Known;
      Fields();
      if shuttingDown { return; }
      var state := GetGroup(groupJid);
      var known := IsKnown(state, taskId);
      if known { return; }
      var limit := EffectiveMaxConcurrent();
      Fields();
      var task := Accept(old(State()), groupJid, taskId);
      ghost var taken := old(State()).(issued := old(State()).issued + 1,
                                       accepted := old(State()).accepted + {TaskRun(groupJid, task)});
      if state.runPhase != Idle {
        PushTask(taken, groupJid, state, task);
        return;
      }
      if activeCount >= limit || activeTaskCount >= limits.MaxTasks() {
        PushTask(taken, groupJid, state, task);
        PushWaiting(groupJid);
        return;
      }
      RunTask(groupJid, task);
    }

    method NoteOutcome(state: GroupState, success: bool, now: int)
      modifies state
      ensures state.Rec() == if success then old(state.Rec()).(retryCount := 0, retryScheduledAt := None)
                             else RetryRec(old(state.Rec()), now)
    {
      if success {
        state.retryCount := 0;
        state.retryScheduledAt := None;
      } else {
        state.ScheduleRetry(now);
      }
    }

    method ClearRun(state: GroupState) returns (reported: bool)
      modifies state
      ensures state.Rec() == old(state.Rec()).Reset() && !reported
    {
      var misstep := state.ResetRunState();
      var inconsistent := state.AssertRunPhaseInvariants();
      reported := misstep || inconsistent;
    }

    /** `runForGroup` resumes after `processMessagesFn`: the rest and the `finally` block. */
    method FinishMessages(run: MessageRun, success: bool, now: int)
      requires Valid() && run.jid in groups && run in liveMessages
      modifies this, groups.Values
      ensures Valid() && groups == old(groups)
      ensures State() == GroupQueueModel.FinishMessages(limits, old(State()), run, success, now)
    {
      hide GroupQueueModel.DrainGroup;
      SettleMessages(run, success, now);
      DrainGroup(run.jid);
    }

    method SettleMessages(run: MessageRun, success: bool, now: int)
      requires Valid() && run.jid in groups && run in liveMessages
      modifies this, groups.Values
      ensures Valid() && groups == old(groups)
      ensures State() == EndedMessages(old(State()), run, success, now)
    {
      hide State, Records, RetryRec, Group, GroupRec.Reset;
      var state := groups[run.jid];
      NoteOutcome(state, success, now);
      var reported := ClearRun(state);
      OnlyRecord(run.jid);
      CountMessagesEnd(run);
    }

    method CountMessagesEnd(run: MessageRun)
      requires Valid()
      modifies `activeCount, `liveMessages
      ensures Valid()
      ensures State() == old(State()).(activeCount := old(State()).activeCount - 1,
                                       liveMessages := old(State()).liveMessages - multiset{run})
    {
      hide Records;
      activeCount := activeCount - 1;
      liveMessages := liveMessages - multiset{run};
    }

    method FinishTask(run: TaskRun)
      requires Valid() && run.jid in groups && run in liveTasks
      modifies this, groups.Values
      ensures Valid() && groups == old(groups)
      ensures State() == GroupQueueModel.FinishTask(limits, old(State()), run)
    {
      hide GroupQueueModel.DrainGroup;
      SettleTask(run);
      DrainGroup(run.jid);
    }

    method SettleTask(run: TaskRun)
      requires Valid() && run.jid in groups && run in liveTasks
      modifies this, groups.Values
      ensures Valid() && groups == old(groups)
      ensures State() == EndedTask(old(State()), run)
    {
      hide State, Records, Group, GroupRec.Reset;
      var state := groups[run.jid];
      var reported := ClearRun(state);
      OnlyRecord(run.jid);
      CountTaskEnd(run);
    }

    method CountTaskEnd(run: TaskRun)
      requires Valid()
      modifies `activeCount, `activeTaskCount, `liveTasks, `finished
      ensures Valid()
      ensures State() == old(State()).(activeCount := old(State()).activeCount - 1,
                                       activeTaskCount := old(State()).activeTaskCount - 1,
                                       liveTasks := old(State()).liveTasks - multiset{run},
                                       finished := old(State()).finished + multiset{run})
    {
      hide Records, State;
      LowerBoth();
      RetireTask(run);
    }

    method RetireTask(run: TaskRun)
      requires Valid()
      modifies `liveTasks, `finished
      ensures Valid()
      ensures State() == old(State()).(liveTasks := old(State()).liveTasks - multiset{run},
                                       finished := old(State()).finished + multiset{run})
    {
      hide Records;
      liveTasks := liveTasks - multiset{run};
      finished := finished + multiset{run};
    }

    method LowerBoth()
      requires Valid()
      modifies `activeCount, `activeTaskCount
      ensures Valid()
      ensures State() == old(State()).(activeCount := old(State()).activeCount - 1,
                                       activeTaskCount := old(State()).activeTaskCount - 1)
    {
      hide Records;
      activeCount := activeCount - 1;
      activeTaskCount := activeTaskCount - 1;
    }

    method RetryTimerFires(groupJid: string, now: int)
      requires Valid() && groupJid in groups
      modifies this, groups.Values
      ensures Valid()
      ensures State() == GroupQueueModel.RetryTimerFires(limits, old(State()), groupJid, now)
    {
      hide GroupQueueModel.EnqueueMessageCheck, Records, State;
      var state := groups[groupJid];
      state.retryTimer := false;
      state.retryScheduledAt := None;
      OnlyRecord(groupJid);
      ShutDownMeansIdle(groupJid, now);
      if !shuttingDown {
        EnqueueMessageCheck(groupJid, None, now);
      }
    }

    lemma ShutDownMeansIdle(groupJid: string, now: int)
      ensures shuttingDown ==> GroupQueueModel.EnqueueMessageCheck(limits, State(), groupJid, None, now) == State()
    {
    }

    method EnterRecoveryMode()
      requires Valid()
      modifies this
      ensures Valid() && groups == old(groups) && State() == EnterRecovery(old(State()))
    {
      recoveryMode := true;
      recoveryTimers := recoveryTimers + 1;
    }

    method RecoveryTimerFires()
      requires Valid() && recoveryTimers > 0
      modifies this, groups.Values
      ensures Valid() && groups == old(groups)
      ensures State() == GroupQueueModel.RecoveryTimerFires(limits, old(State()))
    {
      hide GroupQueueModel.DrainWaiting, Records;
      recoveryMode := false;
      recoveryTimers := recoveryTimers - 1;
      DrainWaiting();
    }

    method MarkClosing(state: GroupState) returns (reported: bool)
      modifies state
      ensures state.Rec() == ClosedRec(old(state.Rec()))
      ensures reported == CloseReports(old(state.Rec()))
    {
      reported := false;
      if state.runPhase == Idle || state.ipcDir.None? { return; }
      if state.runPhase == RunningMessages {
        var misstep := state.TransitionRunPhase(ClosingMessages);
        var inconsistent := state.AssertRunPhaseInvariants();
        reported := misstep || inconsistent;
      }
    }

    method CloseStdin(groupJid: string)
      requires Valid()
      modifies this, groups.Values
      ensures Valid()
      ensures State() == GroupQueueModel.CloseStdin(old(State()), groupJid)
    {
      hide State, Records, Group, ClosedRec, CloseReports;
      var state := GetGroup(groupJid);
      label found:
      var reported := MarkClosing(state);
      OnlyRecord@found(groupJid);
      PutTwice(old(State()), groupJid, old@found(state.Rec()), state.Rec());
      Report(reported);
    }

    method Report(reported: bool)
      requires Valid()
      modifies `violated
      ensures Valid() && State() == old(State()).(violated := old(State()).violated || reported)
    {
      hide Records;
      violated := violated || reported;
    }

    method RegisterProcess(groupJid: string, processName: string, ipcDir: Option<string>)
      requires Valid()
      modifies this, groups.Values
      ensures Valid()
      ensures State() == GroupQueueModel.RegisterProcess(old(State()), groupJid, processName, ipcDir)
    {
      hide State, Records, Put, Group;
      var state := GetGroup(groupJid);
      label found:
      state.processName := Some(processName);
      if ipcDir.Some? {
        state.ipcDir := ipcDir;
      }
      OnlyRecord@found(groupJid);
      PutTwice(old(State()), groupJid, Group(old(State()), groupJid), state.Rec());
    }

    method ShutDownGroup(state: GroupState) returns (reported: bool)
      modifies state
      ensures state.Rec() == ShutdownRec(old(state.Rec()))
      ensures reported == (old(state.processName).Some? && CloseReports(old(state.Rec())))
    {
      reported := false;
      state.retryTimer := false;
      state.retryScheduledAt := None;
      if state.processName.Some? {
        reported := MarkClosing(state);
      }
    }

    method Shutdown()
      requires Valid()
      modifies this, groups.Values
      ensures Valid() && groups == old(groups)
      ensures State() == GroupQueueModel.Shutdown(old(State()))
    {
      hide State, Records, Shut, GroupQueueModel.Shutdown, ShutdownRec, CloseReports, Put;
      RaiseFlag();
      ghost var flagged := State();
      var todo := groups.Keys;
      Names();
      ShutEnds(flagged);
      ShutEnds(old(State()));
      while todo != {}
        invariant Valid() && groups == old(groups) && todo <= groups.Keys
        invariant State() == Shut(flagged, todo)
      {
        label round:
        var groupJid :| groupJid in todo;
        var reported := ShutDownGroup(groups[groupJid]);
        OnlyRecord@round(groupJid);
        Report(reported);
        OneMoreShut(flagged, todo, groupJid);
        todo := todo - {groupJid};
      }
    }

    method RaiseFlag()
      requires Valid()
      modifies `shuttingDown
      ensures Valid() && State() == old(State()).(shuttingDown := true)
    {
      shuttingDown := true;
    }
  }
}
