/** What the end of a run, a timer, a close and a shutdown leave, in figures. */
module GroupQueueOutcomes {
  import opened Common
  import opened GroupRunState
  import opened GroupQueueModel
  import opened GroupQueueSafety
  import opened GroupQueueExclusion
  import opened GroupQueueProgress

  /** The delay after the n-th failure in a row, in milliseconds. */
  const Delays := [5000, 10000, 20000, 40000, 80000]

  lemma RetryDelay(g: GroupRec, now: int)
    ensures var r := RetryRec(g, now);
            if g.retryCount < 5
            then && r.retryTimer && r.retryScheduledAt == Some(now + Delays[g.retryCount])
                 && r.retryCount == g.retryCount + 1
            else !r.retryTimer && r.retryScheduledAt.None? && r.retryCount == 0
    ensures RetryRec(g, now) ==
            g.(retryCount := RetryRec(g, now).retryCount, retryTimer := RetryRec(g, now).retryTimer,
               retryScheduledAt := RetryRec(g, now).retryScheduledAt)
  {
    assert Pow2(1) == 2 && Pow2(2) == 4 && Pow2(3) == 2 * Pow2(2) && Pow2(4) == 2 * Pow2(3);
  }

  /** That many failures in a row. */
  function FailedTimes(g: GroupRec, times: seq<int>): GroupRec {
    if times == [] then g else RetryRec(FailedTimes(g, times[..|times| - 1]), times[|times| - 1])
  }

  /** Each failure in a row doubles the delay, up to the fifth; the sixth gives up, and
      the seventh counts as the first again. */
  lemma {:induction false} FailuresInARow(g: GroupRec, times: seq<int>)
    requires g.retryCount == 0
    ensures var r := FailedTimes(g, times);
            && r.retryCount == |times| % 6
            && (times != [] ==>
                  if |times| % 6 == 0 then !r.retryTimer && r.retryScheduledAt.None?
                  else r.retryTimer
                       && r.retryScheduledAt == Some(times[|times| - 1] + Delays[|times| % 6 - 1]))
  {
    if times != [] {
      var before := times[..|times| - 1];
      FailuresInARow(g, before);
      RetryDelay(FailedTimes(g, before), times[|times| - 1]);
      SixthIsZero(|before|);
    }
  }

  lemma SixthIsZero(n: nat)
    ensures (n + 1) % 6 == if n % 6 == 5 then 0 else n % 6 + 1
  {
  }

  /** A message run that ends leaves its group idle with its queue; success forgets
      the failures, failure counts one more; one live run less. */
  lemma MessagesEnd(s: QueueState, run: MessageRun, success: bool, now: int)
    requires run in s.liveMessages
    ensures var r, g, g' := EndedMessages(s, run, success, now), Group(s, run.jid),
                            Group(EndedMessages(s, run, success, now), run.jid);
            && r.activeCount == s.activeCount - 1 && r.activeTaskCount == s.activeTaskCount
            && r.liveMessages + multiset{run} == s.liveMessages && r.liveTasks == s.liveTasks
            && r.finished == s.finished && r.waiting == s.waiting
            && (forall k :: k != run.jid ==> Group(r, k) == Group(s, k))
            && g'.runPhase == Idle && g'.currentRunId.None? && g'.runningTaskId.None?
            && g'.processName.None? && g'.ipcDir.None?
            && g'.pendingTasks == g.pendingTasks && g'.pendingMessages == g.pendingMessages
            && (success ==> g'.retryCount == 0 && g'.retryScheduledAt.None? && g'.retryTimer == g.retryTimer)
            && (!success && g.retryCount < 5 ==>
                  g'.retryCount == g.retryCount + 1 && g'.retryTimer
                  && g'.retryScheduledAt == Some(now + Delays[g.retryCount]))
            && (!success && g.retryCount >= 5 ==> g'.retryCount == 0 && !g'.retryTimer && g'.retryScheduledAt.None?)
  {
    RetryDelay(Group(s, run.jid), now);
    hide RetryRec;
  }

  lemma TaskEnds(s: QueueState, t: TaskRun)
    requires t in s.liveTasks
    ensures var r, g, g' := EndedTask(s, t), Group(s, t.jid), Group(EndedTask(s, t), t.jid);
            && r.activeCount == s.activeCount - 1 && r.activeTaskCount == s.activeTaskCount - 1
            && r.liveTasks + multiset{t} == s.liveTasks && r.liveMessages == s.liveMessages
            && r.finished == s.finished + multiset{t} && r.waiting == s.waiting
            && (forall k :: k != t.jid ==> Group(r, k) == Group(s, k))
            && g'.runPhase == Idle && g'.currentRunId.None? && g'.runningTaskId.None?
            && g'.pendingTasks == g.pendingTasks && g'.pendingMessages == g.pendingMessages
            && g'.retryCount == g.retryCount && g'.retryTimer == g.retryTimer
            && g'.retryScheduledAt == g.retryScheduledAt
  {
  }

  /** What a finished group does next: its oldest task, or else its messages, before
      anybody else's; nothing after shutdown. */
  lemma OwnWorkFirst(c: Limits, s: QueueState, j: string)
    ensures var r := DrainGroup(c, s, j);
            && (s.shuttingDown ==> r == s)
            && (!s.shuttingDown && HasTasks(s, j) ==>
                  && r.liveTasks == s.liveTasks + multiset{TaskRun(j, Group(s, j).pendingTasks[0])}
                  && Group(r, j).pendingTasks == Group(s, j).pendingTasks[1..]
                  && r.liveMessages == s.liveMessages && r.waiting == s.waiting)
            && (!s.shuttingDown && !HasTasks(s, j) && HasMessages(s, j) ==>
                  && r.liveMessages == s.liveMessages + multiset{MessageRun(j, s.issued)}
                  && !HasMessages(r, j) && r.liveTasks == s.liveTasks && r.waiting == s.waiting)
  {
    hide DrainWaiting;
  }

  /** A shutdown disarms every timer, closes exactly the message runs that have a
      process and an IPC directory, and starts, ends and forgets nothing. */
  lemma ShutdownLeaves(s: QueueState, j: string)
    ensures var r, g, g' := Shutdown(s), Group(s, j), Group(Shutdown(s), j);
            && r.shuttingDown && r.liveMessages == s.liveMessages && r.liveTasks == s.liveTasks
            && r.waiting == s.waiting && r.activeCount == s.activeCount && r.recoveryTimers == s.recoveryTimers
            && !g'.retryTimer && g'.retryScheduledAt.None?
            && g'.pendingMessages == g.pendingMessages && g'.pendingTasks == g.pendingTasks
            && g'.currentRunId == g.currentRunId && g'.runningTaskId == g.runningTaskId
            && g'.runPhase == if g.runPhase == RunningMessages && g.processName.Some? && g.ipcDir.Some?
                              then ClosingMessages else g.runPhase
  {
  }

  /** Closing moves a message run that has an IPC directory, and nothing else. */
  lemma CloseLeaves(s: QueueState, j: string)
    ensures var r, g := CloseStdin(s, j), Group(s, j);
            && (forall k :: k != j ==> Group(r, k) == Group(s, k))
            && r.liveMessages == s.liveMessages && r.liveTasks == s.liveTasks && r.waiting == s.waiting
            && Group(r, j) == g.(runPhase := if g.runPhase == RunningMessages && g.ipcDir.Some? then ClosingMessages
                                             else g.runPhase)
  {
  }

  /** Registering a process notes it and, if one is given, its IPC directory. */
  lemma RegisterLeaves(s: QueueState, j: string, processName: string, ipcDir: Option<string>)
    ensures var r, g, g' := RegisterProcess(s, j, processName, ipcDir), Group(s, j),
                            Group(RegisterProcess(s, j, processName, ipcDir), j);
            && (forall k :: k != j ==> Group(r, k) == Group(s, k))
            && r.(groups := s.groups) == s
            && g'.processName == Some(processName)
            && (ipcDir.Some? ==> g'.ipcDir == ipcDir) && (ipcDir.None? ==> g'.ipcDir == g.ipcDir)
            && g'.(processName := g.processName, ipcDir := g.ipcDir) == g
  {
  }

  // ----- what is reported -----

  /** Every phase may go back to idle; only an idle group may start a run, and only a
      message run may start closing. */
  lemma PhaseTable(a: RunPhase, b: RunPhase)
    ensures ValidTransition(a, b) <==>
            && a != b
            && (b == Idle || (a == Idle && b != ClosingMessages) || (a == RunningMessages && b == ClosingMessages))
  {
  }

  /** Which starts are reported: those over a run of the other kind or one that is
      closing, and those that leave the marks of both kinds behind. Closing reports a
      message run without an id or with a task's. */
  lemma Reports(s: QueueState, j: string, task: QueuedTask)
    ensures var g := Group(s, j);
            && (StartMessages(s, j).violated <==>
                s.violated || g.runPhase in {RunningTask, ClosingMessages} || g.runningTaskId.Some?)
            && (StartTask(s, TaskRun(j, task)).violated <==>
                s.violated || g.runPhase in {RunningMessages, ClosingMessages} || g.currentRunId.Some?)
            && (CloseStdin(s, j).violated <==>
                s.violated || (g.runPhase == RunningMessages && g.ipcDir.Some?
                               && (g.currentRunId.None? || g.runningTaskId.Some?)))
  {
  }

  /** One slot of several is kept from tasks. */
  lemma TaskSlots(c: Limits)
    requires c.Valid()
    ensures c.MaxTasks() == if c.maxAgents == 1 then 1 else c.maxAgents - 1
  {
  }

  /** Recovery puts its own limit in force, and its timer the general one back. */
  lemma RecoveryLimits(c: Limits, s: QueueState)
    ensures EffectiveMax(c, EnterRecovery(s)) == c.recoveryAgents
    ensures EnterRecovery(s).recoveryTimers == s.recoveryTimers + 1
    ensures s.recoveryTimers > 0 ==>
              EffectiveMax(c, RecoveryTimerFires(c, s)) == c.maxAgents
              && RecoveryTimerFires(c, s).recoveryTimers == s.recoveryTimers - 1
  {
    if s.recoveryTimers > 0 {
      DrainFrame(c, s.(recoveryMode := false, recoveryTimers := s.recoveryTimers - 1));
    }
    hide DrainWaiting;
  }
}
