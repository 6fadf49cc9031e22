/** What is asked of the queue is remembered until it is run. */
module GroupQueueArrivals {
  import opened Common
  import opened GroupRunState
  import opened GroupQueueModel
  import opened GroupQueueSafety
  import opened GroupQueueExclusion
  import opened GroupQueueProgress
  import opened GroupQueueBackoff
  import opened GroupQueueHistories

  // ----- messages -----

  /** What asking for messages of `j` adds. */
  ghost predicate Asked(c: Limits, s: QueueState, r: QueueState, j: string, starts: bool) {
    && (starts <==> r.liveMessages == s.liveMessages + multiset{MessageRun(j, s.issued)})
    && (!starts <==> r.liveMessages == s.liveMessages)
    && (!starts ==> HasMessages(r, j))
    && r.liveTasks == s.liveTasks
    && (forall k :: k != j ==> Group(r, k) == Group(s, k))
    && Group(r, j).pendingTasks == Group(s, j).pendingTasks
  }

  lemma NotedIsAsked(c: Limits, s: QueueState, j: string, ipcDir: Option<string>)
    ensures var queued := Put(s, j, AdoptIpcDir(Group(s, j), ipcDir).(pendingMessages := true));
            && Asked(c, s, queued, j, false) && queued.waiting == s.waiting
            && Asked(c, s, Waiting(queued, j), j, false)
            && Waiting(queued, j).waiting == if j in s.waiting then s.waiting else s.waiting + [j]
  {
  }

  lemma StartedIsAsked(c: Limits, s: QueueState, j: string, ipcDir: Option<string>)
    ensures var r := StartMessages(Put(s, j, AdoptIpcDir(Group(s, j), ipcDir)), j);
            Asked(c, s, r, j, true) && r.waiting == s.waiting
  {
  }

  lemma AdoptedIs(g: GroupRec, ipcDir: Option<string>)
    ensures var g' := AdoptIpcDir(g, ipcDir);
            g'.runPhase == g.runPhase && g'.retryScheduledAt == g.retryScheduledAt
  {
  }

  /** Before shutdown either a message run starts at once, exactly when the group is
      idle, not backing off and a slot is free, or the messages are noted; at the
      limit an idle group is then listed, last if it was not listed yet. */
  lemma MessagesAreNoted(c: Limits, s: QueueState, j: string, ipcDir: Option<string>, now: int)
    requires !s.shuttingDown
    ensures var r := EnqueueMessageCheck(c, s, j, ipcDir, now);
            var g := Group(s, j);
            var due := g.runPhase == Idle && (g.retryScheduledAt.None? || g.retryScheduledAt.value <= now);
            && Asked(c, s, r, j, due && s.activeCount < EffectiveMax(c, s))
            && r.waiting == if due && s.activeCount >= EffectiveMax(c, s) && j !in s.waiting then s.waiting + [j]
                            else s.waiting
  {
    hide Asked, StartMessages, Put, Waiting, Group, AdoptIpcDir, EffectiveMax;
    NotedIsAsked(c, s, j, ipcDir);
    StartedIsAsked(c, s, j, ipcDir);
    AdoptedIs(Group(s, j), ipcDir);
  }

  /** The IPC directory of the first that gives one is kept. */
  lemma IpcDirIsAdopted(c: Limits, s: QueueState, j: string, ipcDir: Option<string>, now: int)
    requires !s.shuttingDown
    ensures Group(EnqueueMessageCheck(c, s, j, ipcDir, now), j).ipcDir
            == if Group(s, j).ipcDir.Some? then Group(s, j).ipcDir else ipcDir
  {
  }

  /** After shutdown nothing happens. */
  lemma NothingIsNoted(c: Limits, s: QueueState, j: string, ipcDir: Option<string>, now: int, taskId: string)
    requires s.shuttingDown
    ensures EnqueueMessageCheck(c, s, j, ipcDir, now) == EnqueueTask(c, s, j, taskId) == s
  {
  }

  /** A retry asks again in the same way, its own backoff being over. */
  lemma RetryAsks(c: Limits, s: QueueState, j: string, now: int)
    requires !s.shuttingDown
    ensures var r := RetryTimerFires(c, s, j, now);
            && (HasMessages(r, j) || r.liveMessages == s.liveMessages + multiset{MessageRun(j, s.issued)})
            && (Group(s, j).runPhase == Idle && s.activeCount < EffectiveMax(c, s) ==>
                  r.liveMessages == s.liveMessages + multiset{MessageRun(j, s.issued)})
  {
    MessagesAreNoted(c, Disarmed(s, j), j, None, now);
    hide EnqueueMessageCheck;
  }

  /** Noted messages stay noted, or a run for them has started. */
  ghost predicate Kept(s: QueueState, r: QueueState, j: string, base: nat) {
    HasMessages(s, j) ==> HasMessages(r, j) || Runs(r, j, base)
  }

  lemma StartKeeps(s: QueueState, j: string, k: string)
    ensures Kept(s, StartMessages(s, j), k, s.issued)
  {
    assert j == k ==> MessageRun(j, s.issued) in StartMessages(s, j).liveMessages;
  }

  lemma StartTaskKeeps(s: QueueState, j: string, k: string)
    requires HasTasks(s, j)
    ensures HasMessages(StartQueuedTask(s, j), k) == HasMessages(s, k)
  {
  }

  lemma {:induction false} DrainKeepsMessages(c: Limits, s: QueueState, j: string, base: nat)
    requires base <= s.issued
    ensures Kept(s, DrainWaiting(c, s), j, base)
    decreases |s.waiting|
  {
    hide Admit, NextWaiting;
    if s.waiting != [] && s.activeCount < EffectiveMax(c, s) && NextWaiting(c, s).Some? && HasMessages(s, j) {
      var n := NextWaiting(c, s).value;
      var k, r := s.waiting[n], Admit(c, s, n);
      if HasMessages(s, k) {
        AdmitMessages(c, s, n);
        if k == j {
          DrainKeepsRun(c, r, MessageRun(j, s.issued));
          IsRun(DrainWaiting(c, r), MessageRun(j, s.issued), base);
        } else {
          DrainKeepsMessages(c, r, j, base);
        }
      } else {
        AdmitTask(c, s, n);
        DrainKeepsMessages(c, r, j, base);
      }
    }
  }

  lemma FinishKeeps(c: Limits, s: QueueState, j: string, k: string, base: nat)
    requires base <= s.issued
    ensures Kept(s, DrainGroup(c, s, j), k, base)
  {
    hide StartMessages, StartQueuedTask, DrainWaiting;
    if HasTasks(s, j) { StartTaskKeeps(s, j, k); }
    StartKeeps(s, j, k);
    DrainKeepsMessages(c, s, k, base);
    hide HasMessages;
    RunsFrom(StartMessages(s, j), k, base, s.issued);
  }

  lemma RunsFrom(s: QueueState, j: string, base: nat, later: nat)
    requires base <= later
    ensures Runs(s, j, later) ==> Runs(s, j, base)
  {
  }

  /** Whatever happens, noted messages of a group are forgotten only as a message
      run of the group starts. */
  lemma MessagesAreKept(c: Limits, s: QueueState, e: Event, j: string)
    requires Enabled(s, e) && HasMessages(s, j)
    ensures HasMessages(Next(c, s, e), j) || Runs(Next(c, s, e), j, s.issued)
  {
    hide DrainWaiting, DrainGroup, EnqueueMessageCheck, EnqueueTask, RetryRec;
    match e
    case EnqueueMessagesEvent(k, ipcDir, now) => CheckKeeps(c, s, k, ipcDir, now, j);
    case EnqueueTaskEvent(k, id) => TaskKeeps(c, s, k, id, j);
    case MessagesDone(run, success, now) =>
      EndKeeps(s, run, success, now, j);
      FinishKeeps(c, EndedMessages(s, run, success, now), run.jid, j, s.issued);
    case TaskDone(t, _) => FinishKeeps(c, EndedTask(s, t), t.jid, j, s.issued);
    case RetryTimer(k, now) => CheckKeeps(c, Disarmed(s, k), k, None, now, j);
    case RecoveryEnds(_) =>
      DrainKeepsMessages(c, s.(recoveryMode := false, recoveryTimers := s.recoveryTimers - 1), j, s.issued);
    case _ =>
  }

  lemma EndKeeps(s: QueueState, run: MessageRun, success: bool, now: int, j: string)
    requires HasMessages(s, j)
    ensures HasMessages(EndedMessages(s, run, success, now), j)
  {
  }

  lemma CheckKeeps(c: Limits, s: QueueState, k: string, ipcDir: Option<string>, now: int, j: string)
    requires HasMessages(s, j)
    ensures var r := EnqueueMessageCheck(c, s, k, ipcDir, now); HasMessages(r, j) || Runs(r, j, s.issued)
  {
    if !s.shuttingDown { MessagesAreNoted(c, s, k, ipcDir, now); }
    var r := EnqueueMessageCheck(c, s, k, ipcDir, now);
    if r.liveMessages == s.liveMessages + multiset{MessageRun(k, s.issued)} {
      assert MessageRun(k, s.issued) in r.liveMessages;
    }
    hide EnqueueMessageCheck;
  }

  lemma TaskKeeps(c: Limits, s: QueueState, k: string, id: string, j: string)
    requires HasMessages(s, j)
    ensures HasMessages(EnqueueTask(c, s, k, id), j)
  {
    hide Known;
  }

  /** Over histories: messages asked for before shutdown are still noted, or a
      message run of their group has started since. */
  lemma {:induction false} MessagesAreRun(c: Limits, trace: seq<QueueState>, events: seq<Event>, i: nat, k: nat)
    requires Execution(c, trace, events) && i < k < |trace|
    requires events[i].EnqueueMessagesEvent? && !trace[i].shuttingDown
    ensures HasMessages(trace[k], events[i].jid)
            || exists m :: i <= m < k && Runs(trace[m + 1], events[i].jid, trace[m].issued)
    decreases k
  {
    hide Next, HasMessages, Runs;
    var j := events[i].jid;
    if k == i + 1 {
      EnqueuedRuns(c, trace[i], events[i]);
    } else {
      MessagesAreRun(c, trace, events, i, k - 1);
      if HasMessages(trace[k - 1], j) {
        MessagesAreKept(c, trace[k - 1], events[k - 1], j);
      }
    }
  }

  lemma EnqueuedRuns(c: Limits, s: QueueState, e: Event)
    requires e.EnqueueMessagesEvent? && !s.shuttingDown
    ensures HasMessages(Next(c, s, e), e.jid) || Runs(Next(c, s, e), e.jid, s.issued)
  {
    MessagesAreNoted(c, s, e.jid, e.ipcDir, e.now);
    assert MessageRun(e.jid, s.issued) in Next(c, s, e).liveMessages || HasMessages(Next(c, s, e), e.jid);
    hide EnqueueMessageCheck;
  }

  // ----- tasks -----

  /** Not running under that id, and not queued. */
  predicate Unknown(g: GroupRec, taskId: string) {
    g.runningTaskId != Some(taskId) && forall t :: t in g.pendingTasks ==> t.id != taskId
  }

  /** The task is accepted, and starts or becomes the last of its group's queue. */
  ghost predicate Taken(s: QueueState, r: QueueState, t: TaskRun, starts: bool) {
    && r.accepted == s.accepted + {t} && r.liveMessages == s.liveMessages
    && r.liveTasks == s.liveTasks + (if starts then multiset{t} else multiset{})
    && Group(r, t.jid).pendingTasks == Group(s, t.jid).pendingTasks + (if starts then [] else [t.task])
    && (forall k :: k != t.jid ==> Group(r, k) == Group(s, k))
  }

  function Noted(s: QueueState, t: TaskRun): QueueState {
    s.(issued := s.issued + 1, accepted := s.accepted + {t})
  }

  lemma QueuedIsTaken(s: QueueState, t: TaskRun)
    ensures var g := Group(s, t.jid);
            var queued := Put(Noted(s, t), t.jid, g.(pendingTasks := g.pendingTasks + [t.task]));
            && Taken(s, queued, t, false) && queued.waiting == s.waiting
            && Taken(s, Waiting(queued, t.jid), t, false)
            && Waiting(queued, t.jid).waiting == if t.jid in s.waiting then s.waiting else s.waiting + [t.jid]
  {
  }

  lemma StartedIsTaken(s: QueueState, t: TaskRun)
    ensures var r := StartTask(Put(Noted(s, t), t.jid, Group(s, t.jid)), t);
            Taken(s, r, t, true) && r.waiting == s.waiting
  {
  }

  /** Before shutdown an unknown task is accepted, and no other: it starts at once,
      exactly when the group is idle and both limits leave room, or becomes the last
      of its group's queue; an idle group that has to wait is listed. */
  lemma TasksAreAccepted(c: Limits, s: QueueState, j: string, id: string)
    requires !s.shuttingDown
    ensures var r, g, t := EnqueueTask(c, s, j, id), Group(s, j), TaskRun(j, QueuedTask(id, s.issued));
            var starts := g.runPhase == Idle && s.activeCount < EffectiveMax(c, s) && s.activeTaskCount < c.MaxTasks();
            if Unknown(g, id) then
              && Taken(s, r, t, starts)
              && r.waiting == if g.runPhase == Idle && !starts && j !in s.waiting then s.waiting + [j] else s.waiting
            else r == Put(s, j, g)
  {
    var g, t := Group(s, j), TaskRun(j, QueuedTask(id, s.issued));
    assert Unknown(g, id) <==> !Known(g, id);
    hide Known, Unknown, Taken, StartTask, Put, Waiting, Group, EffectiveMax, Limits.MaxTasks;
    QueuedIsTaken(s, t);
    StartedIsTaken(s, t);
  }

  lemma {:induction false} DrainAccepts(c: Limits, s: QueueState)
    ensures DrainWaiting(c, s).accepted == s.accepted
    decreases |s.waiting|
  {
    if s.waiting != [] && s.activeCount < EffectiveMax(c, s) && NextWaiting(c, s).Some? {
      DrainAccepts(c, Admit(c, s, NextWaiting(c, s).value));
    }
  }

  /** Nothing else accepts a task. */
  lemma OthersAcceptNothing(c: Limits, s: QueueState, e: Event)
    requires Enabled(s, e) && !e.EnqueueTaskEvent?
    ensures Next(c, s, e).accepted == s.accepted
  {
    hide DrainWaiting, RetryRec, EffectiveMax, AdoptIpcDir;
    match e
    case MessagesDone(run, success, now) => DrainAccepts(c, EndedMessages(s, run, success, now));
    case TaskDone(t, _) => DrainAccepts(c, EndedTask(s, t));
    case RecoveryEnds(_) => DrainAccepts(c, s.(recoveryMode := false, recoveryTimers := s.recoveryTimers - 1));
    case _ =>
  }

  /** The event asks for the task under an id unknown to its group. */
  predicate Accepts(s: QueueState, e: Event, t: TaskRun) {
    && e.EnqueueTaskEvent? && !s.shuttingDown && Unknown(Group(s, e.jid), e.taskId)
    && t == TaskRun(e.jid, QueuedTask(e.taskId, s.issued))
  }

  lemma AcceptedNext(c: Limits, s: QueueState, e: Event, t: TaskRun)
    requires Enabled(s, e)
    ensures t in Next(c, s, e).accepted <==> t in s.accepted || Accepts(s, e, t)
  {
    hide EnqueueTask, Unknown;
    if e.EnqueueTaskEvent? {
      if s.shuttingDown {
        NothingIsNoted(c, s, e.jid, None, 0, e.taskId);
      } else {
        TasksAreAccepted(c, s, e.jid, e.taskId);
      }
    } else {
      hide Next;
      OthersAcceptNothing(c, s, e);
    }
  }

  /** Over histories the accepted tasks are exactly those asked for so. */
  lemma {:induction false} AcceptedExactly(c: Limits, trace: seq<QueueState>, events: seq<Event>, k: nat, t: TaskRun)
    requires Execution(c, trace, events) && k < |trace|
    ensures t in trace[k].accepted <==> exists i :: 0 <= i < k && Accepts(trace[i], events[i], t)
  {
    hide Next, Accepts;
    if k > 0 {
      AcceptedExactly(c, trace, events, k - 1, t);
      AcceptedNext(c, trace[k - 1], events[k - 1], t);
    }
  }

  /** And none is lost: at any later time it is queued, running or finished, once. */
  lemma TasksAreNotLost(c: Limits, trace: seq<QueueState>, events: seq<Event>, i: nat, k: nat, t: TaskRun)
    requires Execution(c, trace, events) && i < k < |trace| && Accepts(trace[i], events[i], t)
    ensures Places(trace[k], t) == 1
  {
    AcceptedExactly(c, trace, events, k, t);
    SoundThroughout(c, trace, events, k);
    hide Execution, Accepts, Next;
  }
}
