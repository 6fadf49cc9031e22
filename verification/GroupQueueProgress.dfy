/** Progress of the run scheduler: ceilings, no lost wake-up, and draining. */
module GroupQueueProgress {
  import opened Common
  import opened GroupRunState
  import opened GroupQueueModel
  import opened GroupQueueSafety
  import opened GroupQueueExclusion

  // ----- what a drain does -----

  /** `r` is reached from `s` by admitting waiting groups below the limit. */
  ghost predicate Drained(c: Limits, s: QueueState, r: QueueState) {
    && r.recoveryMode == s.recoveryMode && r.shuttingDown == s.shuttingDown
    && r.recoveryTimers == s.recoveryTimers && r.accepted == s.accepted
    && s.activeCount <= r.activeCount <= Max(s.activeCount, EffectiveMax(c, s))
    && s.activeTaskCount <= r.activeTaskCount <= Max(s.activeTaskCount, c.MaxTasks())
    && (forall j :: j in r.waiting ==> j in s.waiting)
    && (forall j :: j in s.waiting ==> j in r.waiting || !IsIdle(r, j))
    && (forall j :: Group(r, j) == Group(s, j) || !IsIdle(r, j))
  }

  lemma StartFrame(s: QueueState, j: string)
    ensures var r := StartMessages(s, j);
            && r.recoveryMode == s.recoveryMode && r.shuttingDown == s.shuttingDown
            && r.recoveryTimers == s.recoveryTimers && r.accepted == s.accepted && r.waiting == s.waiting
            && r.activeCount == s.activeCount + 1 && r.activeTaskCount == s.activeTaskCount
            && !IsIdle(r, j) && forall k :: k != j ==> Group(r, k) == Group(s, k)
  {
  }

  lemma StartTaskFrame(s: QueueState, j: string)
    requires HasTasks(s, j)
    ensures var r := StartQueuedTask(s, j);
            && r.recoveryMode == s.recoveryMode && r.shuttingDown == s.shuttingDown
            && r.recoveryTimers == s.recoveryTimers && r.accepted == s.accepted && r.waiting == s.waiting
            && r.activeCount == s.activeCount + 1 && r.activeTaskCount == s.activeTaskCount + 1
            && !IsIdle(r, j) && forall k :: k != j ==> Group(r, k) == Group(s, k)
  {
  }

  /** Below the limit, with an entry that may start. */
  predicate Admissible(c: Limits, s: QueueState, i: int) {
    && 0 <= i < |s.waiting| && Startable(c, s, s.waiting[i])
    && s.activeCount < EffectiveMax(c, s)
  }

  lemma AdmitFrame(c: Limits, s: QueueState, i: nat)
    requires Admissible(c, s, i)
    ensures Drained(c, s, Admit(c, s, i))
  {
    hide StartMessages, StartQueuedTask;
    var j := s.waiting[i];
    var s' := s.(waiting := Without(s.waiting, i));
    if HasMessages(s, j) { StartFrame(s', j); } else { StartTaskFrame(s', j); }
  }

  /** A drain stops for one of three reasons. */
  lemma {:induction false} DrainFrame(c: Limits, s: QueueState)
    ensures var r := DrainWaiting(c, s);
            && Drained(c, s, r)
            && (|| r.waiting == []
                || r.activeCount >= EffectiveMax(c, r)
                || forall j :: j in r.waiting ==> !Startable(c, r, j))
    decreases |s.waiting|
  {
    hide NextWaiting, Admit, Drained, Startable;
    if s.waiting != [] && s.activeCount < EffectiveMax(c, s) {
      var n := NextWaiting(c, s);
      if n.Some? {
        var s' := Admit(c, s, n.value);
        AdmitFrame(c, s, n.value);
        DrainFrame(c, s');
        DrainedTransitive(c, s, s', DrainWaiting(c, s'));
      } else {
        DrainedReflexive(c, s);
      }
    } else {
      DrainedReflexive(c, s);
    }
  }

  lemma DrainedReflexive(c: Limits, s: QueueState)
    ensures Drained(c, s, s)
  {
  }

  lemma DrainedTransitive(c: Limits, s: QueueState, q: QueueState, r: QueueState)
    requires Drained(c, s, q) && Drained(c, q, r)
    ensures Drained(c, s, r)
  {
    hide Group;
    forall j | j in s.waiting ensures j in r.waiting || !IsIdle(r, j) {
      if j !in q.waiting { assert Group(r, j) == Group(q, j) || !IsIdle(r, j); }
    }
  }

  // ----- ceilings -----

  lemma DrainGroupCeiling(c: Limits, s: QueueState, j: string)
    ensures var r := DrainGroup(c, s, j);
            && r.recoveryMode == s.recoveryMode
            && r.activeCount <= Max(s.activeCount + 1, EffectiveMax(c, s))
  {
    hide StartMessages, StartQueuedTask, DrainWaiting;
    StartFrame(s, j);
    if HasTasks(s, j) { StartTaskFrame(s, j); }
    DrainFrame(c, s);
  }

  /** No event raises the number of live runs above the larger of its value and
      the limit in force afterwards: in recovery mode, the recovery limit. */
  lemma Ceiling(c: Limits, s: QueueState, e: Event)
    requires Enabled(s, e)
    ensures Next(c, s, e).activeCount <= Max(s.activeCount, EffectiveMax(c, Next(c, s, e)))
  {
    hide DrainGroup, DrainWaiting, StartMessages, StartTask, EnqueueMessageCheck, EnqueueTask;
    match e
    case MessagesDone(run, success, now) =>
      DrainGroupCeiling(c, EndedMessages(s, run, success, now), run.jid);
    case TaskDone(t, _) =>
      DrainGroupCeiling(c, EndedTask(s, t), t.jid);
    case RecoveryEnds(_) => DrainFrame(c, s.(recoveryMode := false, recoveryTimers := s.recoveryTimers - 1));
    case EnqueueMessagesEvent(j, ipcDir, now) => MessageCheckCeiling(c, s, j, ipcDir, now);
    case RetryTimer(j, now) => MessageCheckCeiling(c, Disarmed(s, j), j, None, now);
    case EnqueueTaskEvent(j, id) => EnqueueTaskCeiling(c, s, j, id);
    case _ =>
  }

  lemma MessageCheckCeiling(c: Limits, s: QueueState, j: string, ipcDir: Option<string>, now: int)
    ensures var r := EnqueueMessageCheck(c, s, j, ipcDir, now);
            r.recoveryMode == s.recoveryMode && r.activeCount <= Max(s.activeCount, EffectiveMax(c, s))
  {
    hide StartMessages;
    StartFrame(Put(s, j, AdoptIpcDir(Group(s, j), ipcDir)), j);
  }

  lemma EnqueueTaskCeiling(c: Limits, s: QueueState, j: string, id: string)
    ensures var r := EnqueueTask(c, s, j, id);
            r.recoveryMode == s.recoveryMode && r.activeCount <= Max(s.activeCount, EffectiveMax(c, s))
  {
    hide Known;
  }

  /** Over a whole history the larger configured limit is never exceeded. */
  lemma {:induction false} CeilingThroughout(c: Limits, trace: seq<QueueState>, events: seq<Event>, i: nat)
    requires Execution(c, trace, events) && i < |trace|
    ensures trace[i].activeCount <= Max(c.maxAgents, c.recoveryAgents)
  {
    if i > 0 {
      CeilingThroughout(c, trace, events, i - 1);
      Ceiling(c, trace[i - 1], events[i - 1]);
    }
  }

  /** The task limit is not kept by all events. It is passed exactly when a
      message run ends in a group with queued tasks while the limit is reached. */
  lemma TaskLimitCondition(c: Limits, s: QueueState, e: Event)
    requires Enabled(s, e) && s.activeTaskCount <= c.MaxTasks()
    ensures Next(c, s, e).activeTaskCount > c.MaxTasks() <==>
              && e.MessagesDone? && !s.shuttingDown
              && HasTasks(s, e.run.jid) && s.activeTaskCount == c.MaxTasks()
  {
    hide DrainGroup, DrainWaiting, StartMessages, EnqueueMessageCheck, EnqueueTask, RetryRec;
    match e
    case MessagesDone(run, success, now) =>
      var s' := EndedMessages(s, run, success, now);
      RetryKeepsQueue(Group(s, run.jid), now);
      DrainGroupTasks(c, s', run.jid);
    case TaskDone(t, _) =>
      DrainGroupTasks(c, EndedTask(s, t), t.jid);
    case RecoveryEnds(_) => DrainFrame(c, s.(recoveryMode := false, recoveryTimers := s.recoveryTimers - 1));
    case EnqueueMessagesEvent(j, ipcDir, now) => MessageCheckTasks(c, s, j, ipcDir, now);
    case RetryTimer(j, now) => MessageCheckTasks(c, Disarmed(s, j), j, None, now);
    case EnqueueTaskEvent(j, id) => EnqueueTaskTasks(c, s, j, id);
    case _ =>
  }

  lemma RetryKeepsQueue(g: GroupRec, now: int)
    ensures RetryRec(g, now).pendingTasks == g.pendingTasks
    ensures RetryRec(g, now).pendingMessages == g.pendingMessages
  {
  }

  lemma DrainGroupTasks(c: Limits, s: QueueState, j: string)
    requires s.activeTaskCount <= c.MaxTasks()
    ensures var n := DrainGroup(c, s, j).activeTaskCount;
            if !s.shuttingDown && HasTasks(s, j) then n == s.activeTaskCount + 1 else n <= c.MaxTasks()
  {
    hide StartMessages, StartQueuedTask, DrainWaiting;
    StartFrame(s, j);
    if HasTasks(s, j) { StartTaskFrame(s, j); }
    DrainFrame(c, s);
  }

  lemma MessageCheckTasks(c: Limits, s: QueueState, j: string, ipcDir: Option<string>, now: int)
    ensures EnqueueMessageCheck(c, s, j, ipcDir, now).activeTaskCount == s.activeTaskCount
  {
    hide StartMessages;
    StartFrame(Put(s, j, AdoptIpcDir(Group(s, j), ipcDir)), j);
  }

  lemma EnqueueTaskTasks(c: Limits, s: QueueState, j: string, id: string)
    requires s.activeTaskCount <= c.MaxTasks()
    ensures EnqueueTask(c, s, j, id).activeTaskCount <= c.MaxTasks()
  {
    hide Known;
  }

  // ----- no lost wake-up -----

  /** The only timer in sight belongs to a recovery mode that admits nobody. */
  predicate Starved(c: Limits, s: QueueState) { s.recoveryMode && c.recoveryAgents < 1 }

  /** An idle group whose work needs someone to start it. Messages behind an
      armed retry timer do not, unless `strict`. */
  predicate Pending(s: QueueState, j: string, strict: bool) {
    && IsIdle(s, j)
    && (HasTasks(s, j) || (HasMessages(s, j) && (strict || !Group(s, j).retryTimer)))
  }

  ghost predicate AllListed(s: QueueState, strict: bool) {
    forall j :: Pending(s, j, strict) ==> j in s.waiting
  }

  /** Idle groups with work are listed, and something is running to drain them. */
  ghost predicate Awake(c: Limits, s: QueueState, strict: bool) {
    forall j :: Pending(s, j, strict) ==> j in s.waiting && (s.activeCount >= 1 || Starved(c, s))
  }

  ghost predicate Sound(s: QueueState) {
    Phases(s) && Counted(s) && (s.recoveryMode ==> s.recoveryTimers > 0)
  }

  lemma SoundKept(c: Limits, s: QueueState, e: Event)
    requires Sound(s) && Enabled(s, e)
    ensures Sound(Next(c, s, e))
  {
    hide Next;
    CountedClosed();
    PhasesClosed();
    NextKeeps(c, s, e, Counted);
    NextKeeps(c, s, e, Phases);
    hide Counted, Phases, Closed;
    RecoveryTimed(c, s, e);
  }

  /** Recovery mode always has a timer that will end it. */
  lemma RecoveryTimed(c: Limits, s: QueueState, e: Event)
    requires Enabled(s, e) && (s.recoveryMode ==> s.recoveryTimers > 0)
    ensures Next(c, s, e).recoveryMode ==> Next(c, s, e).recoveryTimers > 0
  {
    var P := (q: QueueState) => q.recoveryMode ==> q.recoveryTimers > 0;
    assert Closed(P);
    hide Closed, Next;
    NextKeeps(c, s, e, P);
  }

  /** A drain leaves the queue awake, whatever it found. */
  lemma DrainCounted(c: Limits, s: QueueState)
    requires Counted(s)
    ensures Counted(DrainWaiting(c, s))
  {
    CountedClosed();
    hide DrainWaiting, Closed, Counted;
    DrainKeeps(c, s, Counted);
  }

  lemma DrainAwake(c: Limits, s: QueueState, strict: bool)
    requires c.Valid() && AllListed(s, strict) && Phases(s) && Counted(s)
    ensures Awake(c, DrainWaiting(c, s), strict)
  {
    DrainCounted(c, s);
    DrainFrame(c, s);
    hide DrainWaiting, Phases;
    var r := DrainWaiting(c, s);
    forall j | Pending(r, j, strict) ensures j in r.waiting && (r.activeCount >= 1 || Starved(c, r)) {
      assert Group(r, j) == Group(s, j);
      assert Pending(s, j, strict);
      if !Startable(c, r, j) { assert r.activeTaskCount >= 1; }
    }
  }

  /** Work is listed, except perhaps that of group `j`. */
  ghost predicate OthersListed(s: QueueState, j: string, strict: bool) {
    forall k :: k != j && Pending(s, k, strict) ==> k in s.waiting
  }

  lemma DrainGroupAwake(c: Limits, s: QueueState, j: string, strict: bool)
    requires c.Valid() && OthersListed(s, j, strict) && Phases(s) && Counted(s) && !s.shuttingDown
    ensures Awake(c, DrainGroup(c, s, j), strict)
  {
    hide StartMessages, StartQueuedTask, DrainWaiting, Phases;
    if HasTasks(s, j) {
      StartTaskFrame(s, j);
    } else if HasMessages(s, j) {
      StartFrame(s, j);
    } else {
      assert AllListed(s, strict);
      DrainAwake(c, s, strict);
    }
  }

  predicate Finishes(e: Event) { e.MessagesDone? || e.TaskDone? }

  function Ending(e: Event): Small
    requires Finishes(e)
  {
    if e.MessagesDone? then EndMessages(e.run, e.success, e.now) else EndTask(e.taskRun)
  }

  function EndingGroup(e: Event): string
    requires Finishes(e)
  {
    if e.MessagesDone? then e.run.jid else e.taskRun.jid
  }

  /** A finish is the end of the run, then a drain for its group. */
  lemma FinishIs(c: Limits, s: QueueState, e: Event)
    requires Finishes(e) && Enabled(s, e)
    ensures Possible(s, Ending(e)) && Next(c, s, e) == DrainGroup(c, Step(s, Ending(e)), EndingGroup(e))
  {
    hide DrainGroup, EndedMessages, EndedTask;
  }

  /** `s'` is `s` with a run of group `j` over: its slot is free, its queue and
      its messages are as they were. */
  ghost predicate RunOver(s: QueueState, s': QueueState, j: string) {
    && s'.waiting == s.waiting && s'.shuttingDown == s.shuttingDown && s'.recoveryMode == s.recoveryMode
    && s'.activeCount == s.activeCount - 1
    && (forall k :: k != j ==> Group(s', k) == Group(s, k))
    && HasMessages(s', j) == HasMessages(s, j)
    && Group(s', j).pendingTasks == Group(s, j).pendingTasks
  }

  lemma MessagesOver(s: QueueState, run: MessageRun, success: bool, now: int)
    ensures RunOver(s, EndedMessages(s, run, success, now), run.jid)
  {
    hide RetryRec;
    RetryKeepsQueue(Group(s, run.jid), now);
  }

  lemma EndShape(s: QueueState, e: Event)
    requires Finishes(e) && Possible(s, Ending(e))
    ensures RunOver(s, Step(s, Ending(e)), EndingGroup(e))
  {
    hide StartMessages, StartQueuedTask, StartTask, Shutdown, CloseStdin;
    if e.MessagesDone? {
      MessagesOver(s, e.run, e.success, e.now);
    }
    hide EndedMessages;
  }

  lemma FinishAwake(c: Limits, s: QueueState, e: Event, strict: bool)
    requires c.Valid() && Finishes(e) && Enabled(s, e) && !s.shuttingDown
    requires Phases(s) && Counted(s) && Awake(c, s, strict)
    ensures Awake(c, Next(c, s, e), strict)
  {
    FinishIs(c, s, e);
    EndShape(s, e);
    var s', j := Step(s, Ending(e)), EndingGroup(e);
    PhasesStep(s, Ending(e));
    CountedClosed();
    Take(s, Ending(e), Counted);
    hide Next, Step, Phases, Closed;
    assert OthersListed(s', j, strict);
    DrainGroupAwake(c, s', j, strict);
  }

  /** An enqueue concerns its own group: it starts it, lists it at a limit,
      changes nothing, or leaves it to its retry timer. */
  ghost predicate Enqueued(c: Limits, s: QueueState, r: QueueState, j: string) {
    && (forall k :: k != j ==> Group(r, k) == Group(s, k))
    && (forall k :: k in s.waiting ==> k in r.waiting)
    && r.recoveryMode == s.recoveryMode && r.activeCount >= s.activeCount
    && (|| !IsIdle(r, j)
        || AtLimit(c, r, j)
        || Group(r, j) == Group(s, j)
        || (IsIdle(s, j) && Group(r, j).pendingTasks == Group(s, j).pendingTasks && Group(r, j).retryTimer))
  }

  /** Listed because a limit is reached. */
  predicate AtLimit(c: Limits, r: QueueState, j: string) {
    j in r.waiting && (r.activeCount >= EffectiveMax(c, r) || r.activeTaskCount >= c.MaxTasks())
  }

  lemma MessageCheckShape(c: Limits, s: QueueState, j: string, ipcDir: Option<string>, now: int)
    requires RetryOk(Group(s, j)) && !s.shuttingDown
    ensures Enqueued(c, s, EnqueueMessageCheck(c, s, j, ipcDir, now), j)
  {
    hide StartMessages;
    if IsIdle(s, j) && !Backoff(Group(s, j), now) {
      CheckWithoutBackoff(c, s, j, ipcDir, now);
    }
  }

  lemma CheckedShape(c: Limits, s: QueueState, j: string, g: GroupRec, now: int)
    requires !Backoff(g, now)
    ensures var r := MessageCheck(c, s, j, g, now);
            && (forall k :: k != j ==> Group(r, k) == Group(s, k))
            && (forall k :: k in s.waiting ==> k in r.waiting)
            && r.recoveryMode == s.recoveryMode && r.activeCount >= s.activeCount
            && (!IsIdle(r, j) || AtLimit(c, r, j))
  {
    hide StartMessages;
    if g.runPhase == Idle && s.activeCount < EffectiveMax(c, s) {
      StartFrame(Put(s, j, g), j);
      hide AtLimit, MessageCheck;
    }
  }

  lemma CheckWithoutBackoff(c: Limits, s: QueueState, j: string, ipcDir: Option<string>, now: int)
    requires !s.shuttingDown && !Backoff(Group(s, j), now)
    ensures var r := EnqueueMessageCheck(c, s, j, ipcDir, now);
            && (forall k :: k != j ==> Group(r, k) == Group(s, k))
            && (forall k :: k in s.waiting ==> k in r.waiting)
            && r.recoveryMode == s.recoveryMode && r.activeCount >= s.activeCount
            && (!IsIdle(r, j) || AtLimit(c, r, j))
  {
    CheckedShape(c, s, j, AdoptIpcDir(Group(s, j), ipcDir), now);
    hide MessageCheck, Group, IsIdle, AtLimit;
  }

  lemma EnqueueTaskShape(c: Limits, s: QueueState, j: string, id: string)
    ensures Enqueued(c, s, EnqueueTask(c, s, j, id), j)
  {
    if StartsTaskNow(c, s, j, id) {
      var t := TaskRun(j, QueuedTask(id, s.issued));
      var s' := s.(issued := s.issued + 1, accepted := s.accepted + {t});
      hide Known, StartTask;
      DirectTaskFrame(Put(s', j, Group(s, j)), t);
    } else {
      hide StartTask;
      QueuedTaskShape(c, s, j, id);
    }
    hide EnqueueTask;
  }

  lemma QueuedTaskShape(c: Limits, s: QueueState, j: string, id: string)
    requires !StartsTaskNow(c, s, j, id)
    ensures Enqueued(c, s, EnqueueTask(c, s, j, id), j)
  {
    hide Known, StartTask;
  }

  lemma DirectTaskFrame(s: QueueState, t: TaskRun)
    ensures var r := StartTask(s, t);
            && r.recoveryMode == s.recoveryMode && r.waiting == s.waiting
            && r.activeCount == s.activeCount + 1
            && !IsIdle(r, t.jid) && forall k :: k != t.jid ==> Group(r, k) == Group(s, k)
  {
  }

  lemma EnqueuedAwake(c: Limits, s: QueueState, r: QueueState, j: string)
    requires c.Valid() && Counted(r) && Enqueued(c, s, r, j) && Awake(c, s, false)
    ensures Awake(c, r, false)
  {
    forall k | Pending(r, k, false) ensures k in r.waiting && (r.activeCount >= 1 || Starved(c, r)) {
      if k != j { assert Pending(s, k, false); }
      else if Group(r, j) == Group(s, j) { assert Pending(s, j, false); }
      else if !AtLimit(c, r, j) { assert Pending(s, j, false); }
    }
  }

  lemma QuietAwake(c: Limits, s: QueueState, e: Event)
    requires Enabled(s, e) && Awake(c, s, false)
    requires e.RecoveryStarts? || e.CloseStdinEvent? || e.ProcessRegistered?
    ensures Awake(c, Next(c, s, e), false)
  {
    hide EnqueueMessageCheck, EnqueueTask, FinishMessages, FinishTask, RecoveryTimerFires, Shutdown, RetryTimerFires;
    forall k | Pending(Next(c, s, e), k, false) ensures Pending(s, k, false) {}
  }

  lemma RecoveryEndAwake(c: Limits, s: QueueState)
    requires c.Valid() && s.recoveryTimers > 0 && Phases(s) && Counted(s) && Awake(c, s, false)
    ensures Awake(c, RecoveryTimerFires(c, s), false)
  {
    var s' := s.(recoveryMode := false, recoveryTimers := s.recoveryTimers - 1);
    assert Phases(s') by {
      hide Phases;
      PhasesStep(s, Recovery(false, s.recoveryTimers - 1));
    }
    hide Phases, DrainWaiting;
    forall k | Pending(s', k, false) ensures k in s'.waiting { assert Pending(s, k, false); }
    DrainAwake(c, s', false);
  }

  /** A retry: the timer is gone, but the check that follows makes up for it. */
  lemma RetryAwake(c: Limits, s: QueueState, j: string, now: int)
    requires c.Valid() && !s.shuttingDown && Phases(s) && Counted(s) && Awake(c, s, false)
    requires Counted(RetryTimerFires(c, s, j, now))
    ensures Awake(c, RetryTimerFires(c, s, j, now), false)
  {
    var s' := Disarmed(s, j);
    var r := RetryTimerFires(c, s, j, now);
    CheckWithoutBackoff(c, s', j, None, now);
    hide EnqueueMessageCheck, Phases;
    forall k | Pending(r, k, false) ensures k in r.waiting && (r.activeCount >= 1 || Starved(c, r)) {
      if k != j { assert Pending(s, k, false); }
    }
  }

  /** No event short of a shutdown puts the queue to sleep over pending work. */
  lemma AwakeKept(c: Limits, s: QueueState, e: Event)
    requires c.Valid() && Enabled(s, e) && !s.shuttingDown && Sound(s) && Awake(c, s, false)
    requires !e.ShutdownEvent?
    ensures Awake(c, Next(c, s, e), false)
  {
    assert Counted(Next(c, s, e)) by { hide Next; SoundKept(c, s, e); }
    hide EnqueueMessageCheck, EnqueueTask, FinishMessages, FinishTask, RetryTimerFires,
         RecoveryTimerFires, CloseStdin, RegisterProcess, Awake;
    match e
    case MessagesDone(_, _, _) => FinishAwake(c, s, e, false);
    case TaskDone(_, _) => FinishAwake(c, s, e, false);
    case EnqueueMessagesEvent(j, ipcDir, now) =>
      assert RetryOk(Group(s, j));
      MessageCheckShape(c, s, j, ipcDir, now);
      EnqueuedAwake(c, s, Next(c, s, e), j);
    case EnqueueTaskEvent(j, id) =>
      EnqueueTaskShape(c, s, j, id);
      EnqueuedAwake(c, s, Next(c, s, e), j);
    case RetryTimer(j, now) => RetryAwake(c, s, j, now);
    case RecoveryEnds(_) => RecoveryEndAwake(c, s);
    case _ => QuietAwake(c, s, e);
  }
}
