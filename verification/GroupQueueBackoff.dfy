/** Backoff: which events start a message run although the retry of its group
    is not due. */
module GroupQueueBackoff {
  import opened Common
  import opened GroupRunState
  import opened GroupQueueModel
  import opened GroupQueueSafety
  import opened GroupQueueExclusion
  import opened GroupQueueProgress

  /** Run ids are handed out once. */
  ghost predicate FreshRuns(s: QueueState) {
    forall m :: m in s.liveMessages ==> m.runId < s.issued
  }

  lemma FreshRunsClosed()
    ensures Closed(FreshRuns)
  {
    forall s, a | FreshRuns(s) && Possible(s, a)
      ensures FreshRuns(Step(s, a))
    {
      RunsAfter(s, a);
      IssuedAfter(s, a);
      hide Step, Possible;
    }
  }

  // ----- which message runs a drain starts -----

  /** The groups with messages among the first `i` of the list. */
  ghost function MessageGroups(s: QueueState, i: int): set<string>
    requires 0 <= i <= |s.waiting|
  {
    set k | 0 <= k < i && HasMessages(s, s.waiting[k]) :: s.waiting[k]
  }

  /** Slots are left for `j` when those before it have taken theirs. */
  ghost predicate ReachedAt(c: Limits, s: QueueState, j: string, i: int) {
    && 0 <= i < |s.waiting| && s.waiting[i] == j
    && |MessageGroups(s, i)| < EffectiveMax(c, s) - s.activeCount
  }

  /** A drain gets as far as the messages of `j`. */
  ghost predicate Reached(c: Limits, s: QueueState, j: string) {
    HasMessages(s, j) && exists i :: ReachedAt(c, s, j, i)
  }

  /** A message run of `j` with an id from `base` on is live. */
  ghost predicate Runs(s: QueueState, j: string, base: nat) {
    exists m :: m in s.liveMessages && m.jid == j && m.runId >= base
  }

  lemma AdmitMessages(c: Limits, s: QueueState, i: nat)
    requires i < |s.waiting| && HasMessages(s, s.waiting[i])
    ensures var j, r := s.waiting[i], Admit(c, s, i);
            && r.waiting == Without(s.waiting, i) && r.activeCount == s.activeCount + 1
            && EffectiveMax(c, r) == EffectiveMax(c, s) && r.issued == s.issued + 1
            && r.liveMessages == s.liveMessages + multiset{MessageRun(j, s.issued)}
            && (forall k :: HasMessages(r, k) == (HasMessages(s, k) && k != j))
            && (forall k :: Group(r, k).retryScheduledAt == Group(s, k).retryScheduledAt)
  {
    hide Without;
  }

  lemma AdmitTask(c: Limits, s: QueueState, i: nat)
    requires i < |s.waiting| && !HasMessages(s, s.waiting[i]) && Startable(c, s, s.waiting[i])
    ensures var r := Admit(c, s, i);
            && r.waiting == Without(s.waiting, i)
            && r.issued == s.issued && r.liveMessages == s.liveMessages
            && (forall k :: HasMessages(r, k) == HasMessages(s, k))
            && (forall k :: Group(r, k).retryScheduledAt == Group(s, k).retryScheduledAt)
  {
    hide Without;
  }

  /** After the first group with messages has been admitted the others are as
      far away as before. */
  lemma ReachedNext(c: Limits, s: QueueState, r: QueueState, first: nat, j: string)
    requires first < |s.waiting| && HasMessages(s, s.waiting[first]) && j != s.waiting[first]
    requires forall k :: 0 <= k < first ==> !HasMessages(s, s.waiting[k])
    requires r.waiting == Without(s.waiting, first) && r.activeCount == s.activeCount + 1
    requires EffectiveMax(c, r) == EffectiveMax(c, s)
    requires forall k :: HasMessages(r, k) == (HasMessages(s, k) && k != s.waiting[first])
    ensures Reached(c, r, j) <==> Reached(c, s, j)
  {
    hide HasMessages, EffectiveMax;
    if HasMessages(s, j) {
      forall i | first < i < |s.waiting|
        ensures ReachedAt(c, s, j, i) <==> ReachedAt(c, r, j, i - 1)
      {
        OneLess(s, r, first, i);
      }
      forall i | ReachedAt(c, s, j, i) ensures first < i {}
      forall i | ReachedAt(c, r, j, i) ensures first <= i { assert r.waiting[i] == j; }
      forall i | ReachedAt(c, r, j, i) ensures ReachedAt(c, s, j, i + 1) { assert i == (i + 1) - 1; }
    }
  }

  lemma OneLess(s: QueueState, r: QueueState, first: nat, i: nat)
    requires first < i <= |s.waiting| && HasMessages(s, s.waiting[first])
    requires r.waiting == Without(s.waiting, first)
    requires forall k :: HasMessages(r, k) == (HasMessages(s, k) && k != s.waiting[first])
    ensures |MessageGroups(r, i - 1)| == |MessageGroups(s, i)| - 1
  {
    hide HasMessages;
    var j := s.waiting[first];
    assert forall k :: 0 <= k < i - 1 ==> r.waiting[k] == s.waiting[if k < first then k else k + 1];
    forall x | x in MessageGroups(s, i) && x != j
      ensures x in MessageGroups(r, i - 1)
    {
      var k :| 0 <= k < i && s.waiting[k] == x;
      assert r.waiting[if k < first then k else k - 1] == x;
    }
    assert MessageGroups(r, i - 1) == MessageGroups(s, i) - {j};
    assert j in MessageGroups(s, i);
  }

  /** A drain starts the messages of exactly the groups it reaches. */
  lemma {:induction false} DrainStarts(c: Limits, s: QueueState, j: string, base: nat)
    requires base <= s.issued && !Runs(s, j, base)
    ensures Runs(DrainWaiting(c, s), j, base) <==> Reached(c, s, j)
    decreases |s.waiting|
  {
    hide Admit, NextWaiting, Reached, Runs, HasMessages;
    if s.waiting == [] || s.activeCount >= EffectiveMax(c, s) {
      NotReached(c, s, j);
    } else {
      var n := NextWaiting(c, s);
      if n.None? {
        NotReached(c, s, j);
      } else {
        var r := Admit(c, s, n.value);
        if !HasMessages(s, s.waiting[n.value]) {
          AdmitTask(c, s, n.value);
          NotReached(c, s, j);
          NotReached(c, r, j);
          SameRuns(s, r, j, base);
          DrainStarts(c, r, j, base);
        } else {
          AdmitMessages(c, s, n.value);
          if s.waiting[n.value] == j {
            ReachedFirst(c, s, n.value);
            DrainKeepsRun(c, r, MessageRun(j, s.issued));
            IsRun(DrainWaiting(c, r), MessageRun(j, s.issued), base);
          } else {
            ReachedNext(c, s, r, n.value, j);
            SameRuns(s, r, j, base);
            DrainStarts(c, r, j, base);
          }
        }
      }
    }
  }

  lemma NotReached(c: Limits, s: QueueState, j: string)
    requires || s.activeCount >= EffectiveMax(c, s)
             || forall k :: 0 <= k < |s.waiting| ==> !HasMessages(s, s.waiting[k])
    ensures !Reached(c, s, j)
  {
  }

  lemma ReachedFirst(c: Limits, s: QueueState, i: nat)
    requires i < |s.waiting| && HasMessages(s, s.waiting[i]) && s.activeCount < EffectiveMax(c, s)
    requires forall k :: 0 <= k < i ==> !HasMessages(s, s.waiting[k])
    ensures Reached(c, s, s.waiting[i])
  {
    assert MessageGroups(s, i) == {};
    assert ReachedAt(c, s, s.waiting[i], i);
  }

  lemma SameRuns(s: QueueState, r: QueueState, j: string, base: nat)
    requires r.liveMessages == s.liveMessages ||
             exists m: MessageRun :: m.jid != j && r.liveMessages == s.liveMessages + multiset{m}
    ensures Runs(r, j, base) <==> Runs(s, j, base)
  {
    forall m: MessageRun | m.jid == j ensures m in r.liveMessages <==> m in s.liveMessages {}
  }

  lemma IsRun(s: QueueState, m: MessageRun, base: nat)
    requires m in s.liveMessages && m.runId >= base
    ensures Runs(s, m.jid, base)
  {
  }

  lemma {:induction false} DrainKeepsRun(c: Limits, s: QueueState, m: MessageRun)
    requires m in s.liveMessages
    ensures m in DrainWaiting(c, s).liveMessages
    decreases |s.waiting|
  {
    hide Admit, NextWaiting;
    if s.waiting != [] && s.activeCount < EffectiveMax(c, s) {
      var n := NextWaiting(c, s);
      if n.Some? {
        AdmitMonotone(c, s, n.value);
        DrainKeepsRun(c, Admit(c, s, n.value), m);
      }
    }
  }

  lemma AdmitMonotone(c: Limits, s: QueueState, i: nat)
    requires i < |s.waiting| && Startable(c, s, s.waiting[i])
    ensures s.liveMessages <= Admit(c, s, i).liveMessages
    ensures forall k :: Group(Admit(c, s, i), k).retryScheduledAt == Group(s, k).retryScheduledAt
  {
    if HasMessages(s, s.waiting[i]) { AdmitMessages(c, s, i); } else { AdmitTask(c, s, i); }
    hide *;
  }

  /** Draining changes no retry time. */
  lemma {:induction false} DrainKeepsTimes(c: Limits, s: QueueState, j: string)
    ensures Group(DrainWaiting(c, s), j).retryScheduledAt == Group(s, j).retryScheduledAt
    decreases |s.waiting|
  {
    hide Admit, NextWaiting, Group;
    if s.waiting != [] && s.activeCount < EffectiveMax(c, s) {
      var n := NextWaiting(c, s);
      if n.Some? {
        AdmitMonotone(c, s, n.value);
        DrainKeepsTimes(c, Admit(c, s, n.value), j);
      }
    }
  }

  // ----- when backoff is not respected -----

  /** What the clock reads at an event that looks at it or starts runs. */
  function Clock(e: Event): int {
    match e
    case EnqueueMessagesEvent(_, _, now) => now
    case MessagesDone(_, _, now) => now
    case TaskDone(_, now) => now
    case RetryTimer(_, now) => now
    case RecoveryEnds(now) => now
    case _ => 0
  }

  /** A message run of a group inside its backoff has started since `s`. */
  ghost predicate InBackoff(s: QueueState, r: QueueState, now: int) {
    exists j :: Runs(r, j, s.issued) && Backoff(Group(r, j), now)
  }

  ghost predicate StartsInBackoff(c: Limits, s: QueueState, e: Event)
    requires Enabled(s, e)
  {
    InBackoff(s, Next(c, s, e), Clock(e))
  }

  /** The drain reaches a listed group whose retry is not due. */
  ghost predicate DrainsIntoBackoff(c: Limits, s: QueueState, now: int) {
    exists j :: Reached(c, s, j) && Backoff(Group(s, j), now)
  }

  /** A finish starts messages of its own group in backoff, or drains into one. */
  ghost predicate FinishesIntoBackoff(c: Limits, s: QueueState, j: string, now: int) {
    && !s.shuttingDown && !HasTasks(s, j)
    && if HasMessages(s, j) then Backoff(Group(s, j), now) else DrainsIntoBackoff(c, s, now)
  }

  /** The same, before the event, from the queue and the clock alone. */
  ghost predicate SkipsBackoff(c: Limits, s: QueueState, e: Event) {
    match e
    case MessagesDone(run, success, now) => FinishesIntoBackoff(c, EndedMessages(s, run, success, now), run.jid, now)
    case TaskDone(t, now) => FinishesIntoBackoff(c, EndedTask(s, t), t.jid, now)
    case RecoveryEnds(now) => DrainsIntoBackoff(c, s.(recoveryMode := false), now)
    case _ => false
  }

  lemma DrainBackoff(c: Limits, s: QueueState, now: int)
    requires FreshRuns(s)
    ensures InBackoff(s, DrainWaiting(c, s), now) <==> DrainsIntoBackoff(c, s, now)
  {
    hide DrainWaiting, Reached;
    var r := DrainWaiting(c, s);
    forall j
      ensures Runs(r, j, s.issued) && Backoff(Group(r, j), now) <==> Reached(c, s, j) && Backoff(Group(s, j), now)
    {
      DrainStarts(c, s, j, s.issued);
      DrainKeepsTimes(c, s, j);
    }
  }

  lemma StartBackoff(s: QueueState, j: string, now: int)
    requires FreshRuns(s)
    ensures InBackoff(s, StartMessages(s, j), now) <==> Backoff(Group(s, j), now)
    ensures HasTasks(s, j) ==> !InBackoff(s, StartQueuedTask(s, j), now)
    ensures !InBackoff(s, s, now)
  {
    var r := StartMessages(s, j);
    assert Group(r, j).retryScheduledAt == Group(s, j).retryScheduledAt;
    assert r.liveMessages == s.liveMessages + multiset{MessageRun(j, s.issued)};
    assert MessageRun(j, s.issued) in r.liveMessages;
    hide StartMessages;
    assert forall k :: Runs(r, k, s.issued) <==> k == j;
  }

  lemma FinishBackoff(c: Limits, s: QueueState, j: string, now: int)
    requires FreshRuns(s)
    ensures InBackoff(s, DrainGroup(c, s, j), now) <==> FinishesIntoBackoff(c, s, j, now)
  {
    StartBackoff(s, j, now);
    DrainBackoff(c, s, now);
    hide StartMessages, StartQueuedTask, DrainWaiting, InBackoff, DrainsIntoBackoff, FreshRuns;
  }

  lemma CheckBackoff(c: Limits, s: QueueState, j: string, ipcDir: Option<string>, now: int)
    requires FreshRuns(s)
    ensures !InBackoff(s, EnqueueMessageCheck(c, s, j, ipcDir, now), now)
  {
    var g := AdoptIpcDir(Group(s, j), ipcDir);
    var p := Put(s, j, g);
    assert Group(p, j) == g && FreshRuns(p);
    StartBackoff(p, j, now);
    hide StartMessages, Waiting;
    var r := EnqueueMessageCheck(c, s, j, ipcDir, now);
    if r != StartMessages(p, j) {
      assert r.liveMessages == s.liveMessages by { WaitingKeepsRuns(Put(s, j, g.(pendingMessages := true)), j); }
    }
  }

  lemma WaitingKeepsRuns(s: QueueState, j: string)
    ensures Waiting(s, j).liveMessages == s.liveMessages
  {
  }

  /** Backoff is skipped by finishes and by the end of recovery, exactly when
      they come upon messages of a group whose retry is not due. */
  lemma BackoffCondition(c: Limits, s: QueueState, e: Event)
    requires Enabled(s, e) && FreshRuns(s)
    ensures StartsInBackoff(c, s, e) <==> SkipsBackoff(c, s, e)
  {
    hide DrainGroup, DrainWaiting, EnqueueMessageCheck, EnqueueTask, RetryRec, FinishesIntoBackoff;
    match e
    case MessagesDone(run, success, now) =>
      var ended := EndedMessages(s, run, success, now);
      FinishBackoff(c, ended, run.jid, now);
    case TaskDone(t, now) =>
      FinishBackoff(c, EndedTask(s, t), t.jid, now);
    case RecoveryEnds(now) =>
      var open := s.(recoveryMode := false, recoveryTimers := s.recoveryTimers - 1);
      DrainBackoff(c, open, now);
      SameList(c, open, s.(recoveryMode := false), now);
    case EnqueueMessagesEvent(j, ipcDir, now) => CheckBackoff(c, s, j, ipcDir, now);
    case RetryTimer(j, now) => CheckBackoff(c, Disarmed(s, j), j, None, now);
    case EnqueueTaskEvent(j, id) =>
      EnqueueTaskRuns(c, s, j, id);
      NoNewRuns(s, Next(c, s, e), Clock(e));
    case _ => NoNewRuns(s, Next(c, s, e), Clock(e));
  }

  lemma NoNewRuns(s: QueueState, r: QueueState, now: int)
    requires FreshRuns(s) && r.liveMessages == s.liveMessages
    ensures !InBackoff(s, r, now)
  {
  }

  lemma EnqueueTaskRuns(c: Limits, s: QueueState, j: string, id: string)
    ensures EnqueueTask(c, s, j, id).liveMessages == s.liveMessages
  {
    hide Known;
  }

  lemma SameList(c: Limits, s: QueueState, r: QueueState, now: int)
    requires r.waiting == s.waiting && r.groups == s.groups
    requires r.activeCount == s.activeCount && r.recoveryMode == s.recoveryMode
    ensures DrainsIntoBackoff(c, s, now) <==> DrainsIntoBackoff(c, r, now)
  {
    forall i | 0 <= i <= |s.waiting| ensures MessageGroups(s, i) == MessageGroups(r, i) {}
    forall j, i ensures ReachedAt(c, s, j, i) <==> ReachedAt(c, r, j, i) {}
    forall j ensures Reached(c, s, j) <==> Reached(c, r, j) {
      if i :| ReachedAt(c, s, j, i) { assert ReachedAt(c, r, j, i); }
      if i :| ReachedAt(c, r, j, i) { assert ReachedAt(c, s, j, i); }
    }
  }

  /** A message run leaves its group in backoff when it failed and retries are
      left. */
  lemma OwnBackoff(s: QueueState, run: MessageRun, success: bool, now: int)
    ensures Backoff(Group(EndedMessages(s, run, success, now), run.jid), now) <==>
            !success && Group(s, run.jid).retryCount < MAX_RETRIES
  {
    assert Group(EndedMessages(s, run, success, now), run.jid).retryScheduledAt ==
           if success then None else RetryRec(Group(s, run.jid), now).retryScheduledAt;
    assert Pow2(Group(s, run.jid).retryCount) >= 1;
  }

  lemma {:induction false} FreshRunsThroughout(c: Limits, trace: seq<QueueState>, events: seq<Event>, i: nat)
    requires Execution(c, trace, events) && i < |trace|
    ensures FreshRuns(trace[i])
  {
    FreshRunsClosed();
    Always(c, trace, events, i, FreshRuns);
  }

  // ----- three histories -----

  const OneAgent := Limits(1, 1)

  /** A first run of `b`, live; `b` after it failed at 0. */
  const FirstRun := MessageRun("b", 0)
  const Running := Initial.(
    groups := map["b" := RunningMessagesRec(FreshGroup, 0)],
    activeCount := 1, liveMessages := multiset{FirstRun}, issued := 1)
  const Due := FreshGroup.(retryCount := 1, retryTimer := true, retryScheduledAt := Some(5000))

  lemma RunningReached(c: Limits)
    requires c.Valid()
    ensures Reachable(c, Running)
  {
    ReachableInitially(c);
    var r := EnqueueMessageCheck(c, Initial, "b", None, 0);
    assert r.groups == Running.groups;
    assert Leads(c, Initial, EnqueueMessagesEvent("b", None, 0), Running);
    hide *;
    ReachableNext(c, Initial, EnqueueMessagesEvent("b", None, 0), Running);
  }

  /** `b` gets messages while its run is under way, and the run fails. */
  lemma OwnGroupSkipsBackoff() returns (c: Limits, s: QueueState, e: Event)
    ensures Reachable(c, s) && Enabled(s, e) && StartsInBackoff(c, s, e)
    ensures e.MessagesDone? && HasMessages(s, e.run.jid)
  {
    c, e := OneAgent, MessagesDone(FirstRun, false, 0);
    RunningReached(c);
    s := Running.(groups := map["b" := RunningMessagesRec(FreshGroup, 0).(pendingMessages := true)]);
    assert EnqueueMessageCheck(c, Running, "b", None, 0).groups == s.groups;
    assert Leads(c, Running, EnqueueMessagesEvent("b", None, 0), s);
    assert Group(s, "b") == s.groups["b"];
    OwnBackoff(s, FirstRun, false, 0);
    assert FinishesIntoBackoff(c, EndedMessages(s, FirstRun, false, 0), "b", 0);
    BackoffCondition(c, s, e);
    hide Leads, StartsInBackoff;
    ReachableNext(c, Running, EnqueueMessagesEvent("b", None, 0), s);
  }

  /** `b` has failed, `a` runs. */
  const OtherRun := MessageRun("a", 1)
  const OtherRunning := Initial.(
    groups := map["b" := Due, "a" := RunningMessagesRec(FreshGroup, 1)],
    activeCount := 1, liveMessages := multiset{OtherRun}, issued := 2)

  lemma OtherRunningReached(c: Limits)
    requires c.Valid()
    ensures Reachable(c, OtherRunning)
  {
    RunningReached(c);
    var failed := Initial.(groups := map["b" := Due], issued := 1);
    FailedIs(c, failed);
    assert EnqueueMessageCheck(c, failed, "a", None, 1).groups == OtherRunning.groups;
    assert Leads(c, failed, EnqueueMessagesEvent("a", None, 1), OtherRunning);
    hide *;
    ReachableNext(c, Running, MessagesDone(FirstRun, false, 0), failed);
    ReachableNext(c, failed, EnqueueMessagesEvent("a", None, 1), OtherRunning);
  }

  lemma FailedIs(c: Limits, failed: QueueState)
    requires failed == Initial.(groups := map["b" := Due], issued := 1)
    ensures Leads(c, Running, MessagesDone(FirstRun, false, 0), failed)
  {
    assert FirstRun in Running.liveMessages;
    var ended := EndedMessages(Running, FirstRun, false, 0);
    assert Pow2(0) == 1;
    assert Group(Running, "b") == RunningMessagesRec(FreshGroup, 0);
    assert RetryRec(RunningMessagesRec(FreshGroup, 0), 0).Reset() == Due;
    assert ended.groups == failed.groups;
    assert ended.liveMessages == multiset{};
    assert ended == failed;
    assert DrainGroup(c, failed, "b") == failed;
  }

  const Task := QueuedTask("t", 2)

  /** .. `b` has messages behind its backoff and a task that lists it. */
  function Listed(s: QueueState): QueueState {
    s.(groups := map["b" := Due.(pendingMessages := true, pendingTasks := [Task]),
                  "a" := RunningMessagesRec(FreshGroup, 1)],
       waiting := ["b"], accepted := {TaskRun("b", Task)}, issued := 3)
  }

  lemma ListedReached(c: Limits, s: QueueState)
    requires Reachable(c, s) && s == OtherRunning.(recoveryMode := s.recoveryMode, recoveryTimers := s.recoveryTimers)
    requires EffectiveMax(c, s) == 1
    ensures Reachable(c, Listed(s))
  {
    var marked := s.(groups := s.groups["b" := Due.(pendingMessages := true)]);
    assert EnqueueMessageCheck(c, s, "b", None, 2) == marked;
    assert Leads(c, s, EnqueueMessagesEvent("b", None, 2), marked);
    var r := EnqueueTask(c, marked, "b", "t");
    assert [] + [Task] == [Task];
    assert r.groups == Listed(s).groups;
    assert Leads(c, marked, EnqueueTaskEvent("b", "t"), Listed(s));
    hide *;
    ReachableNext(c, s, EnqueueMessagesEvent("b", None, 2), marked);
    ReachableNext(c, marked, EnqueueTaskEvent("b", "t"), Listed(s));
  }

  lemma ListedIsDue(c: Limits, s: QueueState)
    requires s.waiting == ["b"] && Group(s, "b") == Due.(pendingMessages := true, pendingTasks := [Task])
    requires s.activeCount < EffectiveMax(c, s)
    ensures DrainsIntoBackoff(c, s, 3)
  {
    assert MessageGroups(s, 0) == {};
    assert ReachedAt(c, s, "b", 0);
    assert Reached(c, s, "b") && Backoff(Group(s, "b"), 3);
  }

  /** The run of `a` ends at 3: the drain starts `b`, due at 5000. */
  lemma DrainSkipsBackoff() returns (c: Limits, s: QueueState, e: Event)
    ensures Reachable(c, s) && Enabled(s, e) && StartsInBackoff(c, s, e)
    ensures e.MessagesDone? && !HasMessages(s, e.run.jid)
  {
    c, s, e := OneAgent, Listed(OtherRunning), MessagesDone(OtherRun, true, 3);
    OtherRunningReached(c);
    ListedReached(c, OtherRunning);
    var ended := EndedMessages(s, OtherRun, true, 3);
    assert Group(ended, "b") == Group(s, "b") == s.groups["b"] && Group(s, "a") == s.groups["a"];
    ListedIsDue(c, ended);
    assert FinishesIntoBackoff(c, ended, "a", 3);
    assert OtherRun in s.liveMessages;
    BackoffCondition(c, s, e);
    hide StartsInBackoff;
  }

  /** Recovery ends at 3, while `a` still runs: the same. */
  lemma RecoverySkipsBackoff() returns (c: Limits, s: QueueState, e: Event)
    ensures Reachable(c, s) && Enabled(s, e) && StartsInBackoff(c, s, e)
    ensures e.RecoveryEnds?
  {
    c, e := Limits(2, 1), RecoveryEnds(3);
    OtherRunningReached(c);
    var recovering := OtherRunning.(recoveryMode := true, recoveryTimers := 1);
    assert Leads(c, OtherRunning, RecoveryStarts, recovering);
    s := Listed(recovering);
    ListedIsDue(c, s.(recoveryMode := false));
    assert SkipsBackoff(c, s, e);
    BackoffCondition(c, s, e);
    hide Leads, StartsInBackoff;
    ReachableNext(c, OtherRunning, RecoveryStarts, recovering);
    ListedReached(c, recovering);
  }
}
