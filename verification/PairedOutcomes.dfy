/** What the end of each role's run comes to, told from its verdict, the tree and
    the counters; and what it means that a step changed nothing. */
module PairedOutcomes {
  import opened Common
  import opened PairedTaskStatus
  import opened PairedSignals
  import opened PairedHandlers
  import opened PairedTurns
  import opened PairedProtocol
  import opened PairedHistories

  /** The worktree has the tree on record; without a hash on record it is not compared. */
  predicate TreeUnchanged(row: Row, e: RunEnd) {
    e.workspace && e.readable && row.sourceRef in {Some(Head), Some(Tree(e.head))}
  }

  predicate TreeChanged(row: Row, e: RunEnd) {
    e.workspace && e.readable && row.sourceRef.Some? && row.sourceRef.value.Tree? && row.sourceRef.value.hash != e.head
  }

  /** To the arbiter, or to the human when there is none. */
  predicate GivenUp(cfg: Config, row: Row) {
    if cfg.arbiterEnabled then row.status == ArbiterRequested
    else row.status == Completed && row.completionReason == Some(Escalated)
  }

  predicate EmptyStep(row: Row, e: RunEnd) {
    e.verdict == StepDone && TreeUnchanged(row, e)
  }

  predicate OwnerCompletes(row: Row, e: RunEnd) {
    e.succeeded && !e.repairNeeded && row.status in {Active, MergeReady} && row.completionReason.None?
  }

  // ----- the owner -----

  /** The turn of an active task is given up exactly when its verdict is stuck or
      it is the second empty step in a row; else it goes to review exactly below the
      round-trip limit and with a worktree. */
  lemma OwnerTurnEnds(cfg: Config, row: Row, e: RunEnd)
    requires OwnerCompletes(row, e) && row.status == Active
    ensures var after := Finished(cfg, row, Owner, e).row;
            var stuck := e.verdict in {Blocked, NeedsContext};
            var givenUp := stuck || (EmptyStep(row, e) && row.emptyStreak + 1 >= 2);
            var reviewed := !givenUp && e.workspace
                            && (cfg.maxRoundTrips.Some? ==> row.roundTrips < cfg.maxRoundTrips.value);
            && (GivenUp(cfg, after) <==> givenUp)
            && (after.status == ReviewReady <==> reviewed)
            && (after.status == Active <==> !givenUp && !reviewed)
            && after.roundTrips == row.roundTrips + (if reviewed then 1 else 0)
            && after.stepDoneStreak == (if e.verdict == StepDone then row.stepDoneStreak + 1 else 0)
            && (EmptyStep(row, e) ==> after.emptyStreak == row.emptyStreak + 1)
            && (e.verdict == StepDone && !TreeUnchanged(row, e) ==> after.emptyStreak == 0)
            && (e.verdict != StepDone && reviewed ==> after.emptyStreak == 0)
            && after.ownerFailures == (if givenUp || reviewed then 0 else row.ownerFailures)
            && after.sourceRef == row.sourceRef && after.finalizeStepDone == row.finalizeStepDone
  {
  }

  /** The turn after an approval is given up exactly when it is stuck, raises concerns
      or has changes at the deadlock threshold, or is the second empty step; it is done
      exactly with a finishing verdict and no change; else it is reviewed again. */
  lemma FinalTurnEnds(cfg: Config, row: Row, e: RunEnd)
    requires OwnerCompletes(row, e) && row.status == MergeReady
    ensures var after := Finished(cfg, row, Owner, e).row;
            var stuck := e.verdict in {Blocked, NeedsContext};
            var again := e.verdict == DoneWithConcerns
                         || (e.verdict in {TaskDone, DoneVerdict, Continue} && TreeChanged(row, e));
            var givenUp := || stuck || (again && row.roundTrips >= cfg.deadlockThreshold)
                           || (EmptyStep(row, e) && row.emptyStreak + 1 >= 2);
            var done := e.verdict in {TaskDone, DoneVerdict, Continue} && !TreeChanged(row, e);
            var reviewed := !givenUp && !done && e.workspace
                            && (cfg.maxRoundTrips.Some? ==> row.roundTrips < cfg.maxRoundTrips.value);
            && (GivenUp(cfg, after) <==> givenUp)
            && (after.status == Completed && after.completionReason == Some(Done) <==> done)
            && (after.status == ReviewReady <==> reviewed)
            && (after.status == Active <==> !givenUp && !done && !reviewed)
            && after.roundTrips == row.roundTrips + (if reviewed then 1 else 0)
            && (EmptyStep(row, e) ==> after.emptyStreak == row.emptyStreak + 1)
            && (!EmptyStep(row, e) ==> after.emptyStreak == 0)
            && after.finalizeStepDone == row.finalizeStepDone + (if e.verdict == StepDone then 1 else 0)
            && after.ownerFailures == 0 && after.stepDoneStreak == 0 && after.sourceRef == row.sourceRef
  {
  }

  /** A failed owner's run goes back to active once, and is given up the second time
      in a row. */
  lemma FailedOwnerTurn(cfg: Config, row: Row, e: RunEnd)
    requires row.status in {Active, MergeReady} && (!e.succeeded || e.repairNeeded) && row.completionReason.None?
    ensures var after := Finished(cfg, row, Owner, e).row;
            && (GivenUp(cfg, after) <==> row.ownerFailures + 1 >= 2)
            && (after.status == Active <==> row.ownerFailures + 1 < 2)
            && after.ownerFailures == row.ownerFailures + 1
            && after.roundTrips == row.roundTrips && after.emptyStreak == row.emptyStreak
            && after.stepDoneStreak == row.stepDoneStreak && after.sourceRef == row.sourceRef
  {
  }

  // ----- the others -----

  predicate SameCounters(a: Row, b: Row) {
    && a.roundTrips == b.roundTrips && a.ownerFailures == b.ownerFailures
    && a.stepDoneStreak == b.stepDoneStreak && a.emptyStreak == b.emptyStreak
    && a.finalizeStepDone == b.finalizeStepDone
  }

  /** A review that succeeds approves, gives up or sends back. */
  lemma ReviewEnds(cfg: Config, row: Row, e: RunEnd)
    requires row.status == InReview && e.succeeded && row.completionReason.None?
    ensures var after := Finished(cfg, row, Reviewer, e).row;
            var approves := e.verdict in {TaskDone, DoneVerdict};
            var givenUp := !approves
                           && (e.verdict in {Blocked, NeedsContext} || row.roundTrips >= cfg.deadlockThreshold);
            && (after.status == MergeReady <==> approves)
            && (GivenUp(cfg, after) <==> givenUp)
            && (after.status == Active <==> !approves && !givenUp)
            && after.sourceRef == (if approves && e.workspace then Some(if e.readable then Tree(e.head) else Head)
                                   else row.sourceRef)
            && SameCounters(after, row)
  {
  }

  /** One that fails counts only if it said something decisive: it approves, or asks
      the human; else review waits again. */
  lemma FailedReviewEnds(cfg: Config, row: Row, e: RunEnd)
    requires row.status in {ReviewReady, InReview} && !e.succeeded && row.completionReason.None?
    ensures var effect := Finished(cfg, row, Reviewer, e);
            var after := effect.row;
            var approves := e.hasText && e.verdict in {TaskDone, DoneVerdict};
            var stuck := e.hasText && e.verdict in {Blocked, NeedsContext};
            && (effect.raised <==> approves && row.status == ReviewReady)
            && (after.status == MergeReady <==> approves && row.status == InReview)
            && (after.status == Completed && after.completionReason == Some(Escalated) <==> stuck)
            && (!stuck && !(approves && row.status == InReview) ==> after.status == ReviewReady)
            && (after.status == MergeReady && e.workspace ==>
                  after.sourceRef == Some(if e.readable then Tree(e.head) else Head))
            && (after.status != MergeReady ==> after.sourceRef == row.sourceRef)
            && SameCounters(after, row)
  {
  }

  /** The arbiter closes the task or lets work go on one round below the threshold. */
  lemma ArbitrationEnds(cfg: Config, row: Row, e: RunEnd)
    requires row.status in {ArbiterRequested, InArbitration} && row.completionReason.None?
    ensures var after := Finished(cfg, row, Arbiter, e).row;
            && !Finished(cfg, row, Arbiter, e).raised
            && (after.status == Completed && after.completionReason == Some(ArbiterEscalated) <==>
                e.succeeded && e.judgement == Escalate)
            && (after.status == Active <==> e.succeeded && e.judgement != Escalate)
            && (after.status == ArbiterRequested <==> !e.succeeded)
            && (e.succeeded ==> after.arbiterVerdict == Some(e.judgement))
            && after.roundTrips == (if after.status != Active then row.roundTrips
                                    else if cfg.deadlockThreshold > 1 then cfg.deadlockThreshold - 1 else 0)
            && after.emptyStreak == row.emptyStreak && after.stepDoneStreak == row.stepDoneStreak
            && after.ownerFailures == row.ownerFailures && after.sourceRef == row.sourceRef
  {
  }

  /** Whatever the end of a run changes, it stamps with its own time. */
  lemma EndStamps(cfg: Config, row: Row, role: Role, e: RunEnd)
    ensures var after := Finished(cfg, row, role, e).row;
            after == row || after.updatedAt == e.now
    ensures row.status == Completed ==> Finished(cfg, row, role, e).row == row
  {
  }

  /** A run that could not start counts as failed and as having said nothing. */
  lemma BlockedTurnEnds(cfg: Config, room: Room, t: Turn)
    requires IsBlocked(t.role, t.w) && room.Open() && !(t.human && t.role == Owner)
    ensures var (after, _) := AfterTurn(cfg, room, t);
            && after.lastRole == room.lastRole
            && after.task.value.status
               == match t.role
                  case Owner =>
                    var failures := room.task.value.ownerFailures + 1;
                    if failures < 2 && CanMove(OwnerFinds(room, t).status, Active) then Active
                    else if failures >= 2 && CanMove(OwnerFinds(room, t).status,
                                                     if cfg.arbiterEnabled then ArbiterRequested else Completed)
                    then if cfg.arbiterEnabled then ArbiterRequested else Completed
                    else OwnerFinds(room, t).status
                  case Reviewer =>
                    if room.task.value.status == InReview then ReviewReady else room.task.value.status
                  case Arbiter =>
                    if room.task.value.status == InArbitration then ArbiterRequested else room.task.value.status
  {
  }

  // ----- tasks start and stop -----

  /** A human is answered by the arbiter exactly while it is in charge, else by the owner. */
  lemma HumanGoesTo(room: Room)
    ensures HumanRole(room) == Arbiter <==>
            room.task.Some? && room.task.value.status in {ArbiterRequested, InArbitration}
    ensures HumanRole(room) in {Owner, Arbiter}
  {
  }

  /** A new task is active with the project's tree on record and nothing counted; it
      is started exactly for a human, in a room without an open task or, by the owner,
      with one that waits to be finalized, which is then closed as superseded. */
  lemma TaskStarts(room: Room, role: Role, human: bool, w: Surroundings)
    ensures var after := Ensured(room, role, human, w);
            var supersedes := room.Open() && role == Owner && room.task.value.status == MergeReady;
            if !human || (room.Open() && !supersedes) then after == room
            else
              && after.Open() && after.task.value.status == Active
              && after.task.value.sourceRef == Some(w.canonicalRef) && after.task.value.updatedAt == w.createdAt
              && after.task.value.arbiterVerdict.None? && after.task.value.completionReason.None?
              && after.lastRole == (if supersedes && w.carriesForward then Some(Owner) else None)
              && if room.task.None? then after.past == room.past
                 else && |after.past| == |room.past| + 1 && after.past[..|room.past|] == room.past
                      && var closed := after.past[|room.past|];
                         if supersedes
                         then && closed.status == Completed && closed.completionReason == Some(Superseded)
                              && closed.updatedAt == w.now && closed.sourceRef == room.task.value.sourceRef
                              && closed.arbiterVerdict == room.task.value.arbiterVerdict
                              && SameCounters(closed, room.task.value)
                         else closed == room.task.value
  {
  }

  /** Stopping closes what is open, and changes no other column. */
  lemma StopCloses(room: Room, now: int)
    ensures var after := AfterStop(room, now);
            && !after.Open() && (!room.Open() ==> after == room)
            && after.lastRole == room.lastRole && after.past == room.past
            && (room.Open() ==>
                  && after.task.value.completionReason == Some(Stopped) && after.task.value.updatedAt == now
                  && after.task.value.sourceRef == room.task.value.sourceRef
                  && after.task.value.arbiterVerdict == room.task.value.arbiterVerdict
                  && SameCounters(after.task.value, room.task.value))
  {
  }

  // ----- two steps on an unchanged tree -----

  /** The turn is an owner's that ends well. */
  predicate OwnerEndsWell(e: Event) {
    e.Plays? && e.turn.role == Owner && !IsBlocked(Owner, e.turn.w) && e.turn.end.succeeded && !e.turn.end.repairNeeded
  }

  /** The row an owner's turn has prepared. */
  function OwnerFinds(room: Room, t: Turn): Row
    requires room.Open()
  {
    OwnerPrepared(room.task.value, t.human, t.w)
  }

  /** No human in it; the verdict is a step, and the worktree has the tree on record. */
  predicate StepsInVain(room: Room, e: Event) {
    && OwnerEndsWell(e) && !e.turn.human && room.Open()
    && EmptyStep(OwnerFinds(room, e.turn), e.turn.end)
  }

  /** Only a human or an owner's turn that ends well touches the count of empty steps. */
  lemma EmptyStreakKept(cfg: Config, room: Room, e: Event)
    requires (e.Plays? ==> Chosen(room, e.turn)) && !NewEpoch(room, e) && !OwnerEndsWell(e)
    requires room.Open() ==> room.task.value.completionReason.None?
    ensures After(cfg, room, e).Open() && room.Open() ==>
              After(cfg, room, e).task.value.emptyStreak == room.task.value.emptyStreak
    ensures After(cfg, room, e).Open() ==> room.Open()
  {
    if e.Plays? && room.Open() {
      var t := e.turn;
      PreparedStatus(room, t);
      var prepared := Prepared(room, t.role, t.human, t.w).value.task.value;
      hide Finished, OwnerPrepared, ReviewPrepared, ArbiterPrepared;
      PreparedKeeps(room, t);
      EndKeepsEmpty(cfg, prepared, t);
    }
  }

  lemma PreparedKeeps(room: Room, t: Turn)
    requires room.Open() && !(t.human && t.role == Owner)
    ensures var prepared := Prepared(room, t.role, t.human, t.w);
            && prepared.Some? && prepared.value.Open()
            && prepared.value.task.value.emptyStreak == room.task.value.emptyStreak
            && prepared.value.task.value.completionReason == room.task.value.completionReason
  {
  }

  lemma EndKeepsEmpty(cfg: Config, row: Row, t: Turn)
    requires t.role == Owner ==> row.status in {Active, MergeReady} && !OwnerEndsWell(Plays(t))
    requires row.completionReason.None?
    ensures Finished(cfg, row, t.role, EndOf(t)).row.emptyStreak == row.emptyStreak
  {
    match t.role
    case Owner => FailedOwnerTurn(cfg, row, EndOf(t));
    case Reviewer =>
    case Arbiter =>
  }

  /** A step in vain leaves the count at one more, and at two gives the task up. */
  lemma InVain(cfg: Config, room: Room, e: Event)
    requires e.Plays? && Chosen(room, e.turn) && StepsInVain(room, e) && room.task.value.completionReason.None?
    ensures var after := After(cfg, room, e).task.value;
            && after.emptyStreak == room.task.value.emptyStreak + 1
            && (room.task.value.emptyStreak + 1 >= 2 <==> GivenUp(cfg, after))
  {
    var t := e.turn;
    PreparedStatus(room, t);
    var row := OwnerFinds(room, t);
    assert Prepared(room, Owner, false, t.w) == Some(room.(task := Some(row)));
    assert row.emptyStreak == room.task.value.emptyStreak && OwnerCompletes(row, t.end);
    hide Finished, EmptyStep, OwnerPrepared;
    if row.status == Active { OwnerTurnEnds(cfg, row, t.end); } else { FinalTurnEnds(cfg, row, t.end); }
  }

  /** Between events `i` and `k` no human has spoken to the owner and no owner's turn
      has ended well. */
  ghost predicate NothingBetween(rooms: seq<Room>, events: seq<Event>, i: nat, k: nat)
    requires i < k <= |events| < |rooms|
  {
    forall m :: i < m < k ==> !NewEpoch(rooms[m], events[m]) && !OwnerEndsWell(events[m])
  }

  lemma {:induction false} StillCounted(cfg: Config, rooms: seq<Room>, events: seq<Event>, i: nat, k: nat)
    requires History(cfg, rooms, events) && i < k <= |events| && StepsInVain(rooms[i], events[i])
    requires NothingBetween(rooms, events, i, k)
    ensures rooms[k].Open() ==> rooms[k].task.value.emptyStreak >= 1
    decreases k
  {
    hide After, StepsInVain, NewEpoch, OwnerEndsWell, OwnerFinds;
    if k == i + 1 {
      IsOpen(rooms[i], events[i]);
      OpenMeansUndone(cfg, rooms, events, i);
      InVain(cfg, rooms[i], events[i]);
    } else {
      StillCounted(cfg, rooms, events, i, k - 1);
      if rooms[k - 1].Open() { OpenMeansUndone(cfg, rooms, events, k - 1); }
      EmptyStreakKept(cfg, rooms[k - 1], events[k - 1]);
    }
  }

  lemma IsOpen(room: Room, e: Event)
    requires StepsInVain(room, e)
    ensures room.Open() && e.Plays?
  {
  }

  /** Two steps in a row on an unchanged tree, whatever reviewer and arbiter say in
      between and however often the owner fails: the task is given up. */
  lemma TwoInVain(cfg: Config, rooms: seq<Room>, events: seq<Event>, i: nat, k: nat)
    requires History(cfg, rooms, events) && i < k < |events|
    requires StepsInVain(rooms[i], events[i]) && StepsInVain(rooms[k], events[k])
    requires NothingBetween(rooms, events, i, k)
    ensures GivenUp(cfg, rooms[k + 1].task.value)
  {
    StillCounted(cfg, rooms, events, i, k);
    OpenMeansUndone(cfg, rooms, events, k);
    hide StepsInVain;
    IsOpen(rooms[k], events[k]);
    InVain(cfg, rooms[k], events[k]);
    hide After;
  }

  /** A step that has changed the tree is not given up. */
  lemma ChangedStepGoesOn(cfg: Config, room: Room, e: Event)
    requires e.Plays? && Chosen(room, e.turn) && OwnerEndsWell(e) && !e.turn.human && room.Open()
    requires room.task.value.completionReason.None?
    requires e.turn.end.verdict == StepDone && TreeChanged(OwnerFinds(room, e.turn), e.turn.end)
    ensures var after := After(cfg, room, e).task.value;
            !GivenUp(cfg, after) && after.status in {Active, ReviewReady} && after.emptyStreak == 0
  {
    var t := e.turn;
    PreparedStatus(room, t);
    var row := OwnerFinds(room, t);
    assert Prepared(room, Owner, false, t.w) == Some(room.(task := Some(row)));
    assert OwnerCompletes(row, t.end) && !EmptyStep(row, t.end) && !TreeUnchanged(row, t.end);
    hide Finished, OwnerPrepared;
    if row.status == Active { OwnerTurnEnds(cfg, row, t.end); } else { FinalTurnEnds(cfg, row, t.end); }
  }
}
