/** What single turns of the owner / reviewer / arbiter protocol can and cannot do. */
module PairedProtocol {
  import opened Common
  import opened PairedTaskStatus
  import opened PairedSignals
  import opened PairedHandlers
  import opened PairedTurns

  /** The turn is one the dispatcher, or a human message, starts. */
  predicate Chosen(room: Room, t: Turn) {
    if t.human then t.role == HumanRole(room)
    else room.Open() && NextRole(room.task.value.status, room.lastRole) == Some(t.role)
  }

  // ----- the transition table -----

  /** When the end of a run throws, for a task in any state: the turn ran into
      a task that had moved on under it. */
  predicate Thrown(cfg: Config, row: Row, role: Role, e: RunEnd) {
    match role
    case Owner =>
      if e.succeeded && !e.repairNeeded then
        && row.status in {ArbiterRequested, InArbitration}
        && !Stuck(e.verdict) && NextEmpty(row, Report(row, e)) < EMPTY_STEP_DONE_THRESHOLD
        && !cfg.AtLimit(row.roundTrips) && e.workspace
      else row.status == ArbiterRequested && row.ownerFailures == 0
    case Reviewer =>
      if (e.succeeded || e.hasText) && Approves(e.verdict) then
        row.status !in {InReview, MergeReady, Completed}
      else
        && e.succeeded && !Stuck(e.verdict) && row.roundTrips < cfg.deadlockThreshold
        && row.status == ArbiterRequested
    case Arbiter => false
  }

  lemma ThrownExactly(cfg: Config, row: Row, role: Role, e: RunEnd)
    ensures Finished(cfg, row, role, e).raised <==> Thrown(cfg, row, role, e)
  {
    match role
    case Owner =>
    case Reviewer =>
    case Arbiter =>
  }

  /** No turn that is really chosen ever runs into that. */
  lemma ChosenTurnsNeverThrow(cfg: Config, room: Room, t: Turn)
    requires Chosen(room, t)
    ensures !AfterTurn(cfg, room, t).1
  {
    var prepared := Prepared(room, t.role, t.human, t.w);
    if prepared.Some? {
      PreparedStatus(room, t);
      ThrownExactly(cfg, prepared.value.task.value, t.role, EndOf(t));
    }
  }

  /** What state a chosen turn finds its task in when it ends. */
  lemma PreparedStatus(room: Room, t: Turn)
    requires Chosen(room, t) && Prepared(room, t.role, t.human, t.w).Some?
    ensures var status := Prepared(room, t.role, t.human, t.w).value.task.value.status;
            match t.role
            case Owner => status == Active || (status == MergeReady && !t.human)
            case Reviewer => status == if t.w.reviewable then InReview else room.task.value.status
            case Arbiter => status == if t.w.reviewable then InArbitration else room.task.value.status
    ensures t.role == Reviewer ==> room.Open() && UnderReview(room.task.value.status)
    ensures t.role == Arbiter ==> room.Open() && room.task.value.status in {ArbiterRequested, InArbitration}
  {
    match t.role
    case Owner =>
    case Reviewer =>
    case Arbiter =>
  }

  lemma EndsOnTable(cfg: Config, row: Row, role: Role, e: RunEnd)
    requires match role
             case Owner => row.status in {Active, MergeReady}
             case Reviewer => row.status in {ReviewReady, InReview}
             case Arbiter => if e.succeeded then row.status == InArbitration
                              else row.status in {ArbiterRequested, InArbitration}
    ensures var after := Finished(cfg, row, role, e).row;
            CanMove(row.status, after.status)
            || (role == Owner && row.status == MergeReady && after.status == ReviewReady)
  {
    match role
    case Owner =>
    case Reviewer =>
    case Arbiter =>
  }

  /** Preparing moves along one edge of the table, ending along one edge too,
      or along merge_ready, active, review_ready. */
  lemma TurnsStayOnTable(cfg: Config, room: Room, t: Turn)
    requires Chosen(room, t) && Prepared(room, t.role, t.human, t.w).Some?
    ensures var row := Ensured(room, t.role, t.human, t.w).task.value;
            var prepared := Prepared(room, t.role, t.human, t.w).value.task.value;
            var after := AfterTurn(cfg, room, t).0.task.value;
            && CanMove(row.status, prepared.status)
            && (CanMove(prepared.status, after.status) ||
                (t.role == Owner && prepared.status == MergeReady && after.status == ReviewReady))
  {
    PreparedStatus(room, t);
    hide Finished;
    EndsOnTable(cfg, Prepared(room, t.role, t.human, t.w).value.task.value, t.role, EndOf(t));
  }

  /** The arbiter's write claims to start from in_arbitration. On the table it
      stays only if the task is not merely waiting for the arbiter. */
  lemma ArbiterOnTable(cfg: Config, row: Row, v: ArbiterVerdict, now: int)
    requires row.status != Completed
    ensures CanMove(row.status, ArbiterCompleted(cfg, row, v, now).status) <==>
            v == Escalate || row.status != ArbiterRequested
  {
    match row.status
    case Active =>
    case ReviewReady =>
    case InReview =>
    case MergeReady =>
    case ArbiterRequested =>
    case InArbitration =>
  }

  // ----- the human -----

  /** Whatever bots had counted is forgotten, and an approval that was never
      finalized does not carry over to the new request. */
  lemma HumanStartsAfresh(room: Room, w: Surroundings)
    requires HumanRole(room) == Owner
    ensures Prepared(room, Owner, true, w).Some?
    ensures var row := Prepared(room, Owner, true, w).value.task.value;
            && row.status == Active && row.roundTrips == 0 && row.ownerFailures == 0
            && row.stepDoneStreak == 0 && row.emptyStreak == 0
    ensures var past := Prepared(room, Owner, true, w).value.past;
            if room.task.None? || (room.Open() && room.task.value.status != MergeReady) then past == room.past
            else
              && |past| == |room.past| + 1 && past[..|room.past|] == room.past
              && var closed := past[|room.past|];
                 && closed.status == Completed && closed.sourceRef == room.task.value.sourceRef
                 && (room.Open() ==> closed.completionReason == Some(Superseded))
  {
  }

  /** A task under way keeps the tree it was compared with when a human speaks,
      unless the two writes fall on one stamp. */
  lemma HumanKeepsOldRef(row: Row, w: Surroundings)
    requires row.status == Active && w.provisioned
    ensures OwnerPrepared(row, false, w).sourceRef == Some(w.workspaceRef)
    ensures OwnerPrepared(row, true, w).sourceRef == Some(w.workspaceRef) <==>
            row.sourceRef == Some(w.workspaceRef) || w.now == row.updatedAt
  {
  }

  // ----- handing over -----

  predicate Unhindered(t: Turn) {
    && !IsBlocked(t.role, t.w) && t.end.succeeded && t.end.recorded && !t.end.repairNeeded
  }

  /** What a successful run leaves, if the task is still open. */
  lemma Leaves(cfg: Config, row: Row, role: Role, e: RunEnd)
    requires e.succeeded && !e.repairNeeded
    requires row.status in match role
                           case Owner => {Active, MergeReady}
                           case Reviewer => {InReview}
                           case Arbiter => {InArbitration}
    ensures var after := Finished(cfg, row, role, e).row;
            match role
            case Owner =>
              && after.status in {Active, ReviewReady, ArbiterRequested, Completed}
              && (after.status == Active ==> cfg.AtLimit(after.roundTrips) || !e.workspace)
            case Reviewer => after.status in {Active, MergeReady, ArbiterRequested, Completed}
            case Arbiter => after.status in {Active, Completed}
  {
    match role
    case Owner =>
    case Reviewer =>
    case Arbiter =>
  }

  /** After a successful turn of an open task somebody is next, but for the
      owner who has used up the round trips (or has no worktree to show). */
  lemma HandsOver(cfg: Config, room: Room, t: Turn)
    requires Chosen(room, t) && Unhindered(t) && AfterTurn(cfg, room, t).0.Open()
    ensures var after := AfterTurn(cfg, room, t).0;
            NextRole(after.task.value.status, after.lastRole).None? <==>
            && t.role == Owner && after.task.value.status == Active
            && (cfg.AtLimit(after.task.value.roundTrips) || !t.end.workspace)
  {
    PreparedStatus(room, t);
    hide Finished;
    Leaves(cfg, Prepared(room, t.role, t.human, t.w).value.task.value, t.role, EndOf(t));
  }
}
