/** Claims about whole histories of a room: what an approval is worth, and how
    often work is sent back. */
module PairedHistories {
  import opened Common
  import opened PairedTaskStatus
  import opened PairedSignals
  import opened PairedHandlers
  import opened PairedTurns
  import opened PairedProtocol

  datatype Event = Plays(turn: Turn) | StopCommand(now: int)

  function After(cfg: Config, room: Room, e: Event): Room {
    match e
    case Plays(t) => AfterTurn(cfg, room, t).0
    case StopCommand(now) => AfterStop(room, now)
  }

  ghost predicate History(cfg: Config, rooms: seq<Room>, events: seq<Event>) {
    && |rooms| == |events| + 1
    && rooms[0] == Room(None, None, [])
    && forall i :: 0 <= i < |events| ==>
         (events[i].Plays? ==> Chosen(rooms[i], events[i].turn)) && rooms[i + 1] == After(cfg, rooms[i], events[i])
  }

  // ----- approved means finalized -----

  /** The tree the reviewer approved last, if git could be asked. */
  ghost function Approved(rooms: seq<Room>, events: seq<Event>, i: nat): Option<nat>
    requires i < |rooms| == |events| + 1
  {
    if i == 0 then None
    else if IsApproval(rooms, events, i - 1) then
      var e := events[i - 1].turn.end;
      if e.workspace && e.readable then Some(e.head) else None
    else Approved(rooms, events, i - 1)
  }

  /** Event `i` is a reviewer's turn that lets the owner finalize. */
  ghost predicate IsApproval(rooms: seq<Room>, events: seq<Event>, i: nat)
    requires i < |events| && |rooms| == |events| + 1
  {
    && events[i].Plays? && events[i].turn.role == Reviewer
    && rooms[i + 1].Open() && rooms[i + 1].task.value.status == MergeReady
  }

  /** The recorded tree is the approved one. */
  ghost predicate Recorded(room: Room, approved: Option<nat>) {
    room.Open() && room.task.value.status == MergeReady && approved.Some? ==>
      room.task.value.sourceRef == Some(Tree(approved.value))
  }

  /** Nothing but the next approval touches the recorded tree. */
  lemma {:induction false} ApprovalIsKept(cfg: Config, rooms: seq<Room>, events: seq<Event>, i: nat)
    requires History(cfg, rooms, events) && i < |rooms|
    ensures Recorded(rooms[i], Approved(rooms, events, i))
  {
    if i > 0 {
      ApprovalIsKept(cfg, rooms, events, i - 1);
      assert rooms[i] == After(cfg, rooms[i - 1], events[i - 1]);
      RecordedKept(cfg, rooms[i - 1], events[i - 1], Approved(rooms, events, i - 1));
      hide After, Recorded;
    }
  }

  lemma RecordedKept(cfg: Config, room: Room, e: Event, approved: Option<nat>)
    requires e.Plays? ==> Chosen(room, e.turn)
    requires Recorded(room, approved)
    ensures var after := After(cfg, room, e);
            Recorded(after, if e.Plays? && e.turn.role == Reviewer
                        && after.Open() && after.task.value.status == MergeReady
                            then if e.turn.end.workspace && e.turn.end.readable then Some(e.turn.end.head) else None
                            else approved)
  {
    var after := After(cfg, room, e);
    if after.Open() && after.task.value.status == MergeReady { OnlyReviewersApprove(cfg, room, e); }
    hide After;
  }

  lemma OnlyReviewersApprove(cfg: Config, room: Room, e: Event)
    requires e.Plays? ==> Chosen(room, e.turn)
    requires After(cfg, room, e).Open() && After(cfg, room, e).task.value.status == MergeReady
    ensures e.Plays?
    ensures if e.turn.role == Reviewer then
              After(cfg, room, e).task.value.sourceRef == ApprovedRef(room.task.value, e.turn.end)
            else room.Open() && room.task.value == After(cfg, room, e).task.value
  {
    if e.Plays? {
      var t := e.turn;
      PreparedStatus(room, t);
      hide Finished;
      var prepared := Prepared(room, t.role, t.human, t.w);
      if prepared.Some? { EndApproves(cfg, prepared.value.task.value, t.role, EndOf(t)); }
    }
  }

  lemma EndApproves(cfg: Config, row: Row, role: Role, e: RunEnd)
    requires Finished(cfg, row, role, e).row.status == MergeReady
    ensures if role == Reviewer && row.status != MergeReady
            then Finished(cfg, row, role, e).row.sourceRef == ApprovedRef(row, e)
                 && (e.succeeded || e.hasText) && Approves(e.verdict)
            else role == Reviewer || Finished(cfg, row, role, e).row == row
  {
    match role
    case Owner =>
    case Reviewer =>
    case Arbiter =>
  }

  /** When the owner's last turn closes the task as done. */
  lemma FinalizesExactly(cfg: Config, room: Room, t: Turn)
    requires Chosen(room, t) && room.Open() && room.task.value.status == MergeReady
    ensures AfterTurn(cfg, room, t).0.task.value.completionReason == Some(Done) &&
            AfterTurn(cfg, room, t).0.task.value.status == Completed <==>
            && !t.human && t.w.provisioned && t.end.succeeded && !t.end.repairNeeded
            && t.end.verdict in {TaskDone, DoneVerdict, Continue}
            && Report(room.task.value, t.end).changed != Some(true)
  {
    PreparedStatus(room, t);
  }

  /** Only then is a task ever done. */
  lemma DoneOnlyByFinalizing(cfg: Config, room: Room, t: Turn)
    requires Chosen(room, t) && room.Open() && room.task.value.completionReason != Some(Done)
    requires AfterTurn(cfg, room, t).0.task.value.status == Completed
    requires AfterTurn(cfg, room, t).0.task.value.completionReason == Some(Done)
    ensures t.role == Owner && room.task.value.status == MergeReady
  {
    PreparedStatus(room, t);
    match t.role
    case Owner => DoneByOwner(cfg, room, t);
    case Reviewer =>
    case Arbiter =>
  }

  lemma DoneByOwner(cfg: Config, room: Room, t: Turn)
    requires Chosen(room, t) && t.role == Owner && room.Open() && room.task.value.completionReason != Some(Done)
    requires AfterTurn(cfg, room, t).0.task.value.status == Completed
    requires AfterTurn(cfg, room, t).0.task.value.completionReason == Some(Done)
    ensures room.task.value.status == MergeReady
  {
    PreparedStatus(room, t);
  }

  /** Open tasks have no completion reason. */
  lemma {:induction false} OpenMeansUndone(cfg: Config, rooms: seq<Room>, events: seq<Event>, i: nat)
    requires History(cfg, rooms, events) && i < |rooms| && rooms[i].Open()
    ensures rooms[i].task.value.completionReason.None?
  {
    if i > 0 {
      hide After;
      if rooms[i - 1].Open() { OpenMeansUndone(cfg, rooms, events, i - 1); }
      StaysUndone(cfg, rooms[i - 1], events[i - 1]);
    }
  }

  lemma EndKeepsUndone(cfg: Config, row: Row, role: Role, e: RunEnd)
    requires row.completionReason.None?
    ensures var after := Finished(cfg, row, role, e).row;
            after.completionReason.Some? ==> after.status == Completed
  {
    match role
    case Owner =>
    case Reviewer =>
    case Arbiter =>
  }

  lemma StaysUndone(cfg: Config, room: Room, e: Event)
    requires room.Open() ==> room.task.value.completionReason.None?
    ensures After(cfg, room, e).Open() ==> After(cfg, room, e).task.value.completionReason.None?
  {
    hide Finished;
    if e.Plays? {
      var t := e.turn;
      var prepared := Prepared(room, t.role, t.human, t.w);
      if prepared.Some? { EndKeepsUndone(cfg, prepared.value.task.value, t.role, EndOf(t)); }
    }
  }

  /** Approved means finalized: a task that a turn completes as done has, in the
      owner's worktree, the tree the reviewer approved last, git permitting. */
  lemma ApprovedMeansFinalized(cfg: Config, rooms: seq<Room>, events: seq<Event>, i: nat)
    requires History(cfg, rooms, events) && i < |events| && events[i].Plays? && rooms[i].Open()
    requires rooms[i + 1].task.value.status == Completed && rooms[i + 1].task.value.completionReason == Some(Done)
    requires events[i].turn.end.workspace && events[i].turn.end.readable && Approved(rooms, events, i).Some?
    ensures events[i].turn.end.head == Approved(rooms, events, i).value
  {
    var t := events[i].turn;
    OpenMeansUndone(cfg, rooms, events, i);
    DoneOnlyByFinalizing(cfg, rooms[i], t);
    ApprovalIsKept(cfg, rooms, events, i);
    FinalizesExactly(cfg, rooms[i], t);
  }

  /** Another tree than the approved one passes exactly when git cannot be asked. */
  lemma OtherTreePasses(cfg: Config, room: Room, t: Turn, approved: nat)
    requires Chosen(room, t) && room.Open() && room.task.value.status == MergeReady && !t.human
    requires room.task.value.sourceRef == Some(Tree(approved)) && t.end.head != approved
    requires t.w.provisioned && t.end.succeeded && !t.end.repairNeeded && Approves(t.end.verdict)
    ensures var row := AfterTurn(cfg, room, t).0.task.value;
            row.status == Completed && row.completionReason == Some(Done) <==> !(t.end.workspace && t.end.readable)
  {
    FinalizesExactly(cfg, room, t);
  }

  // ----- deadlock accounting -----

  /** A human takes the word: the owner's counters start again. */
  predicate NewEpoch(room: Room, e: Event) {
    e.Plays? && e.turn.human && e.turn.role == Owner
  }

  /** The reviewer sends work back to the owner. */
  predicate SendsBack(cfg: Config, room: Room, e: Event) {
    && e.Plays? && e.turn.role == Reviewer && room.Open()
    && After(cfg, room, e).Open() && After(cfg, room, e).task.value.status == Active
  }

  /** The arbiter lets the work go on. */
  predicate Resumes(cfg: Config, room: Room, e: Event) {
    && e.Plays? && e.turn.role == Arbiter && room.Open()
    && After(cfg, room, e).Open() && After(cfg, room, e).task.value.status == Active
  }

  /** Send-backs since a human last spoke to the owner. */
  ghost function SentBack(cfg: Config, rooms: seq<Room>, events: seq<Event>, i: nat): nat
    requires i <= |events| && |rooms| == |events| + 1
  {
    if i == 0 || NewEpoch(rooms[i - 1], events[i - 1]) then 0
    else SentBack(cfg, rooms, events, i - 1) + if SendsBack(cfg, rooms[i - 1], events[i - 1]) then 1 else 0
  }

  /** Has the arbiter resumed work since then? */
  ghost predicate WasResumed(cfg: Config, rooms: seq<Room>, events: seq<Event>, i: nat)
    requires i <= |events| && |rooms| == |events| + 1
  {
    i > 0 && !NewEpoch(rooms[i - 1], events[i - 1]) &&
    (Resumes(cfg, rooms[i - 1], events[i - 1]) || WasResumed(cfg, rooms, events, i - 1))
  }

  /** What the round-trip counter knows about the epoch. */
  predicate Accounted(cfg: Config, room: Room, sentBack: nat, resumed: bool) {
    && sentBack <= cfg.Resumed()
    && (room.Open() ==>
          var row := room.task.value;
          && sentBack <= row.roundTrips
          && (UnderReview(row.status) ==> sentBack < row.roundTrips)
          && (resumed ==> row.roundTrips >= cfg.Resumed())
          && (resumed && UnderReview(row.status) ==> row.roundTrips >= cfg.deadlockThreshold))
  }

  lemma AccountKept(cfg: Config, room: Room, e: Event, sentBack: nat, resumed: bool)
    requires Accounted(cfg, room, sentBack, resumed)
    requires e.Plays? ==> Chosen(room, e.turn)
    ensures Accounted(cfg, After(cfg, room, e),
                      if NewEpoch(room, e) then 0 else sentBack + if SendsBack(cfg, room, e) then 1 else 0,
                      !NewEpoch(room, e) && (Resumes(cfg, room, e) || resumed))
  {
    if e.Plays? {
      if e.turn.role == Owner { OwnerAccount(cfg, room, e, sentBack, resumed); }
      else if e.turn.role == Reviewer { ReviewerAccount(cfg, room, e, sentBack, resumed); }
      else { ArbiterAccount(cfg, room, e, sentBack, resumed); }
    }
  }

  lemma ReviewerAccount(cfg: Config, room: Room, e: Event, sentBack: nat, resumed: bool)
    requires Accounted(cfg, room, sentBack, resumed)
    requires e.Plays? && Chosen(room, e.turn) && e.turn.role == Reviewer
    ensures Accounted(cfg, After(cfg, room, e), sentBack + if SendsBack(cfg, room, e) then 1 else 0, resumed)
  {
    PreparedStatus(room, e.turn);
  }

  lemma ArbiterAccount(cfg: Config, room: Room, e: Event, sentBack: nat, resumed: bool)
    requires Accounted(cfg, room, sentBack, resumed)
    requires e.Plays? && Chosen(room, e.turn) && e.turn.role == Arbiter
    ensures Accounted(cfg, After(cfg, room, e), sentBack, Resumes(cfg, room, e) || resumed)
  {
    PreparedStatus(room, e.turn);
  }

  /** Into review only by using up a round trip. */
  lemma OwnerCounts(cfg: Config, row: Row, e: RunEnd)
    requires row.status in {Active, MergeReady}
    ensures var after := Finished(cfg, row, Owner, e).row;
            !UnderReview(after.status) ==> after.roundTrips == row.roundTrips
    ensures var after := Finished(cfg, row, Owner, e).row;
            UnderReview(after.status) ==> after.roundTrips == row.roundTrips + 1
  {
  }

  lemma OwnerAccount(cfg: Config, room: Room, e: Event, sentBack: nat, resumed: bool)
    requires Accounted(cfg, room, sentBack, resumed)
    requires e.Plays? && Chosen(room, e.turn) && e.turn.role == Owner
    ensures Accounted(cfg, After(cfg, room, e), if e.turn.human then 0 else sentBack, !e.turn.human && resumed)
  {
    hide Finished;
    PreparedStatus(room, e.turn);
    var prepared := Prepared(room, Owner, e.turn.human, e.turn.w);
    if prepared.Some? { OwnerCounts(cfg, prepared.value.task.value, EndOf(e.turn)); }
  }

  lemma {:induction false} AccountedThroughout(cfg: Config, rooms: seq<Room>, events: seq<Event>, i: nat)
    requires History(cfg, rooms, events) && i < |rooms|
    ensures Accounted(cfg, rooms[i], SentBack(cfg, rooms, events, i), WasResumed(cfg, rooms, events, i))
  {
    if i > 0 {
      hide After, Accounted, NewEpoch, SendsBack, Resumes;
      AccountedThroughout(cfg, rooms, events, i - 1);
      AccountKept(cfg, rooms[i - 1], events[i - 1],
                  SentBack(cfg, rooms, events, i - 1), WasResumed(cfg, rooms, events, i - 1));
    }
  }

  /** Between two human messages the reviewer sends work back fewer times than
      the threshold; then the arbiter, or the human, is called. */
  lemma SendBacksAreBounded(cfg: Config, rooms: seq<Room>, events: seq<Event>, i: nat)
    requires History(cfg, rooms, events) && i < |rooms|
    ensures SentBack(cfg, rooms, events, i) <= Max(0, cfg.deadlockThreshold - 1)
  {
    AccountedThroughout(cfg, rooms, events, i);
  }

  lemma ReviewRefers(cfg: Config, row: Row, e: RunEnd)
    requires row.status == InReview && e.succeeded && !Approves(e.verdict) && row.roundTrips >= cfg.deadlockThreshold
    ensures Finished(cfg, row, Reviewer, e).row == Referred(cfg.arbiterEnabled, row.(updatedAt := e.now))
  {
  }

  /** Once the arbiter has resumed work, the next review that does not approve
      goes straight back to the arbiter, until a human speaks. */
  lemma ResumedGoesBackToArbiter(cfg: Config, rooms: seq<Room>, events: seq<Event>, i: nat)
    requires History(cfg, rooms, events) && i < |events| && WasResumed(cfg, rooms, events, i)
    requires events[i].Plays? && events[i].turn.role == Reviewer && rooms[i].Open()
    requires events[i].turn.w.reviewable && events[i].turn.end.succeeded && !Approves(events[i].turn.end.verdict)
    ensures var row := rooms[i + 1].task.value;
            if cfg.arbiterEnabled then row.status == ArbiterRequested
            else row.status == Completed && row.completionReason == Some(Escalated)
  {
    AccountedThroughout(cfg, rooms, events, i);
    var t := events[i].turn;
    assert rooms[i + 1] == After(cfg, rooms[i], events[i]);
    PreparedStatus(rooms[i], t);
    hide Finished, WasResumed, SentBack;
    ReviewRefers(cfg, Prepared(rooms[i], Reviewer, t.human, t.w).value.task.value, t.end);
  }
}
