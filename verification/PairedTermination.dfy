/** How long the bots can go on among themselves. */
module PairedTermination {
  import opened Common
  import opened PairedTaskStatus
  import opened PairedSignals
  import opened PairedHandlers
  import opened PairedTurns
  import opened PairedProtocol

  predicate InArbiterHands(room: Room) {
    room.Open() && room.task.value.status in {ArbiterRequested, InArbitration}
  }

  function TripsLeft(cfg: Config, row: Row): nat
    requires cfg.maxRoundTrips.Some?
  {
    Max(0, cfg.maxRoundTrips.value - row.roundTrips)
  }

  /** An upper bound on the turns to come. With `failures` owner runs may fail. */
  function TurnsLeft(cfg: Config, room: Room, failures: bool): nat
    requires cfg.maxRoundTrips.Some?
  {
    if !room.Open() || NextRole(room.task.value.status, room.lastRole).None? then 0
    else
      var row := room.task.value;
      var trips := TripsLeft(cfg, row);
      if UnderReview(row.status) then if failures then 3 * trips + 3 else 2 * trips + 2
      else if failures then 3 * trips + 2 - Min(1, row.ownerFailures)
      else 2 * trips + 1
  }

  /** A bot turn: reviewers always succeed, owners unless `failures` is set. */
  predicate BotTurn(room: Room, t: Turn, failures: bool) {
    && Chosen(room, t) && !t.human
    && (Unhindered(t) || (failures && t.role == Owner && (t.end.succeeded ==> t.end.recorded)))
  }

  /** Without an arbiter every bot turn uses up some of what is left. */
  lemma TurnsRunOut(cfg: Config, room: Room, t: Turn, failures: bool)
    requires !cfg.arbiterEnabled && cfg.maxRoundTrips.Some?
    requires !InArbiterHands(room) && BotTurn(room, t, failures)
    ensures var after := AfterTurn(cfg, room, t).0;
            !InArbiterHands(after) && TurnsLeft(cfg, after, failures) < TurnsLeft(cfg, room, failures)
  {
    PreparedStatus(room, t);
    if t.role == Owner { OwnerTurnShortens(cfg, room, t, failures); }
  }

  /** Where an owner's run can leave the task when there is no arbiter. */
  lemma OwnerLeaves(cfg: Config, row: Row, e: RunEnd)
    requires !cfg.arbiterEnabled && row.status in {Active, MergeReady}
    ensures var after := Finished(cfg, row, Owner, e).row;
            match after.status
            case Completed => true
            case ReviewReady => e.succeeded && !cfg.AtLimit(row.roundTrips) && after.roundTrips == row.roundTrips + 1
            case Active =>
              && after.roundTrips == row.roundTrips
              && (!e.succeeded || e.repairNeeded ==> row.ownerFailures == 0 && after.ownerFailures == 1)
            case _ => false
  {
  }

  lemma OwnerTurnShortens(cfg: Config, room: Room, t: Turn, failures: bool)
    requires !cfg.arbiterEnabled && cfg.maxRoundTrips.Some?
    requires BotTurn(room, t, failures) && t.role == Owner
    ensures var after := AfterTurn(cfg, room, t).0;
            !InArbiterHands(after) && TurnsLeft(cfg, after, failures) < TurnsLeft(cfg, room, failures)
  {
    PreparedStatus(room, t);
    hide Finished;
    OwnerLeaves(cfg, Prepared(room, Owner, false, t.w).value.task.value, EndOf(t));
  }

  /** Bot turns one after the other. */
  ghost predicate PingPong(cfg: Config, rooms: seq<Room>, turns: seq<Turn>, failures: bool) {
    && |rooms| == |turns| + 1
    && forall i :: 0 <= i < |turns| ==>
         BotTurn(rooms[i], turns[i], failures) && rooms[i + 1] == AfterTurn(cfg, rooms[i], turns[i]).0
  }

  lemma {:induction false} PingPongLength(cfg: Config, rooms: seq<Room>, turns: seq<Turn>, failures: bool)
    requires !cfg.arbiterEnabled && cfg.maxRoundTrips.Some?
    requires PingPong(cfg, rooms, turns, failures) && !InArbiterHands(rooms[0])
    ensures |turns| <= TurnsLeft(cfg, rooms[0], failures)
  {
    if turns != [] {
      TurnsRunOut(cfg, rooms[0], turns[0], failures);
      PingPongLength(cfg, rooms[1..], turns[1..], failures);
    }
  }

  /** Autonomous ping-pong ends: in numbers. */
  lemma PingPongEnds(cfg: Config, rooms: seq<Room>, turns: seq<Turn>)
    requires !cfg.arbiterEnabled && cfg.maxRoundTrips.Some? && |rooms| > 0
    requires !InArbiterHands(rooms[0]) && rooms[0].Open()
    ensures PingPong(cfg, rooms, turns, false) ==> |turns| <= 2 * TripsLeft(cfg, rooms[0].task.value) + 2
    ensures PingPong(cfg, rooms, turns, true) ==> |turns| <= 3 * TripsLeft(cfg, rooms[0].task.value) + 3
  {
    if PingPong(cfg, rooms, turns, false) { PingPongLength(cfg, rooms, turns, false); }
    if PingPong(cfg, rooms, turns, true) { PingPongLength(cfg, rooms, turns, true); }
  }

  // ----- the bounds are reached -----

  const Anywhere := Surroundings(true, true, Head, Head, false, 0, 0)
  const Unfinished := RunEnd(true, true, true, Continue, Unknown, false, true, 0, true, 0, 0)

  /** A successful turn that settles nothing: the reviewer approves, the owner
      takes one more step, the arbiter tells them to go on. */
  function Steps(role: Role): Turn {
    Turn(false, role, Anywhere,
         Unfinished.(verdict := if role == Reviewer then TaskDone else StepDone,
                       judgement := Proceed, readable := false))
  }

  /** An owner run that fails without a word. */
  const Fails := Turn(false, Owner, Anywhere, Unfinished.(succeeded := false, recorded := false))

  predicate Undecided(room: Room) {
    && room.Open() && room.lastRole != Some(Reviewer)
    && room.task.value.status == ReviewReady
  }

  /** An approval, and a last turn that asks for another review after all: one
      round trip, or the end when they are used up. */
  lemma ApprovedInVain(cfg: Config, room: Room) returns (approved: Room, again: Room)
    requires Undecided(room)
    ensures BotTurn(room, Steps(Reviewer), false) && approved == AfterTurn(cfg, room, Steps(Reviewer)).0
    ensures BotTurn(approved, Steps(Owner), false) && again == AfterTurn(cfg, approved, Steps(Owner)).0
    ensures !cfg.AtLimit(room.task.value.roundTrips) ==>
              Undecided(again) && again.task.value.roundTrips == room.task.value.roundTrips + 1
  {
    approved := AfterTurn(cfg, room, Steps(Reviewer)).0;
    assert approved.task.value.status == MergeReady;
    again := AfterTurn(cfg, approved, Steps(Owner)).0;
  }

  /** 2 * trips left + 2, whatever the deadlock threshold. */
  lemma {:induction false} BoundIsReached(cfg: Config, room: Room) returns (rooms: seq<Room>, turns: seq<Turn>)
    requires Undecided(room) && cfg.maxRoundTrips.Some?
    ensures PingPong(cfg, rooms, turns, false) && rooms[0] == room
    ensures |turns| == 2 * TripsLeft(cfg, room.task.value) + 2
    decreases TripsLeft(cfg, room.task.value)
  {
    hide AfterTurn, BotTurn;
    var approved, again := ApprovedInVain(cfg, room);
    if cfg.AtLimit(room.task.value.roundTrips) {
      rooms, turns := [room, approved, again], [Steps(Reviewer), Steps(Owner)];
    } else {
      var rest, moves := BoundIsReached(cfg, again);
      rooms, turns := [room, approved] + rest, [Steps(Reviewer), Steps(Owner)] + moves;
    }
  }

  /** The same with a failed owner run in every round. */
  lemma FailedInVain(cfg: Config, room: Room) returns (approved: Room, failed: Room, again: Room)
    requires Undecided(room) && room.task.value.ownerFailures == 0
    ensures BotTurn(room, Steps(Reviewer), true) && approved == AfterTurn(cfg, room, Steps(Reviewer)).0
    ensures BotTurn(approved, Fails, true) && failed == AfterTurn(cfg, approved, Fails).0
    ensures BotTurn(failed, Steps(Owner), true) && again == AfterTurn(cfg, failed, Steps(Owner)).0
    ensures !cfg.AtLimit(room.task.value.roundTrips) ==>
              && Undecided(again) && again.task.value.ownerFailures == 0
              && again.task.value.roundTrips == room.task.value.roundTrips + 1
  {
    approved := AfterTurn(cfg, room, Steps(Reviewer)).0;
    assert approved.task.value.status == MergeReady;
    failed := AfterTurn(cfg, approved, Fails).0;
    assert failed.task.value.status == Active && failed.lastRole == Some(Reviewer);
    again := AfterTurn(cfg, failed, Steps(Owner)).0;
  }

  /** 3 * trips left + 3. */
  lemma {:induction false} FailureBoundIsReached(cfg: Config, room: Room) returns (rooms: seq<Room>, turns: seq<Turn>)
    requires Undecided(room) && room.task.value.ownerFailures == 0 && cfg.maxRoundTrips.Some?
    ensures PingPong(cfg, rooms, turns, true) && rooms[0] == room
    ensures |turns| == 3 * TripsLeft(cfg, room.task.value) + 3
    decreases TripsLeft(cfg, room.task.value)
  {
    hide AfterTurn, BotTurn;
    var approved, failed, again := FailedInVain(cfg, room);
    if cfg.AtLimit(room.task.value.roundTrips) {
      rooms, turns := [room, approved, failed, again], [Steps(Reviewer), Fails, Steps(Owner)];
    } else {
      var rest, moves := FailureBoundIsReached(cfg, again);
      rooms, turns := [room, approved, failed] + rest, [Steps(Reviewer), Fails, Steps(Owner)] + moves;
    }
  }

  // ----- when there is a bound at all -----

  /** Some bot turn is to come. */
  predicate HasNext(room: Room) {
    room.Open() && NextRole(room.task.value.status, room.lastRole).Some?
  }

  /** With an arbiter, who is stuck hands over to it; without a limit, one more
      step can always follow. */
  function GoesOn(cfg: Config, role: Role): Turn {
    if cfg.arbiterEnabled then Steps(role).(end := Steps(role).end.(verdict := Blocked)) else Steps(role)
  }

  lemma OneMoreTurn(cfg: Config, room: Room) returns (t: Turn)
    requires HasNext(room) && (cfg.arbiterEnabled || cfg.maxRoundTrips.None?)
    ensures BotTurn(room, t, false) && HasNext(AfterTurn(cfg, room, t).0)
  {
    var role := NextRole(room.task.value.status, room.lastRole).value;
    t := GoesOn(cfg, role);
    PreparedStatus(room, t);
  }

  lemma Prepended(cfg: Config, room: Room, t: Turn, rooms: seq<Room>, turns: seq<Turn>)
    requires BotTurn(room, t, false) && PingPong(cfg, rooms, turns, false) && rooms[0] == AfterTurn(cfg, room, t).0
    ensures PingPong(cfg, [room] + rooms, [t] + turns, false)
  {
    hide AfterTurn, BotTurn;
    forall i | 0 <= i < |[t] + turns|
      ensures BotTurn(([room] + rooms)[i], ([t] + turns)[i], false)
      ensures ([room] + rooms)[i + 1] == AfterTurn(cfg, ([room] + rooms)[i], ([t] + turns)[i]).0
    {
      if i > 0 { assert BotTurn(rooms[i - 1], turns[i - 1], false); }
    }
  }

  /** With an arbiter, or without a limit, runs of every length exist from every
      room in which a turn is to come. */
  lemma {:induction false} NoEnd(cfg: Config, room: Room, n: nat) returns (rooms: seq<Room>, turns: seq<Turn>)
    requires HasNext(room) && (cfg.arbiterEnabled || cfg.maxRoundTrips.None?)
    ensures PingPong(cfg, rooms, turns, false) && rooms[0] == room && |turns| == n
    decreases n
  {
    if n == 0 {
      rooms, turns := [room], [];
      assert PingPong(cfg, rooms, turns, false);
    } else {
      hide AfterTurn, BotTurn, PingPong;
      var t := OneMoreTurn(cfg, room);
      var rest, moves := NoEnd(cfg, AfterTurn(cfg, room, t).0, n - 1);
      Prepended(cfg, room, t, rest, moves);
      rooms, turns := [room] + rest, [t] + moves;
    }
  }

  /** No run from here is longer than `bound`. */
  ghost predicate EndsWithin(cfg: Config, room: Room, failures: bool, bound: nat) {
    forall rooms, turns :: PingPong(cfg, rooms, turns, failures) && rooms[0] == room ==> |turns| <= bound
  }

  lemma ArbiterLeaves(cfg: Config, room: Room, t: Turn, failures: bool)
    requires !cfg.arbiterEnabled && cfg.maxRoundTrips.Some? && InArbiterHands(room) && BotTurn(room, t, failures)
    ensures var after := AfterTurn(cfg, room, t).0;
            !InArbiterHands(after) && TurnsLeft(cfg, after, failures) <= 3 * Max(0, cfg.maxRoundTrips.value) + 3
  {
    PreparedStatus(room, t);
  }

  /** What the arbiter leaves when none is configured is bounded too. */
  lemma EndsAfterArbiter(cfg: Config, room: Room, failures: bool)
    requires !cfg.arbiterEnabled && cfg.maxRoundTrips.Some? && InArbiterHands(room)
    ensures EndsWithin(cfg, room, failures, 1 + 3 * Max(0, cfg.maxRoundTrips.value) + 3)
  {
    forall rooms, turns | PingPong(cfg, rooms, turns, failures) && rooms[0] == room
      ensures |turns| <= 1 + 3 * Max(0, cfg.maxRoundTrips.value) + 3
    {
      if turns != [] {
        ArbiterLeaves(cfg, room, turns[0], failures);
        hide AfterTurn, BotTurn;
        PingPongLength(cfg, rooms[1..], turns[1..], failures);
      }
    }
  }

  /** Autonomous ping-pong is bounded if and only if there is no arbiter and
      there is a limit; with or without failing owner runs. */
  lemma EndsExactly(cfg: Config, room: Room, failures: bool)
    requires HasNext(room)
    ensures (exists bound: nat :: EndsWithin(cfg, room, failures, bound)) <==>
            !cfg.arbiterEnabled && cfg.maxRoundTrips.Some?
  {
    if !cfg.arbiterEnabled && cfg.maxRoundTrips.Some? {
      if InArbiterHands(room) {
        EndsAfterArbiter(cfg, room, failures);
      } else {
        forall rooms, turns | PingPong(cfg, rooms, turns, failures) && rooms[0] == room
          ensures |turns| <= TurnsLeft(cfg, room, failures)
        {
          PingPongLength(cfg, rooms, turns, failures);
        }
        assert EndsWithin(cfg, room, failures, TurnsLeft(cfg, room, failures));
      }
    } else {
      forall bound: nat
        ensures !EndsWithin(cfg, room, failures, bound)
      {
        var rooms, turns := NoEnd(cfg, room, bound + 1);
        assert PingPong(cfg, rooms, turns, failures);
      }
    }
  }

  /** Up to the revision stamp. */
  predicate Same(a: Room, b: Room) {
    && a.task.Some? && b.task.Some?
    && a == b.(task := Some(b.task.value.(updatedAt := a.task.value.updatedAt)))
  }

  /** A reviewer run that fails silently leaves everything as it was, and is chosen again. */
  lemma FailingReviewersGoOn(cfg: Config, room: Room, t: Turn)
    requires Undecided(room) && t.role == Reviewer && !t.human && t.w.reviewable
    requires !t.end.succeeded && !t.end.recorded && !t.end.hasText
    ensures Chosen(room, t) && Same(AfterTurn(cfg, room, t).0, room)
    ensures Undecided(AfterTurn(cfg, room, t).0)
  {
  }
}
