/** The object that watches over one paired run and issues its final effects:
    the stored output, the completion of the task, the end of the turn. */
module ExecutionLifecycle {
  import opened Common

  // ----- who owns the turn -----

  datatype TurnAttempt = TurnAttempt(running: bool, activeRunId: Option<nat>)

  datatype Ownership = Owns | Lost | Missing

  /** The last attempt of the turn decides. */
  function RunOwnership(attempts: seq<TurnAttempt>, runId: nat): Ownership {
    if attempts == [] then Missing
    else
      var last := attempts[|attempts| - 1];
      if last.running && last.activeRunId == Some(runId) then Owns else Lost
  }

  /** Once another run has taken the turn over, this one has lost it for as long
      as that attempt is the last. */
  lemma TakenOver(attempts: seq<TurnAttempt>, next: TurnAttempt, runId: nat)
    ensures RunOwnership(attempts + [next], runId) == Lost <==> !(next.running && next.activeRunId == Some(runId))
    ensures RunOwnership(attempts, runId) == Missing <==> attempts == []
  {
    assert (attempts + [next])[|attempts + [next]| - 1] == next;
  }

  // ----- effects -----

  datatype Effect =
    | Inserted(text: string)
    | Completed(succeeded: bool, summary: Option<string>, clean: bool)
    | TurnEnded(succeeded: bool)
    | LeaseReleased

  /** A completion can also fail before or after it has changed the task. */
  datatype Course = Clean | ThrowsBefore | ThrowsAfter

  datatype Mishaps = Mishaps(insertThrows: bool, completion: Course, turnThrows: bool)

  function Insertions(effects: seq<Effect>): seq<string> {
    if effects == [] then []
    else
      var rest := Insertions(effects[..|effects| - 1]);
      match effects[|effects| - 1]
      case Inserted(text) => rest + [text]
      case _ => rest
  }

  function Completions(effects: seq<Effect>): nat {
    if effects == [] then 0
    else Completions(effects[..|effects| - 1]) + if effects[|effects| - 1].Completed? then 1 else 0
  }

  function TurnEnds(effects: seq<Effect>): nat {
    if effects == [] then 0
    else TurnEnds(effects[..|effects| - 1]) + if effects[|effects| - 1].TurnEnded? then 1 else 0
  }

  lemma OneMore(effects: seq<Effect>, e: Effect)
    ensures Insertions(effects + [e]) == Insertions(effects) + if e.Inserted? then [e.text] else []
    ensures Completions(effects + [e]) == Completions(effects) + if e.Completed? then 1 else 0
    ensures TurnEnds(effects + [e]) == TurnEnds(effects) + if e.TurnEnded? then 1 else 0
  {
    assert (effects + [e])[..|effects|] == effects;
  }

  // ----- the object as a value -----

  const SUMMARY_LENGTH := 500
  const MissingVerdict := "Execution completed without a visible terminal verdict."

  function Cut(text: string): string {
    if |text| <= SUMMARY_LENGTH then text else text[..SUMMARY_LENGTH]
  }

  /** What is fixed for the run. */
  datatype Kind = Kind(isOwner: bool, hasContext: bool, hasTurn: bool, requiresVisibleVerdict: bool)

  /** No final output is the empty text; `effects` is what reached the database. */
  datatype Watch = Watch(
    succeeded: bool, summary: Option<string>, finalOutput: string, summaryLocked: bool, completed: bool,
    delegated: bool, sawOutput: bool, outputPersisted: bool, turnFinalized: bool, effects: seq<Effect>)
  {
    function With(e: Effect): Watch { this.(effects := effects + [e]) }
  }

  const New := Watch(false, None, "", false, false, false, false, false, false, [])

  /** The state afterwards, and whether an exception is passed on. */
  type Ended = (Watch, bool)

  function Persist(kind: Kind, w: Watch, insertThrows: bool): Ended {
    if !kind.hasContext || w.outputPersisted || w.finalOutput == "" then (w, false)
    else if insertThrows then (w, true)
    else (w.With(Inserted(w.finalOutput)).(outputPersisted := true), false)
  }

  /** `completePairedExecutionContext`, then the flag, unless it threw. */
  function Complete(w: Watch, status: bool, course: Course): Ended {
    match course
    case ThrowsBefore => (w, true)
    case ThrowsAfter => (w.With(Completed(status, w.summary, false)), true)
    case Clean => (w.With(Completed(status, w.summary, true)).(completed := true), false)
  }

  function EndTurn(kind: Kind, w: Watch, status: bool, throws: bool): Ended {
    if !kind.hasTurn || w.turnFinalized then (w, false)
    else if throws then (w, true)
    else (w.With(TurnEnded(status)).(turnFinalized := true), false)
  }

  function Lock(w: Watch, text: string): Watch {
    if text == "" then w
    else w.(finalOutput := if w.finalOutput == "" then text else w.finalOutput,
            summary := if w.summaryLocked then w.summary else Some(Cut(text)),
            summaryLocked := true, sawOutput := true)
  }

  function CompleteOwner(kind: Kind, w: Watch, m: Mishaps): Ended {
    if !kind.isOwner || !kind.hasContext || w.completed || w.finalOutput == "" then (w, false)
    else
      var (stored, threw) := Persist(kind, w.(succeeded := true, sawOutput := true), m.insertThrows);
      if threw then (stored, true) else Complete(stored, true, m.completion)
  }

  function Summarised(w: Watch, outputText: Option<string>, errorText: Option<string>): Watch {
    if w.summaryLocked then w
    else if outputText.Some? && outputText.value != "" then w.(summary := Some(Cut(outputText.value)))
    else if errorText.Some? && errorText.value != "" then w.(summary := Some(Cut(errorText.value)))
    else w
  }

  function Record(kind: Kind, w: Watch, text: string, m: Mishaps): Ended {
    var (done, threw) := CompleteOwner(kind, Lock(w, text), m);
    if threw then (done, true) else Persist(kind, done, m.insertThrows)
  }

  function CompleteNow(kind: Kind, w: Watch, status: bool, m: Mishaps): Ended {
    if !kind.hasContext || w.completed then (w, false)
    else
      var marked := w.(succeeded := status);
      var (stored, threw) := if status then Persist(kind, marked, m.insertThrows) else (marked, false);
      if threw then (stored, true) else Complete(stored, status, m.completion)
  }

  /** Complete what is not complete, then end the turn; a failed insertion is
      only logged here. */
  function Conclude(kind: Kind, w: Watch, status: bool, m: Mishaps): Ended {
    if kind.hasContext && !w.completed then
      var stored := if status then Persist(kind, w, m.insertThrows).0 else w;
      var (done, threw) := Complete(stored, status, m.completion);
      if threw then (done, true) else EndTurn(kind, done, status, m.turnThrows)
    else EndTurn(kind, w, status, m.turnThrows)
  }

  /** `direct`: what was delivered past the normal output. */
  function Adopted(kind: Kind, w: Watch, direct: string): Watch {
    var adopted :=
      if direct == "" then w
      else if w.finalOutput == "" then Lock(w, direct)
      else if !w.summaryLocked then w.(summary := Some(Cut(w.finalOutput)), summaryLocked := true)
      else w;
    if MissesVerdict(kind, adopted) then adopted.(summary := Some(MissingVerdict)) else adopted
  }

  predicate MissesVerdict(kind: Kind, w: Watch) {
    kind.requiresVisibleVerdict && w.finalOutput == ""
  }

  /** A run that succeeded counts as failed if it said nothing it had to say. */
  predicate EffectiveStatus(kind: Kind, w: Watch) {
    w.succeeded && !(kind.isOwner && !w.sawOutput) && !MissesVerdict(kind, w)
  }

  function Finalize(kind: Kind, w: Watch, direct: string, m: Mishaps): Ended {
    if kind.hasContext && w.delegated then (w.With(LeaseReleased).(completed := true), false)
    else
      var adopted := Adopted(kind, w, direct);
      Conclude(kind, adopted, EffectiveStatus(kind, adopted), m)
  }

  // ----- any sequence of calls -----

  /** `mayAct`: the run still owns its turn, or there is none to own. */
  datatype Call =
    | UpdateSummaryCall(outputText: Option<string>, errorText: Option<string>)
    | RecordCall(text: string, mayAct: bool, mishaps: Mishaps)
    | CompleteNowCall(status: bool, mishaps: Mishaps)
    | DelegatedCall
    | StatusCall(status: bool)
    | SawOutputCall(saw: bool)
    | FinalizeCall(direct: string, mayAct: bool, mishaps: Mishaps)

  function Play(kind: Kind, w: Watch, c: Call): Watch {
    match c
    case UpdateSummaryCall(outputText, errorText) => Summarised(w, outputText, errorText)
    case RecordCall(text, mayAct, m) => if mayAct then Record(kind, w, text, m).0 else w
    case CompleteNowCall(status, m) => CompleteNow(kind, w, status, m).0
    case DelegatedCall => w.(delegated := true)
    case StatusCall(status) => w.(succeeded := status)
    case SawOutputCall(saw) => w.(sawOutput := saw)
    case FinalizeCall(direct, mayAct, m) => if mayAct then Finalize(kind, w, direct, m).0 else w
  }

  ghost predicate History(kind: Kind, states: seq<Watch>, calls: seq<Call>) {
    && |states| == |calls| + 1 && states[0] == New
    && forall i :: 0 <= i < |calls| ==> states[i + 1] == Play(kind, states[i], calls[i])
  }

  /** At most one output, the first accepted final text, with its summary; at
      most one end of the turn. */
  ghost predicate Sound(w: Watch) {
    && (w.summaryLocked <==> w.finalOutput != "")
    && (w.summaryLocked ==> w.summary == Some(Cut(w.finalOutput)))
    && Insertions(w.effects) == (if w.outputPersisted then [w.finalOutput] else [])
    && (w.outputPersisted ==> w.finalOutput != "")
    && TurnEnds(w.effects) == (if w.turnFinalized then 1 else 0)
  }

  /** What an accepted text has fixed stays fixed, and effects are not undone. */
  ghost predicate Frozen(w: Watch, w': Watch) {
    && w.effects <= w'.effects
    && (w.finalOutput != "" ==> w'.finalOutput == w.finalOutput && w'.summary == w.summary)
    && (w.completed ==> w'.completed)
  }

  /** From one state to a later one with that many completions issued in between. */
  ghost predicate Follows(w: Watch, w': Watch, completions: nat) {
    && Sound(w') && Frozen(w, w')
    && Completions(w'.effects) == Completions(w.effects) + completions
  }

  lemma FollowsOn(a: Watch, b: Watch, c: Watch, m: nat, n: nat)
    requires Follows(a, b, m) && Follows(b, c, n)
    ensures Follows(a, c, m + n)
    ensures b.completed ==> c.completed
  {
    hide Insertions, Completions, TurnEnds, Sound;
  }

  /** Assigning to the two plain marks moves nothing else. */
  lemma MarksKeep(w: Watch, succeeded: bool, sawOutput: bool)
    requires Sound(w)
    ensures Follows(w, w.(succeeded := succeeded, sawOutput := sawOutput), 0)
  {
    hide Insertions, Completions, TurnEnds;
  }

  lemma LockKeeps(w: Watch, text: string)
    requires Sound(w)
    ensures var locked := Lock(w, text);
            && Follows(w, locked, 0) && locked.completed == w.completed
            && locked.outputPersisted == w.outputPersisted
            && (locked.finalOutput != "" <==> w.finalOutput != "" || text != "")
  {
    hide Insertions, Completions, TurnEnds;
  }

  lemma PersistKeeps(kind: Kind, w: Watch, insertThrows: bool)
    requires Sound(w)
    ensures var (w', threw) := Persist(kind, w, insertThrows);
            && Follows(w, w', 0) && w'.completed == w.completed
            && (threw <==> kind.hasContext && !w.outputPersisted && w.finalOutput != "" && insertThrows)
  {
    hide Insertions, Completions, TurnEnds;
    OneMore(w.effects, Inserted(w.finalOutput));
  }

  lemma CompleteKeeps(w: Watch, status: bool, course: Course)
    requires Sound(w)
    ensures var (w', threw) := Complete(w, status, course);
            && Follows(w, w', if course.ThrowsBefore? then 0 else 1)
            && (threw <==> !course.Clean?) && (course.Clean? ==> w'.completed)
  {
    hide Insertions, Completions, TurnEnds;
    OneMore(w.effects, Completed(status, w.summary, course.Clean?));
  }

  lemma EndTurnKeeps(kind: Kind, w: Watch, status: bool, throws: bool)
    requires Sound(w)
    ensures Follows(w, EndTurn(kind, w, status, throws).0, 0)
  {
    hide Insertions, Completions, TurnEnds;
    OneMore(w.effects, TurnEnded(status));
  }

  lemma AdoptedKeeps(kind: Kind, w: Watch, direct: string)
    requires Sound(w)
    ensures Follows(w, Adopted(kind, w, direct), 0) && Adopted(kind, w, direct).completed == w.completed
  {
    hide Insertions, Completions, TurnEnds;
  }

  lemma LeaseKeeps(w: Watch)
    requires Sound(w)
    ensures Follows(w, w.With(LeaseReleased).(completed := true), 0)
  {
    hide Insertions, Completions, TurnEnds;
    OneMore(w.effects, LeaseReleased);
  }

  /** The call reaches the task, as can be told before it. */
  predicate Issues(kind: Kind, w: Watch, c: Call) {
    && kind.hasContext && !w.completed
    && match c
       case RecordCall(text, mayAct, m) =>
         && mayAct && kind.isOwner && (w.finalOutput != "" || text != "")
         && (m.insertThrows ==> w.outputPersisted) && !m.completion.ThrowsBefore?
       case CompleteNowCall(status, m) =>
         && (status && m.insertThrows ==> w.outputPersisted || w.finalOutput == "") && !m.completion.ThrowsBefore?
       case FinalizeCall(_, mayAct, m) => mayAct && !w.delegated && !m.completion.ThrowsBefore?
       case _ => false
  }

  /** .. and throws when the task has been changed. */
  predicate ThrowsLate(kind: Kind, w: Watch, c: Call) {
    Issues(kind, w, c) && c.mishaps.completion.ThrowsAfter?
  }

  /** What a call does to completions, exactly; and what every call keeps. */
  ghost predicate Counts(kind: Kind, w: Watch, c: Call) {
    && Follows(w, Play(kind, w, c), if Issues(kind, w, c) then 1 else 0)
    && (Issues(kind, w, c) && !ThrowsLate(kind, w, c) ==> Play(kind, w, c).completed)
  }

  /** Store first if the run succeeded, then complete. */
  lemma StoredAndCompleted(kind: Kind, w: Watch, store: bool, m: Mishaps)
    requires Sound(w)
    ensures var (stored, threw) := if store then Persist(kind, w, m.insertThrows) else (w, false);
            var done := Complete(stored, store, m.completion).0;
            && Follows(w, stored, 0) && Follows(w, done, if m.completion.ThrowsBefore? then 0 else 1)
            && (m.completion.Clean? ==> done.completed)
  {
    hide Sound, Frozen, Persist, Complete, Completions, Follows;
    Unmoved(w);
    PersistKeeps(kind, w, m.insertThrows);
    var stored := if store then Persist(kind, w, m.insertThrows).0 else w;
    assert Follows(w, stored, 0);
    StillSound(w, stored, 0);
    CompleteKeeps(stored, store, m.completion);
    FollowsOn(w, stored, Complete(stored, store, m.completion).0, 0, if m.completion.ThrowsBefore? then 0 else 1);
  }

  lemma Unmoved(w: Watch)
    requires Sound(w)
    ensures Follows(w, w, 0)
  {
    hide Sound, Completions;
  }

  lemma StillSound(w: Watch, w': Watch, n: nat)
    requires Follows(w, w', n)
    ensures Sound(w') && (w.completed ==> w'.completed)
  {
    hide Sound, Completions;
  }

  lemma OwnerCounts(kind: Kind, w: Watch, m: Mishaps)
    requires Sound(w)
    ensures var w' := CompleteOwner(kind, w, m).0;
            var issues := && kind.hasContext && !w.completed && kind.isOwner && w.finalOutput != ""
                          && (m.insertThrows ==> w.outputPersisted) && !m.completion.ThrowsBefore?;
            && Follows(w, w', if issues then 1 else 0)
            && (issues && !m.completion.ThrowsAfter? ==> w'.completed)
  {
    hide Sound, Frozen, Persist, Complete, Completions, Follows;
    Unmoved(w);
    if kind.isOwner && kind.hasContext && !w.completed && w.finalOutput != "" {
      MarksKeep(w, true, true);
      var marked := w.(succeeded := true, sawOutput := true);
      StillSound(w, marked, 0);
      PersistKeeps(kind, marked, m.insertThrows);
      StoredAndCompleted(kind, marked, true, m);
      var stored := Persist(kind, marked, m.insertThrows).0;
      FollowsOn(w, marked, stored, 0, 0);
      FollowsOn(w, marked, Complete(stored, true, m.completion).0, 0, if m.completion.ThrowsBefore? then 0 else 1);
    }
  }

  lemma RecordCounts(kind: Kind, w: Watch, c: Call)
    requires Sound(w) && c.RecordCall?
    ensures Counts(kind, w, c)
  {
    hide Sound, Frozen, Persist, CompleteOwner, Lock, Completions, Follows;
    Unmoved(w);
    LockKeeps(w, c.text);
    var locked := Lock(w, c.text);
    StillSound(w, locked, 0);
    OwnerCounts(kind, locked, c.mishaps);
    var done := CompleteOwner(kind, locked, c.mishaps).0;
    var n := if Issues(kind, w, RecordCall(c.text, true, c.mishaps)) then 1 else 0;
    StillSound(locked, done, n);
    FollowsOn(w, locked, done, 0, n);
    PersistKeeps(kind, done, c.mishaps.insertThrows);
    FollowsOn(w, done, Persist(kind, done, c.mishaps.insertThrows).0, n, 0);
  }

  lemma CompleteNowCounts(kind: Kind, w: Watch, c: Call)
    requires Sound(w) && c.CompleteNowCall?
    ensures Counts(kind, w, c)
  {
    hide Sound, Frozen, Persist, Complete, Completions, Follows;
    Unmoved(w);
    MarksKeep(w, c.status, w.sawOutput);
    var marked := w.(succeeded := c.status);
    assert marked == w.(succeeded := c.status, sawOutput := w.sawOutput);
    StillSound(w, marked, 0);
    PersistKeeps(kind, marked, c.mishaps.insertThrows);
    StoredAndCompleted(kind, marked, c.status, c.mishaps);
    var stored := if c.status then Persist(kind, marked, c.mishaps.insertThrows).0 else marked;
    FollowsOn(w, marked, stored, 0, 0);
    FollowsOn(w, marked, Complete(stored, c.status, c.mishaps.completion).0, 0,
              if c.mishaps.completion.ThrowsBefore? then 0 else 1);
  }

  lemma ConcludeCounts(kind: Kind, w: Watch, status: bool, m: Mishaps)
    requires Sound(w)
    ensures var w' := Conclude(kind, w, status, m).0;
            var issues := kind.hasContext && !w.completed && !m.completion.ThrowsBefore?;
            && Follows(w, w', if issues then 1 else 0)
            && (issues && !m.completion.ThrowsAfter? ==> w'.completed)
  {
    hide Sound, Frozen, Persist, Complete, EndTurn, Completions, Follows;
    if kind.hasContext && !w.completed {
      StoredAndCompleted(kind, w, status, m);
      var stored := if status then Persist(kind, w, m.insertThrows).0 else w;
      StillSound(w, stored, 0);
      CompleteKeeps(stored, status, m.completion);
      var done := Complete(stored, status, m.completion).0;
      var n := if m.completion.ThrowsBefore? then 0 else 1;
      StillSound(w, done, n);
      EndTurnKeeps(kind, done, status, m.turnThrows);
      FollowsOn(w, done, EndTurn(kind, done, status, m.turnThrows).0, n, 0);
    } else {
      EndTurnKeeps(kind, w, status, m.turnThrows);
    }
  }

  lemma FinalizeCounts(kind: Kind, w: Watch, c: Call)
    requires Sound(w) && c.FinalizeCall?
    ensures Counts(kind, w, c)
  {
    hide Sound, Frozen, Conclude, Adopted, Completions, Follows;
    Unmoved(w);
    LeaseKeeps(w);
    AdoptedKeeps(kind, w, c.direct);
    var adopted := Adopted(kind, w, c.direct);
    StillSound(w, adopted, 0);
    var status := EffectiveStatus(kind, adopted);
    ConcludeCounts(kind, adopted, status, c.mishaps);
    var n := if Issues(kind, w, FinalizeCall(c.direct, true, c.mishaps)) then 1 else 0;
    if !(kind.hasContext && w.delegated) {
      FollowsOn(w, adopted, Conclude(kind, adopted, status, c.mishaps).0, 0, n);
    }
  }

  lemma PlainCounts(kind: Kind, w: Watch, c: Call)
    requires Sound(w) && !c.RecordCall? && !c.CompleteNowCall? && !c.FinalizeCall?
    ensures Counts(kind, w, c)
  {
    hide Insertions, Completions, TurnEnds;
  }

  /** Each call issues a completion if and only if the condition holds, keeps the
      stored output and the end of the turn unique, and an accepted text fixed. */
  lemma CallCounts(kind: Kind, w: Watch, c: Call)
    requires Sound(w)
    ensures Counts(kind, w, c)
  {
    hide Follows, Play, Issues, ThrowsLate;
    match c
    case RecordCall(_, _, _) => RecordCounts(kind, w, c);
    case CompleteNowCall(_, _) => CompleteNowCounts(kind, w, c);
    case FinalizeCall(_, _, _) => FinalizeCounts(kind, w, c);
    case _ => PlainCounts(kind, w, c);
  }

  /** What a completion has to report, from the state before: a final text makes an
      owner's run a success; a run is finalized as one only if it was marked so and
      said what it had to say. */
  predicate Success(kind: Kind, w: Watch, c: Call)
    requires Issues(kind, w, c)
  {
    match c
    case RecordCall(_, _, _) => true
    case CompleteNowCall(status, _) => status
    case FinalizeCall(direct, _, _) =>
      && w.succeeded
      && (kind.isOwner ==> w.sawOutput || (direct != "" && w.finalOutput == ""))
      && (kind.requiresVisibleVerdict ==> direct != "" || w.finalOutput != "")
  }

  /** What reaches the database between two states: the output if it was still to
      be stored, a completion, and the end of the turn if that was still to come. */
  ghost predicate Reports(w: Watch, w': Watch, success: bool, clean: bool) {
    w'.effects == w.effects + (if w'.outputPersisted && !w.outputPersisted then [Inserted(w'.finalOutput)] else [])
                  + [Completed(success, w'.summary, clean)]
                  + if w'.turnFinalized && !w.turnFinalized then [TurnEnded(success)] else []
  }

  lemma RecordReports(kind: Kind, w: Watch, c: Call)
    requires Sound(w) && Issues(kind, w, c) && c.RecordCall?
    ensures Reports(w, Play(kind, w, c), true, c.mishaps.completion.Clean?)
  {
    var locked := Lock(w, c.text);
    assert locked.finalOutput != "";
    hide Sound, Lock;
  }

  lemma CompleteNowReports(kind: Kind, w: Watch, c: Call)
    requires Issues(kind, w, c) && c.CompleteNowCall?
    ensures Reports(w, Play(kind, w, c), c.status, c.mishaps.completion.Clean?)
  {
  }

  lemma ConcludeReports(kind: Kind, w: Watch, status: bool, m: Mishaps)
    requires kind.hasContext && !w.completed && !m.completion.ThrowsBefore?
    ensures Reports(w, Conclude(kind, w, status, m).0, status, m.completion.Clean?)
  {
  }

  lemma FinalizeReports(kind: Kind, w: Watch, c: Call)
    requires Sound(w) && Issues(kind, w, c) && c.FinalizeCall?
    ensures Reports(w, Play(kind, w, c), Success(kind, w, c), c.mishaps.completion.Clean?)
  {
    var adopted := Adopted(kind, w, c.direct);
    assert EffectiveStatus(kind, adopted) == Success(kind, w, c);
    ConcludeReports(kind, adopted, Success(kind, w, c), c.mishaps);
    hide Sound, EffectiveStatus, Conclude;
  }

  /** A completion reports that, with the summary as it then stands; the stored
      output comes before it, and the end of the turn, after it, says the same. */
  lemma Reported(kind: Kind, w: Watch, c: Call)
    requires Sound(w) && Issues(kind, w, c)
    ensures Reports(w, Play(kind, w, c), Success(kind, w, c), c.mishaps.completion.Clean?)
  {
    hide Sound, Reports, Play;
    match c
    case RecordCall(_, _, _) => RecordReports(kind, w, c);
    case CompleteNowCall(_, _) => CompleteNowReports(kind, w, c);
    case FinalizeCall(_, _, _) => FinalizeReports(kind, w, c);
  }

  // ----- what a call must do -----

  /** The text that is final once the call is made: the first accepted, kept since. */
  function FinalText(kind: Kind, w: Watch, c: Call): string {
    if w.finalOutput != "" then w.finalOutput
    else match c
      case RecordCall(text, mayAct, _) => if mayAct then text else ""
      case FinalizeCall(direct, mayAct, _) => if mayAct && !(kind.hasContext && w.delegated) then direct else ""
      case _ => ""
  }

  /** The call has the final text stored, if there is one: for a run with a context, and
      when it is not stored yet. */
  predicate MustStore(kind: Kind, w: Watch, c: Call) {
    && kind.hasContext && FinalText(kind, w, c) != ""
    && match c
       case RecordCall(_, mayAct, _) => mayAct
       case CompleteNowCall(status, _) => status && !w.completed
       case FinalizeCall(_, mayAct, _) =>
         && mayAct && !w.delegated && !w.completed && w.succeeded
         && (kind.isOwner ==> w.sawOutput || w.finalOutput == "")
       case _ => false
  }

  /** .. and ends the turn, for a run with a turn. */
  predicate MustEnd(kind: Kind, w: Watch, c: Call) {
    && c.FinalizeCall? && kind.hasTurn && c.mayAct && !(kind.hasContext && w.delegated)
    && (kind.hasContext && !w.completed ==> c.mishaps.completion.Clean?)
  }

  ghost predicate Delivers(kind: Kind, w: Watch, c: Call) {
    var w' := Play(kind, w, c);
    && w'.finalOutput == FinalText(kind, w, c)
    && (w.finalOutput == "" && w'.finalOutput != "" ==>
          w'.summary == Some(if |w'.finalOutput| <= 500 then w'.finalOutput else w'.finalOutput[..500]))
    && (w'.outputPersisted <==> w.outputPersisted || (MustStore(kind, w, c) && !c.mishaps.insertThrows))
    && (w'.turnFinalized <==> w.turnFinalized || (MustEnd(kind, w, c) && !c.mishaps.turnThrows))
  }

  predicate SameText(w: Watch, w': Watch) {
    w'.finalOutput == w.finalOutput && w'.summary == w.summary
  }

  lemma PersistDelivers(kind: Kind, w: Watch, insertThrows: bool)
    ensures var (w', threw) := Persist(kind, w, insertThrows);
            && SameText(w, w') && w'.turnFinalized == w.turnFinalized && w'.completed == w.completed
            && (w'.outputPersisted <==>
                w.outputPersisted || (kind.hasContext && w.finalOutput != "" && !insertThrows))
            && (threw <==> kind.hasContext && !w.outputPersisted && w.finalOutput != "" && insertThrows)
  {
  }

  lemma CompleteDelivers(w: Watch, status: bool, course: Course)
    ensures var (w', threw) := Complete(w, status, course);
            && SameText(w, w') && w'.turnFinalized == w.turnFinalized && w'.outputPersisted == w.outputPersisted
            && (threw <==> !course.Clean?)
  {
  }

  lemma EndTurnDelivers(kind: Kind, w: Watch, status: bool, throws: bool)
    ensures var w' := EndTurn(kind, w, status, throws).0;
            && SameText(w, w') && w'.outputPersisted == w.outputPersisted
            && (w'.turnFinalized <==> w.turnFinalized || (kind.hasTurn && !throws))
  {
  }

  lemma OwnerDelivers(kind: Kind, w: Watch, m: Mishaps)
    ensures var (w', threw) := CompleteOwner(kind, w, m);
            && SameText(w, w') && w'.turnFinalized == w.turnFinalized
            && (w.outputPersisted ==> w'.outputPersisted)
            && (w'.outputPersisted ==> w.outputPersisted || (kind.hasContext && w.finalOutput != "" && !m.insertThrows))
            && (threw && !m.insertThrows ==> w'.outputPersisted)
  {
    hide Persist, Complete;
    var marked := w.(succeeded := true, sawOutput := true);
    PersistDelivers(kind, marked, m.insertThrows);
    CompleteDelivers(Persist(kind, marked, m.insertThrows).0, true, m.completion);
  }

  lemma LockDelivers(w: Watch, text: string)
    requires Sound(w)
    ensures var locked := Lock(w, text);
            && locked.finalOutput == (if w.finalOutput != "" then w.finalOutput else text)
            && locked.outputPersisted == w.outputPersisted && locked.turnFinalized == w.turnFinalized
            && (w.finalOutput == "" && text != "" ==> locked.summary == Some(Cut(text)))
  {
    hide Insertions, TurnEnds;
  }

  lemma RecordDelivers(kind: Kind, w: Watch, c: Call)
    requires Sound(w) && c.RecordCall?
    ensures Delivers(kind, w, c)
  {
    hide Sound, Lock, CompleteOwner, Persist;
    LockDelivers(w, c.text);
    OwnerDelivers(kind, Lock(w, c.text), c.mishaps);
    PersistDelivers(kind, CompleteOwner(kind, Lock(w, c.text), c.mishaps).0, c.mishaps.insertThrows);
  }

  lemma CompleteNowDelivers(kind: Kind, w: Watch, c: Call)
    requires c.CompleteNowCall?
    ensures Delivers(kind, w, c)
  {
    hide Persist, Complete;
    var marked := w.(succeeded := c.status);
    PersistDelivers(kind, marked, c.mishaps.insertThrows);
    var stored := if c.status then Persist(kind, marked, c.mishaps.insertThrows).0 else marked;
    CompleteDelivers(stored, c.status, c.mishaps.completion);
  }

  lemma ConcludeDelivers(kind: Kind, w: Watch, status: bool, m: Mishaps)
    ensures var w' := Conclude(kind, w, status, m).0;
            && SameText(w, w')
            && (w'.outputPersisted <==>
                || w.outputPersisted
                || (kind.hasContext && !w.completed && status && w.finalOutput != "" && !m.insertThrows))
            && (w'.turnFinalized <==>
                || w.turnFinalized
                || (kind.hasTurn && (kind.hasContext && !w.completed ==> m.completion.Clean?) && !m.turnThrows))
  {
    hide Persist, Complete, EndTurn;
    PersistDelivers(kind, w, m.insertThrows);
    var stored := if status then Persist(kind, w, m.insertThrows).0 else w;
    CompleteDelivers(stored, status, m.completion);
    EndTurnDelivers(kind, Complete(stored, status, m.completion).0, status, m.turnThrows);
    EndTurnDelivers(kind, w, status, m.turnThrows);
  }

  lemma AdoptedDelivers(kind: Kind, w: Watch, direct: string)
    requires Sound(w)
    ensures var adopted := Adopted(kind, w, direct);
            && adopted.finalOutput == (if w.finalOutput != "" then w.finalOutput else direct)
            && adopted.outputPersisted == w.outputPersisted && adopted.turnFinalized == w.turnFinalized
            && adopted.completed == w.completed
            && (w.finalOutput == "" && direct != "" ==> adopted.summary == Some(Cut(direct)))
            && (EffectiveStatus(kind, adopted) && adopted.finalOutput != "" <==>
                adopted.finalOutput != "" && w.succeeded && (kind.isOwner ==> w.sawOutput || w.finalOutput == ""))
  {
    hide Insertions, TurnEnds;
  }

  lemma FinalizeDelivers(kind: Kind, w: Watch, c: Call)
    requires Sound(w) && c.FinalizeCall?
    ensures Delivers(kind, w, c)
  {
    hide Sound, Adopted, EffectiveStatus, Conclude;
    if c.mayAct && !(kind.hasContext && w.delegated) {
      AdoptedDelivers(kind, w, c.direct);
      var adopted := Adopted(kind, w, c.direct);
      ConcludeDelivers(kind, adopted, EffectiveStatus(kind, adopted), c.mishaps);
    }
  }

  /** What every call does to the final text, its storing and the end of the turn. */
  lemma CallDelivers(kind: Kind, w: Watch, c: Call)
    requires Sound(w)
    ensures Delivers(kind, w, c)
  {
    match c
    case RecordCall(_, _, _) => RecordDelivers(kind, w, c);
    case CompleteNowCall(_, _) => CompleteNowDelivers(kind, w, c);
    case FinalizeCall(_, _, _) => FinalizeDelivers(kind, w, c);
    case _ => hide Sound;
  }

  /** So a text accepted by a run with a context is in the database when recording it
      returns, unless the insertion threw. */
  lemma RecordedIsStored(kind: Kind, w: Watch, text: string, m: Mishaps)
    requires Sound(w) && kind.hasContext && (w.finalOutput != "" || text != "") && !m.insertThrows
    ensures var w' := Play(kind, w, RecordCall(text, true, m));
            Insertions(w'.effects) == [if w.finalOutput != "" then w.finalOutput else text]
  {
    hide Play, Insertions;
    CallDelivers(kind, w, RecordCall(text, true, m));
    CallCounts(kind, w, RecordCall(text, true, m));
  }

  lemma {:induction false} SoundThroughout(kind: Kind, states: seq<Watch>, calls: seq<Call>, i: nat)
    requires History(kind, states, calls) && i < |states|
    ensures Sound(states[i])
  {
    if i > 0 {
      SoundThroughout(kind, states, calls, i - 1);
      CallCounts(kind, states[i - 1], calls[i - 1]);
    }
  }

  predicate SucceededAfter(effects: seq<Effect>, k: int, from: nat) {
    exists n :: k < n < |effects| && from <= n && effects[n].Completed? && effects[n].succeeded
  }

  /** The text was inserted, and later, at `from` or after it, a success reported. */
  predicate StoredThenCompleted(effects: seq<Effect>, text: string, from: nat) {
    exists k :: 0 <= k < |effects| && effects[k] == Inserted(text) && SucceededAfter(effects, k, from)
  }

  /** In every history a completion that reports success with a final text follows its
      insertion, unless that threw in this very call. */
  lemma SuccessIsStored(kind: Kind, states: seq<Watch>, calls: seq<Call>, i: nat)
    requires History(kind, states, calls) && i < |calls|
    requires Issues(kind, states[i], calls[i]) && Success(kind, states[i], calls[i])
    requires states[i + 1].finalOutput != "" && !calls[i].mishaps.insertThrows
    ensures StoredThenCompleted(states[i + 1].effects, states[i + 1].finalOutput, |states[i].effects|)
  {
    assert states[i + 1] == Play(kind, states[i], calls[i]);
    hide *;
    SoundThroughout(kind, states, calls, i);
    SuccessIsStoredFirst(kind, states[i], calls[i]);
  }

  lemma SuccessIsStoredFirst(kind: Kind, w: Watch, c: Call)
    requires Sound(w) && Issues(kind, w, c) && Success(kind, w, c)
    requires Play(kind, w, c).finalOutput != "" && !c.mishaps.insertThrows
    ensures StoredThenCompleted(Play(kind, w, c).effects, Play(kind, w, c).finalOutput, |w.effects|)
  {
    var w' := Play(kind, w, c);
    hide Play, Issues, Success, MustStore, FinalText;
    Reported(kind, w, c);
    CallDelivers(kind, w, c);
    SuccessStores(kind, w, c);
    CallCounts(kind, w, c);
    StoredFirst(w, w', c.mishaps.completion.Clean?);
  }

  lemma StoredFirst(w: Watch, w': Watch, clean: bool)
    requires Sound(w) && Reports(w, w', true, clean) && w'.outputPersisted
    requires w.outputPersisted ==> w'.finalOutput == w.finalOutput
    ensures StoredThenCompleted(w'.effects, w'.finalOutput, |w.effects|)
  {
    hide Insertions, TurnEnds;
    if w.outputPersisted {
      StoredBefore(w);
      var k :| 0 <= k < |w.effects| && w.effects[k] == Inserted(w.finalOutput);
      assert w'.effects[k] == w.effects[k] && w'.effects[|w.effects|] == Completed(true, w'.summary, clean);
    } else {
      assert w'.effects[|w.effects|] == Inserted(w'.finalOutput);
      assert w'.effects[|w.effects| + 1] == Completed(true, w'.summary, clean);
    }
  }

  lemma SuccessStores(kind: Kind, w: Watch, c: Call)
    requires Issues(kind, w, c) && Success(kind, w, c) && FinalText(kind, w, c) != ""
    ensures MustStore(kind, w, c)
  {
  }

  lemma StoredBefore(w: Watch)
    requires Sound(w) && w.outputPersisted
    ensures exists k :: 0 <= k < |w.effects| && w.effects[k] == Inserted(w.finalOutput)
  {
    FirstInserted(w.effects);
  }

  lemma {:induction false} FirstInserted(effects: seq<Effect>)
    ensures Insertions(effects) != [] ==>
              exists k :: 0 <= k < |effects| && effects[k] == Inserted(Insertions(effects)[|Insertions(effects)| - 1])
  {
    if effects != [] && !effects[|effects| - 1].Inserted? {
      FirstInserted(effects[..|effects| - 1]);
    }
  }

  /** Some earlier call threw with the task changed. */
  ghost predicate ThrewLate(kind: Kind, states: seq<Watch>, calls: seq<Call>, i: nat)
    requires |states| == |calls| + 1 && i <= |calls|
  {
    exists k :: 0 <= k < i && ThrowsLate(kind, states[k], calls[k])
  }

  /** Completed and not marked so only after such a throw. */
  lemma {:induction false} UnmarkedAfterThrow(kind: Kind, states: seq<Watch>, calls: seq<Call>, i: nat)
    requires History(kind, states, calls) && i < |states|
    ensures Completions(states[i].effects) > 0 && !states[i].completed ==> ThrewLate(kind, states, calls, i)
    ensures ThrewLate(kind, states, calls, i) ==> Completions(states[i].effects) > 0
    ensures !ThrewLate(kind, states, calls, i) ==> Completions(states[i].effects) <= 1
  {
    hide Play, Issues;
    if i > 0 {
      UnmarkedAfterThrow(kind, states, calls, i - 1);
      SoundThroughout(kind, states, calls, i - 1);
      CallCounts(kind, states[i - 1], calls[i - 1]);
      assert states[i] == Play(kind, states[i - 1], calls[i - 1]);
      NotAgain(kind, states[i - 1], calls[i - 1]);
      hide Sound, Frozen, History;
      assert ThrewLate(kind, states, calls, i) <==>
             ThrewLate(kind, states, calls, i - 1) || ThrowsLate(kind, states[i - 1], calls[i - 1]);
    }
  }

  lemma NotAgain(kind: Kind, w: Watch, c: Call)
    ensures Issues(kind, w, c) ==> !w.completed
  {
  }

  /** A completion is a second one if and only if an earlier call threw when the
      task had been changed. */
  lemma SecondCompletion(kind: Kind, states: seq<Watch>, calls: seq<Call>, i: nat)
    requires History(kind, states, calls) && i < |calls| && Issues(kind, states[i], calls[i])
    ensures Completions(states[i + 1].effects) >= 2 <==> ThrewLate(kind, states, calls, i)
  {
    UnmarkedAfterThrow(kind, states, calls, i);
    SoundThroughout(kind, states, calls, i);
    CallCounts(kind, states[i], calls[i]);
  }

  /** So the task is completed at most once unless some call threw late and
      another followed that issues one. */
  lemma {:induction false} CompletedOnce(kind: Kind, states: seq<Watch>, calls: seq<Call>, i: nat)
    requires History(kind, states, calls) && i < |states|
    ensures Completions(states[i].effects) <= 1 <==>
            forall k :: 0 <= k < i && Issues(kind, states[k], calls[k]) ==> !ThrewLate(kind, states, calls, k)
  {
    hide Issues, Play, ThrewLate;
    if i > 0 {
      CompletedOnce(kind, states, calls, i - 1);
      SoundThroughout(kind, states, calls, i - 1);
      CallCounts(kind, states[i - 1], calls[i - 1]);
      assert states[i] == Play(kind, states[i - 1], calls[i - 1]);
      if Issues(kind, states[i - 1], calls[i - 1]) { SecondCompletion(kind, states, calls, i - 1); }
    }
  }

  /** It does happen: releasing the lease fails after the owner's turn has been
      completed, and the run is finalized as usual. */
  lemma CompletedTwice(text: string) returns (kind: Kind, states: seq<Watch>, calls: seq<Call>)
    requires text != ""
    ensures History(kind, states, calls) && Completions(states[|calls|].effects) == 2
  {
    kind := Kind(true, true, true, false);
    calls := [RecordCall(text, true, Mishaps(false, ThrowsAfter, false)),
             FinalizeCall("", true, Mishaps(false, Clean, false))];
    var first := Play(kind, New, calls[0]);
    var second := Play(kind, first, calls[1]);
    states := [New, first, second];
    assert History(kind, states, calls);
    assert Sound(New);
    CallCounts(kind, New, calls[0]);
    CallCounts(kind, first, calls[1]);
  }

  // ----- ordinary courses -----

  const Smooth := Mishaps(false, Clean, false)

  function PlayAll(kind: Kind, w: Watch, calls: seq<Call>): Watch
    decreases |calls|
  {
    if calls == [] then w else PlayAll(kind, Play(kind, w, calls[0]), calls[1..])
  }

  lemma PlayTwo(kind: Kind, w: Watch, a: Call, b: Call)
    ensures PlayAll(kind, w, [a, b]) == Play(kind, Play(kind, w, a), b)
  {
    hide Play;
    assert [a, b][1..] == [b];
    assert PlayAll(kind, Play(kind, w, a), [b]) == PlayAll(kind, Play(kind, Play(kind, w, a), b), []);
  }

  /** An owner's turn is stored and completed before delivery, the turn ended after. */
  lemma OwnerCourse(text: string, visible: bool)
    requires text != ""
    ensures PlayAll(Kind(true, true, true, visible), New,
                    [RecordCall(text, true, Smooth), FinalizeCall("", true, Smooth)]).effects
            == [Inserted(text), Completed(true, Some(Cut(text)), true), TurnEnded(true)]
  {
    var kind := Kind(true, true, true, visible);
    PlayTwo(kind, New, RecordCall(text, true, Smooth), FinalizeCall("", true, Smooth));
  }

  /** A reviewer's or arbiter's is stored before delivery and completed by finalizing,
      as it was marked. */
  lemma ReviewerCourse(text: string, visible: bool, status: bool)
    requires text != ""
    ensures var kind := Kind(false, true, true, visible);
            PlayAll(kind, Play(kind, New, StatusCall(status)),
                    [RecordCall(text, true, Smooth), FinalizeCall("", true, Smooth)]).effects
            == [Inserted(text), Completed(status, Some(Cut(text)), true), TurnEnded(status)]
  {
    var kind := Kind(false, true, true, visible);
    PlayTwo(kind, Play(kind, New, StatusCall(status)), RecordCall(text, true, Smooth), FinalizeCall("", true, Smooth));
  }

  /** A run that said nothing fails where it had to say something, with what is known
      as its summary; one that was only seen to say something fails where a visible
      verdict is required. */
  lemma SilentCourse(kind: Kind, error: string)
    requires kind.hasContext && kind.hasTurn && error != "" && (kind.isOwner || kind.requiresVisibleVerdict)
    ensures PlayAll(kind, Play(kind, New, StatusCall(true)),
                    [UpdateSummaryCall(None, Some(error)), FinalizeCall("", true, Smooth)]).effects
            == [Completed(false, Some(if kind.requiresVisibleVerdict then MissingVerdict else Cut(error)), true),
                TurnEnded(false)]
  {
    PlayTwo(kind, Play(kind, New, StatusCall(true)), UpdateSummaryCall(None, Some(error)),
            FinalizeCall("", true, Smooth));
  }

  lemma UnstoredCourse(kind: Kind)
    requires kind.hasContext && kind.hasTurn
    ensures PlayAll(kind, Play(kind, New, StatusCall(true)),
                    [SawOutputCall(true), FinalizeCall("", true, Smooth)]).effects
            == [Completed(!kind.requiresVisibleVerdict,
                          if kind.requiresVisibleVerdict then Some(MissingVerdict) else None, true),
                TurnEnded(!kind.requiresVisibleVerdict)]
  {
    PlayTwo(kind, Play(kind, New, StatusCall(true)), SawOutputCall(true), FinalizeCall("", true, Smooth));
  }

  /** A delegated run only gives its lease back. */
  lemma DelegatedCourse(kind: Kind, w: Watch)
    requires kind.hasContext
    ensures PlayAll(kind, w, [DelegatedCall, FinalizeCall("", true, Smooth)]).effects == w.effects + [LeaseReleased]
  {
    PlayTwo(kind, w, DelegatedCall, FinalizeCall("", true, Smooth));
  }

  /** The latest text, cut to 500 characters, is the summary until one is final. */
  lemma SummaryFollows(kind: Kind, w: Watch, outputText: Option<string>, errorText: Option<string>)
    requires Sound(w)
    ensures var w' := Play(kind, w, UpdateSummaryCall(outputText, errorText));
            && w' == w.(summary := w'.summary)
            && match (outputText, errorText)
               case (Some(text), _) =>
                 w.finalOutput == "" && text != "" ==> w'.summary == Some(if |text| <= 500 then text else text[..500])
               case (None, Some(text)) =>
                 w.finalOutput == "" && text != "" ==> w'.summary == Some(if |text| <= 500 then text else text[..500])
               case _ => w' == w
    ensures w.finalOutput != "" ==> Play(kind, w, UpdateSummaryCall(outputText, errorText)) == w
  {
    assert w.summaryLocked <==> w.finalOutput != "";
    assert Play(kind, w, UpdateSummaryCall(outputText, errorText)) == Summarised(w, outputText, errorText);
    if outputText.Some? { CutIs(outputText.value); }
    if errorText.Some? { CutIs(errorText.value); }
    hide Play, Cut, Sound;
  }

  lemma CutIs(text: string)
    ensures Cut(text) == if |text| <= 500 then text else text[..500]
  {
  }

  // ----- the object -----

  class Lifecycle {
    const kind: Kind
    var succeeded: bool
    var summary: Option<string>
    var finalOutput: string
    var summaryLocked: bool
    var completed: bool
    var delegated: bool
    var sawOutput: bool
    var outputPersisted: bool
    var turnFinalized: bool
    var effects: seq<Effect>

    function View(): Watch
      reads this
    {
      Watch(succeeded, summary, finalOutput, summaryLocked, completed, delegated, sawOutput, outputPersisted,
            turnFinalized, effects)
    }

    constructor (kind: Kind)
      ensures View() == New && this.kind == kind
    {
      this.kind := kind;
      succeeded, summary, finalOutput, summaryLocked := false, None, "", false;
      completed, delegated, sawOutput, outputPersisted, turnFinalized := false, false, false, false, false;
      effects := [];
    }

    /** A run without a turn, or whose turn has no attempt on record, goes ahead. */
    predicate MayAct(attempts: seq<TurnAttempt>, runId: nat) {
      !kind.hasTurn || RunOwnership(attempts, runId) != Lost
    }

    method PersistIfNeeded(insertThrows: bool) returns (threw: bool)
      modifies this
      ensures (View(), threw) == Persist(kind, old(View()), insertThrows)
    {
      if !kind.hasContext || outputPersisted || finalOutput == "" { return false; }
      if insertThrows { return true; }
      effects := effects + [Inserted(finalOutput)];
      outputPersisted := true;
      return false;
    }

    method CompleteContext(status: bool, course: Course) returns (threw: bool)
      modifies this
      ensures (View(), threw) == Complete(old(View()), status, course)
    {
      if course.ThrowsBefore? { return true; }
      effects := effects + [Completed(status, summary, course.Clean?)];
      if course.ThrowsAfter? { return true; }
      completed := true;
      return false;
    }

    method FinalizeTurn(status: bool, throws: bool) returns (threw: bool)
      modifies this
      ensures (View(), threw) == EndTurn(kind, old(View()), status, throws)
    {
      if !kind.hasTurn || turnFinalized { return false; }
      if throws { return true; }
      effects := effects + [TurnEnded(status)];
      turnFinalized := true;
      return false;
    }

    method LockVisibleVerdict(text: string)
      modifies this
      ensures View() == Lock(old(View()), text)
    {
      if text == "" { return; }
      if finalOutput == "" { finalOutput := text; }
      if !summaryLocked {
        summary := Some(Cut(text));
        summaryLocked := true;
      }
      sawOutput := true;
    }

    method CompleteOwnerBeforeDelivery(m: Mishaps) returns (threw: bool)
      modifies this
      ensures (View(), threw) == CompleteOwner(kind, old(View()), m)
    {
      if !kind.isOwner || !kind.hasContext || completed || finalOutput == "" { return false; }
      succeeded := true;
      sawOutput := true;
      threw := PersistIfNeeded(m.insertThrows);
      if threw { return; }
      threw := CompleteContext(true, m.completion);
    }

    method UpdateSummary(outputText: Option<string>, errorText: Option<string>)
      modifies this
      ensures View() == Play(kind, old(View()), UpdateSummaryCall(outputText, errorText))
    {
      if summaryLocked { return; }
      if outputText.Some? && outputText.value != "" {
        summary := Some(Cut(outputText.value));
        return;
      }
      if errorText.Some? && errorText.value != "" {
        summary := Some(Cut(errorText.value));
      }
    }

    method RecordFinalOutputBeforeDelivery(text: string, attempts: seq<TurnAttempt>, runId: nat, m: Mishaps)
      returns (accepted: bool, threw: bool)
      modifies this
      ensures View() == Play(kind, old(View()), RecordCall(text, MayAct(attempts, runId), m))
      ensures threw == (MayAct(attempts, runId) && Record(kind, old(View()), text, m).1)
      ensures accepted == (MayAct(attempts, runId) && !threw)
    {
      hide Persist, CompleteOwner, Lock;
      if !MayAct(attempts, runId) { return false, false; }
      LockVisibleVerdict(text);
      threw := CompleteOwnerBeforeDelivery(m);
      if threw { return false, true; }
      threw := PersistIfNeeded(m.insertThrows);
      accepted := !threw;
    }

    method CompleteImmediately(status: bool, m: Mishaps) returns (threw: bool)
      modifies this
      ensures (View(), threw) == CompleteNow(kind, old(View()), status, m)
      ensures View() == Play(kind, old(View()), CompleteNowCall(status, m))
    {
      hide Persist, Complete;
      if !kind.hasContext || completed { return false; }
      succeeded := status;
      if status {
        threw := PersistIfNeeded(m.insertThrows);
        if threw { return; }
      }
      threw := CompleteContext(status, m.completion);
    }

    method MarkDelegated()
      modifies this
      ensures View() == Play(kind, old(View()), DelegatedCall)
    {
      delegated := true;
    }

    method MarkStatus(status: bool)
      modifies this
      ensures View() == Play(kind, old(View()), StatusCall(status))
    {
      succeeded := status;
    }

    method MarkSawOutput(saw: bool)
      modifies this
      ensures View() == Play(kind, old(View()), SawOutputCall(saw))
    {
      sawOutput := saw;
    }

    method AdoptDirectTerminalDelivery(direct: string)
      modifies this
      ensures View() == Adopted(kind, old(View()), direct)
    {
      if direct != "" {
        if finalOutput == "" {
          LockVisibleVerdict(direct);
        } else if !summaryLocked {
          summary := Some(Cut(finalOutput));
          summaryLocked := true;
        }
      }
      if kind.requiresVisibleVerdict && finalOutput == "" {
        summary := Some(MissingVerdict);
      }
    }

    method ConcludeRun(status: bool, m: Mishaps) returns (threw: bool)
      modifies this
      ensures (View(), threw) == Conclude(kind, old(View()), status, m)
    {
      hide Persist, Complete, EndTurn;
      if kind.hasContext && !completed {
        if status {
          var _ := PersistIfNeeded(m.insertThrows);
        }
        threw := CompleteContext(status, m.completion);
        if threw { return; }
      }
      threw := FinalizeTurn(status, m.turnThrows);
    }

    method AsyncFinalize(direct: string, attempts: seq<TurnAttempt>, runId: nat, m: Mishaps) returns (threw: bool)
      modifies this
      ensures View() == Play(kind, old(View()), FinalizeCall(direct, MayAct(attempts, runId), m))
      ensures threw == (MayAct(attempts, runId) && Finalize(kind, old(View()), direct, m).1)
    {
      hide Adopted, Conclude;
      if !MayAct(attempts, runId) { return false; }
      if kind.hasContext && delegated {
        effects := effects + [LeaseReleased];
        completed := true;
        return false;
      }
      AdoptDirectTerminalDelivery(direct);
      var missingVerdict := kind.requiresVisibleVerdict && finalOutput == "";
      var status := succeeded && !(kind.isOwner && !sawOutput) && !missingVerdict;
      assert status == EffectiveStatus(kind, View());
      threw := ConcludeRun(status, m);
    }
  }
}
