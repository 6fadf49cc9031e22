/** How many attempts the retry loops make: bounds, passed only when a cooldown
    set on the way is over before the end; for a clock that stands still exactly
    when there is a bound; and clocks that move with which there is none. */
module RotationBounds {
  import opened Common
  import opened TokenRing
  import opened ProviderRetry

  // ----- the cooldowns a run sets -----

  /** `since`: the number of the first reading of the clock after it was set. */
  datatype Cooldown = Cooldown(until: int, since: nat)

  /** What a run sets on its way; `end` readings of the clock have been taken. */
  datatype Log = Log(cooldowns: seq<Cooldown>, end: nat)
  {
    function After(first: seq<Cooldown>): Log { this.(cooldowns := first + cooldowns) }
  }

  function CodexLog(r: Ring, message: Option<int>, w: World, k: nat, time: nat): (log: Log)
    requires r.Valid() && k <= |w.answers|
    ensures log.end >= time + 2
    decreases |w.answers| - k
  {
    var cooldown := CooldownUntil(message, w.clock(time));
    var (r1, rotated) := Rotate(r, cooldown, w.clock(time + 1));
    if rotated && k < |w.answers| && EvaluateCodex(w.answers[k]).Again?
    then CodexLog(r1, EvaluateCodex(w.answers[k]).retryAt, w, k + 1, time + 2).After([Cooldown(cooldown, time + 2)])
    else Log([Cooldown(cooldown, time + 2)], time + 2)
  }

  /** A round looks at the clock once when it may refresh, twice more when it rotates. */
  function RoundCooldowns(trigger: Reason, message: Option<int>, w: World, time: nat, x: Round): seq<Cooldown> {
    var t1 := if trigger == AuthExpired then time + 1 else time;
    if x.time == t1 then [] else [Cooldown(CooldownUntil(message, w.clock(t1)), x.time)]
  }

  function ClaudeLog(r: Ring, trigger: Reason, message: Option<int>, refreshed: set<nat>, w: World, k: nat, time: nat)
    : (log: Log)
    requires r.Valid() && k <= |w.answers|
    ensures log.end >= time
    decreases |w.answers| - k
  {
    if !ShouldRotateClaude(trigger) then Log([], time)
    else
      var x := ClaudeRound(r, trigger, message, refreshed, w, time);
      var own := RoundCooldowns(trigger, message, w, time, x);
      if !x.goes then Log(own, x.time)
      else if k < |w.answers| && EvaluateClaude(w.answers[k]).Again? then
        var outcome := EvaluateClaude(w.answers[k]);
        ClaudeLog(ClaudeTried(x.ring, outcome, w.clock(x.time)), outcome.reason, outcome.retryAt, x.refreshed,
                  w, k + 1, x.time + 1).After(own)
      else Log(own, x.time + 1)
  }

  /** A cooldown is over at a reading the run takes after having set it. */
  ghost predicate SomeIsOver(log: Log, w: World) {
    exists i, t :: 0 <= i < |log.cooldowns| && log.cooldowns[i].since <= t < log.end
                   && !Cooled(Some(log.cooldowns[i].until), w.clock(t))
  }

  lemma SomeIsOverLater(log: Log, own: seq<Cooldown>, w: World)
    requires SomeIsOver(log, w)
    ensures SomeIsOver(log.After(own), w)
  {
    var i, t :| 0 <= i < |log.cooldowns| && log.cooldowns[i].since <= t < log.end
                && !Cooled(Some(log.cooldowns[i].until), w.clock(t));
    assert log.After(own).cooldowns[|own| + i] == log.cooldowns[i];
  }

  lemma FirstRuns(log: Log, c: Cooldown, w: World)
    requires !SomeIsOver(log.After([c]), w)
    ensures Runs(c.until, w, c.since, log.end)
  {
    assert log.After([c]).cooldowns[0] == c;
  }

  /** A cooldown is running at all these readings. */
  ghost predicate Runs(until: int, w: World, from: nat, end: nat) {
    forall t :: from <= t < end ==> Cooled(Some(until), w.clock(t))
  }

  /** The entries in `cooled` are out of reach at all these readings. */
  ghost predicate Away(r: Ring, cooled: set<nat>, w: World, from: nat, end: nat) {
    && r.Valid() && r.current !in cooled
    && forall i :: i in cooled ==> i < |r.until| && r.until[i].Some? && Runs(r.until[i].value, w, from, end)
  }

  lemma AwayLater(r: Ring, cooled: set<nat>, w: World, from: nat, later: nat, end: nat)
    requires Away(r, cooled, w, from, end) && from <= later
    ensures Away(r, cooled, w, later, end)
  {
  }

  lemma {:induction false} IndexSetSize(s: set<nat>, n: nat)
    requires forall i :: i in s ==> i < n
    ensures |s| <= n
  {
    if n == 0 {
      assert s == {};
    } else {
      IndexSetSize(s - {n - 1}, n - 1);
    }
  }

  lemma OutOfReach(r: Ring, cooled: set<nat>, w: World, from: nat, t: nat, end: nat)
    requires Away(r, cooled, w, from, end) && from <= t < end
    ensures r.current !in cooled && forall i :: i in cooled ==> i < |r.until| && Cooled(r.until[i], w.clock(t))
  {
  }

  /** A rotation cools one more entry and goes to one that is not cooled. */
  lemma Cools(r: Ring, cooldown: int, cooled: set<nat>, w: World, time: nat, end: nat)
    requires Away(r, cooled, w, time, end) && time < end
    requires Rotate(r, cooldown, w.clock(time)).1 && Runs(cooldown, w, time + 1, end)
    ensures var r' := Rotate(r, cooldown, w.clock(time)).0;
            && Away(r', cooled + {r.current}, w, time + 1, end) && r'.current != r.current
            && |cooled + {r.current}| == |cooled| + 1 < |r.until|
  {
    var r' := Rotate(r, cooldown, w.clock(time)).0;
    RotatesExactly(r, cooldown, w.clock(time));
    OutOfReach(r, cooled, w, time, time, end);
    AwayLater(r, cooled, w, time, time + 1, end);
    hide Runs, Rotate;
    IndexSetSize(cooled + {r.current} + {r'.current}, |r.until|);
  }

  lemma StaysAway(r: Ring, cooled: set<nat>, w: World, time: nat, end: nat)
    requires Away(r, cooled, w, time, end) && time < end
    ensures Away(Reselect(r, w.clock(time)), cooled, w, time + 1, end)
  {
    ReselectKeeps(r, w.clock(time));
    OutOfReach(r, cooled, w, time, time, end);
    AwayLater(r, cooled, w, time, time + 1, end);
    hide Runs, Reselect;
  }

  // ----- bounds -----

  function ClaudeBound(tokens: nat): nat { Max(0, 2 * tokens - 1) }

  function CodexBound(accounts: nat): nat { Max(0, accounts - 1) }

  /** The entries tried are new and come once each. */
  predicate NewOnce(tried: seq<nat>, cooled: set<nat>) {
    && (forall i :: 0 <= i < |tried| ==> tried[i] !in cooled)
    && (forall i, j :: 0 <= i < j < |tried| ==> tried[i] != tried[j])
  }

  lemma OneMoreTried(tried: seq<nat>, cooled: set<nat>, from: nat, to: nat)
    requires NewOnce(tried, cooled + {from} + {to}) && to !in cooled + {from}
    ensures NewOnce([to] + tried, cooled + {from})
  {
  }

  lemma FirstTried(to: nat, cooled: set<nat>, from: nat)
    requires to !in cooled + {from}
    ensures NewOnce([to], cooled + {from})
  {
  }

  lemma NoneTried(cooled: set<nat>)
    ensures NewOnce([], cooled)
  {
  }

  lemma KeepsMessage(a: Attempt)
    ensures EvaluateCodex(a).Again? ==> EvaluateCodex(a).retryAt == a.retryAt
    ensures EvaluateClaude(a).Again? ==> EvaluateClaude(a).retryAt == a.retryAt
  {
  }

  lemma {:induction false} CodexRunsOut(r: Ring, message: Option<int>, w: World, k: nat, time: nat, cooled: set<nat>)
    requires r.Valid() && k <= |w.answers| && (|cooled| < |r.until| || cooled == {})
    requires !SomeIsOver(CodexLog(r, message, w, k, time), w)
    requires Away(r, cooled, w, time, CodexLog(r, message, w, k, time).end)
    ensures |cooled| + |CodexRun(r, message, w, k, time).tried| <= Max(|cooled|, CodexBound(|r.until|))
    ensures NewOnce(CodexRun(r, message, w, k, time).tried, cooled + {r.current})
    decreases |w.answers| - k
  {
    hide CooldownUntil, Rotate, Away, Runs, EvaluateCodex, SomeIsOver, NewOnce;
    var cooldown := CooldownUntil(message, w.clock(time));
    var (r1, rotated) := Rotate(r, cooldown, w.clock(time + 1));
    if !rotated {
      NoneTried(cooled + {r.current});
    } else {
      var log, own := CodexLog(r, message, w, k, time), Cooldown(cooldown, time + 2);
      var again := k < |w.answers| && EvaluateCodex(w.answers[k]).Again?;
      var rest := if again then CodexLog(r1, EvaluateCodex(w.answers[k]).retryAt, w, k + 1, time + 2)
                  else Log([], time + 2);
      assert log == rest.After([own]);
      FirstRuns(rest, own, w);
      AwayLater(r, cooled, w, time, time + 1, log.end);
      Cools(r, cooldown, cooled, w, time + 1, log.end);
      NotCooled(r1, cooled + {r.current}, w, time + 2, log.end);
      hide Log.After;
      if !again {
        FirstTried(r1.current, cooled, r.current);
      } else {
        if SomeIsOver(rest, w) { SomeIsOverLater(rest, [own], w); }
        CodexRunsOut(r1, EvaluateCodex(w.answers[k]).retryAt, w, k + 1, time + 2, cooled + {r.current});
        OneMoreTried(CodexRun(r1, EvaluateCodex(w.answers[k]).retryAt, w, k + 1, time + 2).tried, cooled,
                     r.current, r1.current);
      }
    }
  }

  lemma NotCooled(r: Ring, cooled: set<nat>, w: World, from: nat, end: nat)
    requires Away(r, cooled, w, from, end)
    ensures r.current !in cooled
  {
  }

  /** At most one attempt for each account but the first, none of them twice,
      unless a cooldown set on the way is over before the end. */
  lemma CodexBounded(r: Ring, message: Option<int>, w: World, k: nat, time: nat)
    requires r.Valid() && k <= |w.answers|
    ensures SomeIsOver(CodexLog(r, message, w, k, time), w)
            || (|CodexRun(r, message, w, k, time).tried| <= CodexBound(|r.until|)
                && NewOnce(CodexRun(r, message, w, k, time).tried, {r.current}))
  {
    hide SomeIsOver;
    if !SomeIsOver(CodexLog(r, message, w, k, time), w) {
      CodexRunsOut(r, message, w, k, time, {});
      assert {} + {r.current} == {r.current};
    }
  }

  lemma {:induction false} ClaudeRunsOut(r: Ring, trigger: Reason, message: Option<int>, refreshed: set<nat>,
                                         w: World, k: nat, time: nat, cooled: set<nat>)
    requires r.Valid() && k <= |w.answers| && (|cooled| < |r.until| || cooled == {})
    requires forall i :: i in refreshed ==> i < |r.until|
    requires !SomeIsOver(ClaudeLog(r, trigger, message, refreshed, w, k, time), w)
    requires Away(r, cooled, w, time, ClaudeLog(r, trigger, message, refreshed, w, k, time).end)
    ensures |cooled| + |refreshed| + |ClaudeRun(r, trigger, message, refreshed, w, k, time).tried|
            <= Max(|refreshed|, ClaudeBound(|r.until|))
    decreases |w.answers| - k
  {
    hide ClaudeRound, ClaudeTried, RoundCooldowns, Away, SomeIsOver, EvaluateClaude, Reselect;
    IndexSetSize(refreshed, |r.until|);
    if ShouldRotateClaude(trigger) {
      var x := ClaudeRound(r, trigger, message, refreshed, w, time);
      if x.goes {
        var own := RoundCooldowns(trigger, message, w, time, x);
        var again := k < |w.answers| && EvaluateClaude(w.answers[k]).Again?;
        var outcome := Answer(w, k, EvaluateClaude);
        var r' := ClaudeTried(x.ring, outcome, w.clock(x.time));
        var rest := if again then ClaudeLog(r', outcome.reason, outcome.retryAt, x.refreshed, w, k + 1, x.time + 1)
                    else Log([], x.time + 1);
        assert rest.After(own) == ClaudeLog(r, trigger, message, refreshed, w, k, time);
        var cooled' := OneRound(r, trigger, message, refreshed, w, time, cooled, rest);
        IndexSetSize(x.refreshed, |r.until|);
        if again {
          AgainStaysAway(x.ring, w, k, x.time, cooled', rest.end);
          if SomeIsOver(rest, w) { SomeIsOverLater(rest, own, w); }
          ClaudeRunsOut(r', outcome.reason, outcome.retryAt, x.refreshed, w, k + 1, x.time + 1, cooled');
        }
      }
    }
  }

  /** The ring as a round finds it, and the readings taken by then. */
  function Looked(r: Ring, trigger: Reason, w: World, time: nat): (x: (Ring, nat))
    requires r.Valid()
    ensures x.0.Valid() && |x.0.until| == |r.until|
  {
    if trigger == AuthExpired then (Reselect(r, w.clock(time)), time + 1) else (r, time)
  }

  /** A round refreshes when the login of the current token has expired, has not been
      refreshed yet and can be; else it rotates. */
  lemma RoundIs(r: Ring, trigger: Reason, message: Option<int>, refreshed: set<nat>, w: World, time: nat)
    requires r.Valid()
    ensures var x := ClaudeRound(r, trigger, message, refreshed, w, time);
            var (r1, t1) := Looked(r, trigger, w, time);
            && t1 == (if trigger == AuthExpired then time + 1 else time)
            && x.refreshed == (if trigger == AuthExpired && r1.until != [] then refreshed + {r1.current} else refreshed)
            && if trigger == AuthExpired && r1.until != [] && r1.current !in refreshed && w.refreshes(|refreshed|)
               then x.time == t1 && x.goes && x.ring == r1
               else && x.time == t1 + 2
                    && (x.ring, x.goes) == Rotate(r1, CooldownUntil(message, w.clock(t1)), w.clock(t1 + 1))
  {
    hide Reselect, Rotate, CooldownUntil;
    var (r1, _) := Looked(r, trigger, w, time);
    if r1.current in refreshed { assert refreshed + {r1.current} == refreshed; }
  }

  lemma OneRound(r: Ring, trigger: Reason, message: Option<int>, refreshed: set<nat>, w: World, time: nat,
                 cooled: set<nat>, rest: Log) returns (cooled': set<nat>)
    requires r.Valid() && Away(r, cooled, w, time, rest.end) && (|cooled| < |r.until| || cooled == {})
    requires forall i :: i in refreshed ==> i < |r.until|
    requires ClaudeRound(r, trigger, message, refreshed, w, time).goes
    requires var x := ClaudeRound(r, trigger, message, refreshed, w, time);
             x.time < rest.end && !SomeIsOver(rest.After(RoundCooldowns(trigger, message, w, time, x)), w)
    ensures var x := ClaudeRound(r, trigger, message, refreshed, w, time);
            && Away(x.ring, cooled', w, x.time, rest.end) && |cooled'| < |r.until|
            && (forall i :: i in x.refreshed ==> i < |r.until|)
            && |cooled'| + |x.refreshed| > |cooled| + |refreshed|
  {
    hide ClaudeRound, Away, Runs, Rotate, CooldownUntil, SomeIsOver, Log.After, Looked;
    var x := ClaudeRound(r, trigger, message, refreshed, w, time);
    RoundIs(r, trigger, message, refreshed, w, time);
    var (r1, t1) := Looked(r, trigger, w, time);
    LookedAt(r, trigger, w, time, cooled, rest.end);
    OneMoreIn(refreshed, r1.current);
    if x.time == t1 {
      cooled' := cooled;
    } else {
      var cooldown := CooldownUntil(message, w.clock(t1));
      FirstRuns(rest, Cooldown(cooldown, x.time), w);
      AwayLater(r1, cooled, w, t1, t1 + 1, rest.end);
      Cools(r1, cooldown, cooled, w, t1 + 1, rest.end);
      cooled' := cooled + {r1.current};
    }
  }

  lemma LookedAt(r: Ring, trigger: Reason, w: World, time: nat, cooled: set<nat>, end: nat)
    requires r.Valid() && Away(r, cooled, w, time, end) && (trigger == AuthExpired ==> time < end)
    ensures var (r1, t1) := Looked(r, trigger, w, time);
            && Away(r1, cooled, w, t1, end)
            && t1 == if trigger == AuthExpired then time + 1 else time
  {
    hide Away, Reselect;
    if trigger == AuthExpired { StaysAway(r, cooled, w, time, end); }
  }

  lemma OneMoreIn(s: set<nat>, x: nat)
    ensures |s + {x}| == |s| + if x in s then 0 else 1
  {
    if x in s { assert s + {x} == s; }
  }

  lemma AgainStaysAway(r: Ring, w: World, k: nat, time: nat, cooled: set<nat>, end: nat)
    requires Away(r, cooled, w, time, end) && time < end
    requires k < |w.answers| && EvaluateClaude(w.answers[k]).Again?
    ensures Away(ClaudeTried(r, EvaluateClaude(w.answers[k]), w.clock(time)), cooled, w, time + 1, end)
  {
    StaysAway(r, cooled, w, time, end);
  }

  /** One rotation for each token but the first, and one forced refresh for each,
      unless a cooldown set on the way is over before the end. */
  lemma ClaudeBounded(r: Ring, trigger: Reason, message: Option<int>, w: World, k: nat, time: nat)
    requires r.Valid() && k <= |w.answers|
    ensures SomeIsOver(ClaudeLog(r, trigger, message, {}, w, k, time), w)
            || |ClaudeRun(r, trigger, message, {}, w, k, time).tried| <= ClaudeBound(|r.until|)
  {
    hide SomeIsOver;
    if !SomeIsOver(ClaudeLog(r, trigger, message, {}, w, k, time), w) {
      ClaudeRunsOut(r, trigger, message, {}, w, k, time, {});
    }
  }

  // ----- worlds in which no cooldown is over too soon -----

  /** The cooldown for this message is still running at `horizon`. */
  predicate MessageOutlasts(message: Option<int>, horizon: int) {
    message.Some? && message.value != 0 ==> message.value + BUFFER_MS > horizon
  }

  /** Every cooldown set outlasts every reading of the clock. */
  ghost predicate Outlasts(w: World, horizon: int) {
    && 0 <= horizon
    && (forall k: nat :: w.clock(k) <= horizon < w.clock(k) + DEFAULT_COOLDOWN_MS)
    && (forall k :: 0 <= k < |w.answers| ==> MessageOutlasts(w.answers[k].retryAt, horizon))
  }

  ghost predicate Beyond(cooldowns: seq<Cooldown>, horizon: int) {
    forall i :: 0 <= i < |cooldowns| ==> cooldowns[i].until > horizon
  }

  lemma BeyondRuns(log: Log, w: World, horizon: int)
    requires Outlasts(w, horizon) && Beyond(log.cooldowns, horizon)
    ensures !SomeIsOver(log, w)
  {
  }

  lemma CooldownBeyond(message: Option<int>, w: World, time: nat, horizon: int)
    requires Outlasts(w, horizon) && MessageOutlasts(message, horizon)
    ensures CooldownUntil(message, w.clock(time)) > horizon
  {
  }

  lemma {:induction false} CodexBeyond(r: Ring, message: Option<int>, w: World, k: nat, time: nat, horizon: int)
    requires r.Valid() && k <= |w.answers| && Outlasts(w, horizon) && MessageOutlasts(message, horizon)
    ensures Beyond(CodexLog(r, message, w, k, time).cooldowns, horizon)
    decreases |w.answers| - k
  {
    hide Rotate, EvaluateCodex, CooldownUntil;
    CooldownBeyond(message, w, time, horizon);
    var (r1, rotated) := Rotate(r, CooldownUntil(message, w.clock(time)), w.clock(time + 1));
    if rotated && k < |w.answers| && EvaluateCodex(w.answers[k]).Again? {
      KeepsMessage(w.answers[k]);
      CodexBeyond(r1, EvaluateCodex(w.answers[k]).retryAt, w, k + 1, time + 2, horizon);
    }
  }

  lemma CodexOutlasts(r: Ring, message: Option<int>, w: World, k: nat, time: nat, horizon: int)
    requires r.Valid() && k <= |w.answers| && Outlasts(w, horizon) && MessageOutlasts(message, horizon)
    ensures |CodexRun(r, message, w, k, time).tried| <= CodexBound(|r.until|)
    ensures NewOnce(CodexRun(r, message, w, k, time).tried, {r.current})
  {
    CodexBeyond(r, message, w, k, time, horizon);
    BeyondRuns(CodexLog(r, message, w, k, time), w, horizon);
    hide SomeIsOver, NewOnce;
    CodexBounded(r, message, w, k, time);
  }

  lemma {:induction false} ClaudeBeyond(r: Ring, trigger: Reason, message: Option<int>, refreshed: set<nat>,
                                        w: World, k: nat, time: nat, horizon: int)
    requires r.Valid() && k <= |w.answers| && Outlasts(w, horizon) && MessageOutlasts(message, horizon)
    ensures Beyond(ClaudeLog(r, trigger, message, refreshed, w, k, time).cooldowns, horizon)
    decreases |w.answers| - k
  {
    hide ClaudeRound, ClaudeTried, EvaluateClaude, CooldownUntil;
    if ShouldRotateClaude(trigger) {
      var x := ClaudeRound(r, trigger, message, refreshed, w, time);
      CooldownBeyond(message, w, if trigger == AuthExpired then time + 1 else time, horizon);
      if x.goes && k < |w.answers| && EvaluateClaude(w.answers[k]).Again? {
        var outcome := EvaluateClaude(w.answers[k]);
        KeepsMessage(w.answers[k]);
        ClaudeBeyond(ClaudeTried(x.ring, outcome, w.clock(x.time)), outcome.reason, outcome.retryAt, x.refreshed,
                     w, k + 1, x.time + 1, horizon);
      }
    }
  }

  lemma ClaudeOutlasts(r: Ring, trigger: Reason, message: Option<int>, w: World, k: nat, time: nat, horizon: int)
    requires r.Valid() && k <= |w.answers| && Outlasts(w, horizon) && MessageOutlasts(message, horizon)
    ensures |ClaudeRun(r, trigger, message, {}, w, k, time).tried| <= ClaudeBound(|r.until|)
  {
    ClaudeBeyond(r, trigger, message, {}, w, k, time, horizon);
    BeyondRuns(ClaudeLog(r, trigger, message, {}, w, k, time), w, horizon);
    hide SomeIsOver;
    ClaudeBounded(r, trigger, message, w, k, time);
  }

  // ----- how a loop ends -----

  ghost predicate OthersCooled(r: Ring, now: int) {
    forall j: nat :: j != r.current ==> !r.Usable(j, now)
  }

  /** No entry but the current one was usable at some reading. */
  ghost predicate OthersCooling(r: Ring, w: World) {
    exists t: nat :: OthersCooled(r, w.clock(t))
  }

  /** A failure is the last answer, or the end of the ring: nothing else was usable. */
  lemma {:induction false} ClaudeFails(r: Ring, trigger: Reason, message: Option<int>, refreshed: set<nat>,
                                       w: World, k: nat, time: nat)
    requires r.Valid() && k <= |w.answers|
    ensures var run := ClaudeRun(r, trigger, message, refreshed, w, k, time);
            && !run.outcome.Again?
            && (run.outcome.Pending? ==> k + |run.tried| == |w.answers| + 1)
            && (run.outcome.Success? ==> run.tried != [] && k + |run.tried| <= |w.answers|
                                         && run.outcome == EvaluateClaude(w.answers[k + |run.tried| - 1]))
            && (run.outcome.Failure? ==>
                  || (run.tried != [] && k + |run.tried| <= |w.answers|
                      && run.outcome == EvaluateClaude(w.answers[k + |run.tried| - 1]))
                  || (run.outcome.trigger.Some? && !ShouldRotateClaude(run.outcome.trigger.value))
                  || OthersCooling(run.ring, w))
    decreases |w.answers| - k
  {
    hide ClaudeRound, ClaudeTried, EvaluateClaude, Reselect, OthersCooling;
    if ShouldRotateClaude(trigger) {
      var x := ClaudeRound(r, trigger, message, refreshed, w, time);
      if !x.goes {
        RoundFails(r, trigger, message, refreshed, w, time);
      } else {
        var outcome := Answer(w, k, EvaluateClaude);
        if k < |w.answers| && outcome.Again? {
          ClaudeFails(ClaudeTried(x.ring, outcome, w.clock(x.time)), outcome.reason, outcome.retryAt, x.refreshed,
                      w, k + 1, x.time + 1);
        } else if k < |w.answers| {
          Evaluated(w.answers[k]);
        }
      }
    }
  }

  /** The same for the Codex loop. */
  lemma {:induction false} CodexFails(r: Ring, message: Option<int>, w: World, k: nat, time: nat)
    requires r.Valid() && k <= |w.answers|
    ensures var run := CodexRun(r, message, w, k, time);
            && !run.outcome.Again?
            && (run.outcome.Pending? ==> k + |run.tried| == |w.answers| + 1)
            && (!run.outcome.Pending? ==> k + |run.tried| <= |w.answers|)
            && (run.outcome.Success? ==> run.tried != []
                                         && run.outcome == EvaluateCodex(w.answers[k + |run.tried| - 1]))
            && (run.outcome.Failure? ==>
                  || (run.tried != [] && run.outcome == EvaluateCodex(w.answers[k + |run.tried| - 1]))
                  || OthersCooling(run.ring, w))
    decreases |w.answers| - k
  {
    hide EvaluateCodex, Rotate, CooldownUntil;
    var (r1, rotated) := Rotate(r, CooldownUntil(message, w.clock(time)), w.clock(time + 1));
    if !rotated {
      NotRotated(r, CooldownUntil(message, w.clock(time)), w.clock(time + 1));
      assert OthersCooled(r1, w.clock(time + 1));
    } else if k < |w.answers| {
      Evaluated(w.answers[k]);
      var outcome := EvaluateCodex(w.answers[k]);
      if outcome.Again? { CodexFails(r1, outcome.retryAt, w, k + 1, time + 2); }
    }
  }

  // ----- each answer has its own say -----

  /** Every attempt but the last asked for another token for a reason that rotation is
      for, and the last one decides: a failure passes its own on, or the reason it
      asked for another. */
  lemma {:induction false} ClaudeAnswers(r: Ring, trigger: Reason, message: Option<int>, refreshed: set<nat>,
                                         w: World, k: nat, time: nat)
    requires r.Valid() && k <= |w.answers|
    ensures var run := ClaudeRun(r, trigger, message, refreshed, w, k, time);
            && k + |run.tried| <= |w.answers| + 1
            && (forall i :: k <= i < k + |run.tried| - 1 ==>
                  EvaluateClaude(w.answers[i]).Again? && ShouldRotateClaude(EvaluateClaude(w.answers[i]).reason))
            && if run.tried == [] then run.outcome == Failure(Some(trigger))
               else if k + |run.tried| == |w.answers| + 1 then run.outcome.Pending?
               else match EvaluateClaude(w.answers[k + |run.tried| - 1])
                    case Again(reason, _) => run.outcome == Failure(Some(reason))
                    case last => run.outcome == last
    decreases |w.answers| - k
  {
    hide ClaudeRound, ClaudeTried, EvaluateClaude, Reselect;
    if ShouldRotateClaude(trigger) {
      var x := ClaudeRound(r, trigger, message, refreshed, w, time);
      var outcome := Answer(w, k, EvaluateClaude);
      if x.goes && k < |w.answers| && outcome.Again? {
        ClaudeAnswers(ClaudeTried(x.ring, outcome, w.clock(x.time)), outcome.reason, outcome.retryAt, x.refreshed,
                      w, k + 1, x.time + 1);
        if !ShouldRotateClaude(outcome.reason) {
          assert ClaudeRun(ClaudeTried(x.ring, outcome, w.clock(x.time)), outcome.reason, outcome.retryAt,
                           x.refreshed, w, k + 1, x.time + 1).tried == [];
        }
      }
    }
  }

  lemma {:induction false} CodexAnswers(r: Ring, message: Option<int>, w: World, k: nat, time: nat)
    requires r.Valid() && k <= |w.answers|
    ensures var run := CodexRun(r, message, w, k, time);
            && k + |run.tried| <= |w.answers| + 1
            && (forall i :: k <= i < k + |run.tried| - 1 ==> EvaluateCodex(w.answers[i]).Again?)
            && if run.tried == [] then run.outcome == Failure(None)
               else if k + |run.tried| == |w.answers| + 1 then run.outcome.Pending?
               else match EvaluateCodex(w.answers[k + |run.tried| - 1])
                    case Again(_, _) => run.outcome == Failure(None)
                    case last => run.outcome == last
    decreases |w.answers| - k
  {
    hide EvaluateCodex, Rotate, CooldownUntil;
    var (r1, rotated) := Rotate(r, CooldownUntil(message, w.clock(time)), w.clock(time + 1));
    if rotated && k < |w.answers| && EvaluateCodex(w.answers[k]).Again? {
      CodexAnswers(r1, EvaluateCodex(w.answers[k]).retryAt, w, k + 1, time + 2);
    }
  }

  /** A success leaves the token that had it current and usable at any time. */
  lemma {:induction false} ClaudeHeals(r: Ring, trigger: Reason, message: Option<int>, refreshed: set<nat>,
                                       w: World, k: nat, time: nat, later: int)
    requires r.Valid() && k <= |w.answers|
    ensures var run := ClaudeRun(r, trigger, message, refreshed, w, k, time);
            run.outcome.Success? ==> run.tried != [] && run.ring.Usable(run.tried[|run.tried| - 1], later)
    decreases |w.answers| - k
  {
    hide ClaudeRound, ClaudeTried, EvaluateClaude, Reselect;
    if ShouldRotateClaude(trigger) {
      var x := ClaudeRound(r, trigger, message, refreshed, w, time);
      var outcome := Answer(w, k, EvaluateClaude);
      if x.goes {
        GoesOnSome(r, trigger, message, refreshed, w, time);
        if outcome.Success? { TriedHeals(x.ring, outcome, w.clock(x.time), later); }
        if k < |w.answers| && outcome.Again? {
          ClaudeHeals(ClaudeTried(x.ring, outcome, w.clock(x.time)), outcome.reason, outcome.retryAt, x.refreshed,
                      w, k + 1, x.time + 1, later);
        }
      }
    }
  }

  /** The token whose answer asked for another cools down until the time that answer
      names: as far as a run has come that waits for the answer after it. */
  lemma ClaudeCools(r: Ring, trigger: Reason, message: Option<int>, refreshed: set<nat>, w: World, k: nat, time: nat)
    requires r.Valid() && k + 1 == |w.answers| && EvaluateClaude(w.answers[k]).Again?
    requires EvaluateClaude(w.answers[k]).reason in {RateLimited, UsageExhausted, OrgAccessDenied}
    requires |ClaudeRun(r, trigger, message, refreshed, w, k, time).tried| == 2
    ensures var run, from := ClaudeRun(r, trigger, message, refreshed, w, k, time),
                             ClaudeRound(r, trigger, message, refreshed, w, time).time;
            var until := Some(CooldownUntil(w.answers[k].retryAt, w.clock(from + 1)));
            && run.outcome.Pending? && run.tried[0] < |run.ring.until|
            && (Cooled(until, w.clock(from + 3)) ==>
                  run.ring.until[run.tried[0]] == until && run.tried[1] != run.tried[0])
  {
    hide ClaudeRound, Reselect, EvaluateClaude, CooldownUntil, Rotate;
    KeepsMessage(w.answers[k]);
    var x := ClaudeRound(r, trigger, message, refreshed, w, time);
    var r1 := Reselect(x.ring, w.clock(x.time));
    var trigger1, message1 := EvaluateClaude(w.answers[k]).reason, w.answers[k].retryAt;
    RoundIs(r1, trigger1, message1, x.refreshed, w, x.time + 1);
    var x1 := ClaudeRound(r1, trigger1, message1, x.refreshed, w, x.time + 1);
    assert ClaudeRun(r1, trigger1, message1, x.refreshed, w, k + 1, x.time + 1)
           == Run(Pending, [Reselect(x1.ring, w.clock(x1.time)).current], Reselect(x1.ring, w.clock(x1.time)));
    RotatesExactly(r1, CooldownUntil(message1, w.clock(x.time + 1)), w.clock(x.time + 2));
    ReselectKeeps(x1.ring, w.clock(x1.time));
  }

  lemma GoesOnSome(r: Ring, trigger: Reason, message: Option<int>, refreshed: set<nat>, w: World, time: nat)
    requires r.Valid() && ClaudeRound(r, trigger, message, refreshed, w, time).goes
    ensures r.until != []
  {
  }

  lemma TriedHeals(r: Ring, outcome: Outcome, now: int, later: int)
    requires r.Valid() && r.until != [] && outcome.Success?
    ensures ClaudeTried(r, outcome, now).Usable(Reselect(r, now).current, later)
  {
    var r1 := Reselect(r, now);
    HealedIsUsable(r1, later);
    if |r.until| > 1 { ReselectPrefersFirst(Healed(r1), now); }
    hide Reselect, Healed;
  }

  /** An account keeps its cooldown while it is neither left nor tried. */
  lemma {:induction false} CodexKeeps(r: Ring, message: Option<int>, w: World, k: nat, time: nat, j: nat)
    requires r.Valid() && k <= |w.answers| && j < |r.until| && j != r.current
    requires j !in CodexRun(r, message, w, k, time).tried
    ensures CodexRun(r, message, w, k, time).ring.until[j] == r.until[j]
    decreases |w.answers| - k
  {
    hide EvaluateCodex, CooldownUntil;
    var (r1, rotated) := Rotate(r, CooldownUntil(message, w.clock(time)), w.clock(time + 1));
    if rotated && k < |w.answers| && EvaluateCodex(w.answers[k]).Again? {
      CodexKeeps(r1, EvaluateCodex(w.answers[k]).retryAt, w, k + 1, time + 2, j);
    }
  }

  /** The account of the i-th attempt ends cooling down until the time its answer names. */
  predicate EndsCooling(run: Run, i: nat, w: World, k: nat, time: nat)
    requires i < |run.tried| && k + i < |w.answers|
  {
    && run.tried[i] < |run.ring.until|
    && run.ring.until[run.tried[i]] == Some(CooldownUntil(w.answers[k + i].retryAt, w.clock(time + 2 * (i + 1))))
  }

  /** Where no account is tried twice, each that failed ends cooling down until the
      time its own message names: the first until that of the trouble handed on, the
      i-th tried until that of its answer. */
  lemma {:induction false} CodexCools(r: Ring, message: Option<int>, w: World, k: nat, time: nat)
    requires r.Valid() && k <= |w.answers| && |r.until| > 1
    requires NewOnce(CodexRun(r, message, w, k, time).tried, {r.current})
    ensures var run := CodexRun(r, message, w, k, time);
            && run.ring.until[r.current] == Some(CooldownUntil(message, w.clock(time)))
            && forall i :: 0 <= i < |run.tried| && k + i < |w.answers| && EvaluateCodex(w.answers[k + i]).Again? ==>
                 EndsCooling(run, i, w, k, time)
    decreases |w.answers| - k
  {
    hide *;
    var (r1, rotated) := Rotate(r, CooldownUntil(message, w.clock(time)), w.clock(time + 1));
    if rotated && k < |w.answers| && EvaluateCodex(w.answers[k]).Again? {
      var message1 := w.answers[k].retryAt;
      CodexStep(r, message, w, k, time);
      var run, rest := CodexRun(r, message, w, k, time), CodexRun(r1, message1, w, k + 1, time + 2);
      TriedOnce(r1.current, rest.tried, r.current);
      CodexCools(r1, message1, w, k + 1, time + 2);
      CodexKeeps(r1, message1, w, k + 1, time + 2, r.current);
      forall i | 0 <= i < |run.tried| && k + i < |w.answers| && EvaluateCodex(w.answers[k + i]).Again?
        ensures EndsCooling(run, i, w, k, time)
      {
        if i == 0 { CoolingFirst(run, r1.current, w, k, time); } else { CoolingNext(run, rest, i, w, k, time); }
      }
    } else {
      CodexLast(r, message, w, k, time);
    }
  }

  /** One attempt, and the rest of the run. */
  lemma CodexStep(r: Ring, message: Option<int>, w: World, k: nat, time: nat)
    requires r.Valid() && k < |w.answers| && EvaluateCodex(w.answers[k]).Again?
    requires Rotate(r, CooldownUntil(message, w.clock(time)), w.clock(time + 1)).1
    ensures var r1 := Rotate(r, CooldownUntil(message, w.clock(time)), w.clock(time + 1)).0;
            var run, rest := CodexRun(r, message, w, k, time), CodexRun(r1, w.answers[k].retryAt, w, k + 1, time + 2);
            && run.tried == [r1.current] + rest.tried && run.ring == rest.ring
            && r.current < |r.until| == |run.ring.until| && r1.current < |r.until|
            && r1.until[r.current] == Some(CooldownUntil(message, w.clock(time)))
  {
    hide EvaluateCodex, CooldownUntil, CodexRun;
    KeepsMessage(w.answers[k]);
    RotatesExactly(r, CooldownUntil(message, w.clock(time)), w.clock(time + 1));
    RunsOn(r, message, w, k, time);
  }

  lemma RunsOn(r: Ring, message: Option<int>, w: World, k: nat, time: nat)
    requires r.Valid() && k < |w.answers| && EvaluateCodex(w.answers[k]).Again?
    requires Rotate(r, CooldownUntil(message, w.clock(time)), w.clock(time + 1)).1
    ensures var r1 := Rotate(r, CooldownUntil(message, w.clock(time)), w.clock(time + 1)).0;
            CodexRun(r, message, w, k, time)
            == CodexRun(r1, EvaluateCodex(w.answers[k]).retryAt, w, k + 1, time + 2).After([r1.current])
  {
    hide EvaluateCodex, CooldownUntil, Rotate, Run.After;
  }

  lemma CodexLast(r: Ring, message: Option<int>, w: World, k: nat, time: nat)
    requires r.Valid() && k <= |w.answers| && |r.until| > 1
    requires !Rotate(r, CooldownUntil(message, w.clock(time)), w.clock(time + 1)).1
             || k == |w.answers| || !EvaluateCodex(w.answers[k]).Again?
    ensures var run := CodexRun(r, message, w, k, time);
            && |run.tried| <= 1 && (run.tried != [] && k < |w.answers| ==> !EvaluateCodex(w.answers[k]).Again?)
            && run.ring.until[r.current] == Some(CooldownUntil(message, w.clock(time)))
  {
    hide EvaluateCodex, CooldownUntil;
    RotatesExactly(r, CooldownUntil(message, w.clock(time)), w.clock(time + 1));
  }

  lemma CoolingFirst(run: Run, current: nat, w: World, k: nat, time: nat)
    requires run.tried != [] && run.tried[0] == current < |run.ring.until| && k < |w.answers|
    requires run.ring.until[current] == Some(CooldownUntil(w.answers[k].retryAt, w.clock(time + 2)))
    ensures EndsCooling(run, 0, w, k, time)
  {
  }

  lemma CoolingNext(run: Run, rest: Run, i: nat, w: World, k: nat, time: nat)
    requires i > 0 && run.tried != [] && run.tried[1..] == rest.tried && run.ring == rest.ring
    requires i < |run.tried| && k + i < |w.answers| && EndsCooling(rest, i - 1, w, k + 1, time + 2)
    ensures EndsCooling(run, i, w, k, time)
  {
  }

  lemma TriedOnce(first: nat, rest: seq<nat>, from: nat)
    requires NewOnce([first] + rest, {from})
    ensures NewOnce(rest, {first}) && from !in rest && from != first
  {
    assert ([first] + rest)[0] == first;
    forall i | 0 <= i < |rest|
      ensures rest[i] != first && rest[i] != from
    {
      assert ([first] + rest)[i + 1] == rest[i];
    }
    forall i, j | 0 <= i < j < |rest|
      ensures rest[i] != rest[j]
    {
      assert ([first] + rest)[i + 1] == rest[i] && ([first] + rest)[j + 1] == rest[j];
    }
  }

  lemma Evaluated(a: Attempt)
    ensures !EvaluateClaude(a).Pending? && !EvaluateCodex(a).Pending?
  {
  }

  lemma RoundFails(r: Ring, trigger: Reason, message: Option<int>, refreshed: set<nat>, w: World, time: nat)
    requires r.Valid() && !ClaudeRound(r, trigger, message, refreshed, w, time).goes
    ensures OthersCooling(ClaudeRound(r, trigger, message, refreshed, w, time).ring, w)
  {
    var looks := trigger == AuthExpired;
    var r1, t1 := if looks then Reselect(r, w.clock(time)) else r, if looks then time + 1 else time;
    NotRotated(r1, CooldownUntil(message, w.clock(t1)), w.clock(t1 + 1));
    hide Rotate, Reselect;
  }

  lemma NotRotated(r: Ring, cooldown: int, now: int)
    requires r.Valid() && !Rotate(r, cooldown, now).1
    ensures OthersCooled(Rotate(r, cooldown, now).0, now)
  {
    RotatesExactly(r, cooldown, now);
    forall j: nat | j != Rotate(r, cooldown, now).0.current
      ensures !Rotate(r, cooldown, now).0.Usable(j, now)
    {
      assert !r.Usable(j, now);
    }
  }

  // ----- runs without end -----

  /** Every attempt ends the same way. */
  ghost predicate Same(w: World, a: Attempt) {
    forall k :: 0 <= k < |w.answers| ==> w.answers[k] == a
  }

  /** Another entry than the current one is usable. */
  ghost predicate OtherUsable(r: Ring, now: int) {
    exists j :: r.Usable(j, now) && j != r.current
  }

  /** A cooldown leaves the entry usable once it is over; the other one is at once. */
  lemma OverSoon(r: Ring, cooldown: int, now: int, later: int)
    requires r.Valid() && OtherUsable(r, now) && cooldown <= later
    ensures var (r', rotated) := Rotate(r, cooldown, now);
            rotated && r'.Usable(r.current, later) && r'.Usable(r'.current, later) && r'.current != r.current
  {
    RotatesExactly(r, cooldown, now);
  }

  /** When each cooldown is over by the next rotation the accounts are tried for
      as long as they answer alike. */
  lemma {:induction false} CodexEndless(r: Ring, a: Attempt, w: World, k: nat, time: nat)
    requires r.Valid() && k <= |w.answers| && Same(w, a) && EvaluateCodex(a).Again?
    requires OtherUsable(r, w.clock(time + 1))
    requires forall t: nat :: CooldownUntil(a.retryAt, w.clock(t)) <= w.clock(t + 3)
    ensures CodexRun(r, a.retryAt, w, k, time).outcome.Pending?
    ensures |CodexRun(r, a.retryAt, w, k, time).tried| == |w.answers| - k + 1
    decreases |w.answers| - k
  {
    hide Rotate, CooldownUntil, EvaluateCodex;
    OverSoon(r, CooldownUntil(a.retryAt, w.clock(time)), w.clock(time + 1), w.clock(time + 3));
    KeepsMessage(a);
    var r1 := Rotate(r, CooldownUntil(a.retryAt, w.clock(time)), w.clock(time + 1)).0;
    assert OtherUsable(r1, w.clock(time + 3));
    if k < |w.answers| {
      CodexEndless(r1, a, w, k + 1, time + 2);
    }
  }

  /** Two entries are usable. */
  ghost predicate TwoUsable(r: Ring, now: int) {
    exists i, j :: r.Usable(i, now) && r.Usable(j, now) && i != j
  }

  lemma TwoLeaveOne(r: Ring, now: int)
    requires TwoUsable(r, now)
    ensures OtherUsable(r, now)
  {
    var i, j :| r.Usable(i, now) && r.Usable(j, now) && i != j;
    assert i != r.current || j != r.current;
  }

  lemma ReselectLeavesTwo(r: Ring, now: int)
    requires r.Valid() && TwoUsable(r, now)
    ensures TwoUsable(Reselect(r, now), now)
  {
    var i, j :| r.Usable(i, now) && r.Usable(j, now) && i != j;
    ReselectKeeps(r, now);
    assert Reselect(r, now).Usable(i, now) && Reselect(r, now).Usable(j, now);
  }

  /** Usable entries stay so while the clock goes on. */
  lemma StillTwo(r: Ring, now: int, later: int)
    requires TwoUsable(r, now) && now <= later
    ensures TwoUsable(r, later)
  {
    var i, j :| r.Usable(i, now) && r.Usable(j, now) && i != j;
    assert r.Usable(i, later) && r.Usable(j, later);
  }

  /** The clock does not go back, and each cooldown is over by the attempt after it. */
  ghost predicate OverByAttempt(w: World, message: Option<int>) {
    && (forall s: nat, t: nat :: s <= t ==> w.clock(s) <= w.clock(t))
    && forall t: nat :: CooldownUntil(message, w.clock(t)) <= w.clock(t + 2)
  }

  /** A round that rotates leaves two entries usable for the attempt. */
  lemma RotationGoesOn(r: Ring, trigger: Reason, message: Option<int>, refreshed: set<nat>, w: World, time: nat)
    requires r.Valid() && OverByAttempt(w, message)
    requires var (r1, t1) := Looked(r, trigger, w, time); OtherUsable(r1, w.clock(t1 + 1))
    requires ClaudeRound(r, trigger, message, refreshed, w, time).time == Looked(r, trigger, w, time).1 + 2
    ensures var x := ClaudeRound(r, trigger, message, refreshed, w, time);
            x.goes && TwoUsable(Reselect(x.ring, w.clock(x.time)), w.clock(x.time))
  {
    hide ClaudeRound, Reselect, CooldownUntil;
    RoundIs(r, trigger, message, refreshed, w, time);
    var (r1, t1) := Looked(r, trigger, w, time);
    OverSoon(r1, CooldownUntil(message, w.clock(t1)), w.clock(t1 + 1), w.clock(t1 + 2));
    var r2 := Rotate(r1, CooldownUntil(message, w.clock(t1)), w.clock(t1 + 1)).0;
    assert TwoUsable(r2, w.clock(t1 + 2));
    ReselectLeavesTwo(r2, w.clock(t1 + 2));
    hide Rotate, TwoUsable;
  }

  lemma RoundGoesOn(r: Ring, trigger: Reason, message: Option<int>, refreshed: set<nat>, w: World, time: nat)
    requires r.Valid() && OverByAttempt(w, message) && TwoUsable(r, w.clock(time))
    ensures var x := ClaudeRound(r, trigger, message, refreshed, w, time);
            x.goes && TwoUsable(Reselect(x.ring, w.clock(x.time)), w.clock(x.time))
  {
    hide ClaudeRound, Reselect, CooldownUntil, Rotate;
    RoundIs(r, trigger, message, refreshed, w, time);
    ReselectLeavesTwo(r, w.clock(time));
    var x := ClaudeRound(r, trigger, message, refreshed, w, time);
    var (r1, t1) := Looked(r, trigger, w, time);
    StillTwo(r1, w.clock(time), w.clock(t1));
    if x.time == t1 {
      ReselectLeavesTwo(r1, w.clock(t1));
    } else {
      StillTwo(r1, w.clock(t1), w.clock(t1 + 1));
      TwoLeaveOne(r1, w.clock(t1 + 1));
      RotationGoesOn(r, trigger, message, refreshed, w, time);
    }
    hide TwoUsable;
  }

  /** The same for Claude, forced refreshes included. */
  lemma {:induction false} ClaudeEndless(r: Ring, a: Attempt, w: World, refreshed: set<nat>, k: nat, time: nat)
    requires r.Valid() && k <= |w.answers| && Same(w, a) && OverByAttempt(w, a.retryAt)
    requires EvaluateClaude(a).Again? && ShouldRotateClaude(EvaluateClaude(a).reason)
    requires TwoUsable(r, w.clock(time))
    ensures var run := ClaudeRun(r, EvaluateClaude(a).reason, a.retryAt, refreshed, w, k, time);
            run.outcome.Pending? && |run.tried| == |w.answers| - k + 1
    decreases |w.answers| - k
  {
    hide ClaudeRound, ClaudeRun, Reselect, CooldownUntil, TwoUsable, EvaluateClaude, OverByAttempt;
    RoundGoesOn(r, EvaluateClaude(a).reason, a.retryAt, refreshed, w, time);
    var x := ClaudeRound(r, EvaluateClaude(a).reason, a.retryAt, refreshed, w, time);
    ClaudeStep(r, a, refreshed, w, k, time);
    if k < |w.answers| {
      GoesOnTwo(Reselect(x.ring, w.clock(x.time)), a.retryAt, w, x.time);
      ClaudeEndless(Reselect(x.ring, w.clock(x.time)), a, w, x.refreshed, k + 1, x.time + 1);
    }
  }

  lemma GoesOnTwo(r: Ring, message: Option<int>, w: World, time: nat)
    requires TwoUsable(r, w.clock(time)) && OverByAttempt(w, message)
    ensures TwoUsable(r, w.clock(time + 1))
  {
    StillTwo(r, w.clock(time), w.clock(time + 1));
  }

  /** The first attempt, and the rest of the run. */
  lemma ClaudeStep(r: Ring, a: Attempt, refreshed: set<nat>, w: World, k: nat, time: nat)
    requires r.Valid() && k <= |w.answers| && Same(w, a)
    requires EvaluateClaude(a).Again? && ShouldRotateClaude(EvaluateClaude(a).reason)
    requires ClaudeRound(r, EvaluateClaude(a).reason, a.retryAt, refreshed, w, time).goes
    ensures var run := ClaudeRun(r, EvaluateClaude(a).reason, a.retryAt, refreshed, w, k, time);
            var x := ClaudeRound(r, EvaluateClaude(a).reason, a.retryAt, refreshed, w, time);
            var r' := Reselect(x.ring, w.clock(x.time));
            if k == |w.answers| then run.outcome.Pending? && |run.tried| == 1
            else var rest := ClaudeRun(r', EvaluateClaude(a).reason, a.retryAt, x.refreshed, w, k + 1, x.time + 1);
                 run.outcome == rest.outcome && |run.tried| == 1 + |rest.tried|
  {
    hide ClaudeRound, Reselect, EvaluateClaude;
    KeepsMessage(a);
  }

  /** One other entry is enough to start with, unless the first round refreshes. */
  lemma FirstRound(r: Ring, trigger: Reason, message: Option<int>, w: World)
    requires r.Valid() && OverByAttempt(w, message) && !w.refreshes(0)
    requires var (r1, t1) := Looked(r, trigger, w, 0); OtherUsable(r1, w.clock(t1 + 1))
    ensures var x := ClaudeRound(r, trigger, message, {}, w, 0);
            x.goes && TwoUsable(Reselect(x.ring, w.clock(x.time)), w.clock(x.time + 1))
  {
    var x := ClaudeRound(r, trigger, message, {}, w, 0);
    hide *;
    RoundIs(r, trigger, message, {}, w, 0);
    RotationGoesOn(r, trigger, message, {}, w, 0);
    GoesOnTwo(Reselect(x.ring, w.clock(x.time)), message, w, x.time);
  }

  lemma ClaudeGoesOn(r: Ring, a: Attempt, w: World)
    requires r.Valid() && Same(w, a) && OverByAttempt(w, a.retryAt) && !w.refreshes(0)
    requires EvaluateClaude(a).Again? && ShouldRotateClaude(EvaluateClaude(a).reason)
    requires var (r1, t1) := Looked(r, EvaluateClaude(a).reason, w, 0); OtherUsable(r1, w.clock(t1 + 1))
    ensures |ClaudeRun(r, EvaluateClaude(a).reason, a.retryAt, {}, w, 0, 0).tried| == |w.answers| + 1
  {
    hide *;
    var x := ClaudeRound(r, EvaluateClaude(a).reason, a.retryAt, {}, w, 0);
    FirstRound(r, EvaluateClaude(a).reason, a.retryAt, w);
    ClaudeStep(r, a, {}, w, 0, 0);
    if |w.answers| > 0 {
      ClaudeEndless(Reselect(x.ring, w.clock(x.time)), a, w, x.refreshed, 1, x.time + 1);
    }
  }

  // ----- a clock that stands still -----

  /** Every attempt ends the same way, at the same time; no refresh helps. */
  function Steady(a: Attempt, now: int, n: nat): World {
    World(seq(n, _ => a), _ => now, _ => false)
  }

  ghost predicate CodexWithin(r: Ring, a: Attempt, now: int, bound: nat)
    requires r.Valid()
  {
    forall n: nat :: |CodexRun(r, a.retryAt, Steady(a, now, n), 0, 0).tried| <= bound
  }

  /** With every attempt asking for another while the clock stands still, the Codex
      loop ends if and only if the message's cooldown is still running, or nothing
      else was usable. */
  lemma CodexEndsExactly(r: Ring, a: Attempt, now: int)
    requires r.Valid() && 0 <= now && EvaluateCodex(a).Again?
    ensures (exists bound: nat :: CodexWithin(r, a, now, bound)) <==>
            CooldownUntil(a.retryAt, now) > now || !OtherUsable(r, now)
  {
    if !OtherUsable(r, now) {
      RotatesExactly(r, CooldownUntil(a.retryAt, now), now);
      assert CodexWithin(r, a, now, 0);
    } else if CooldownUntil(a.retryAt, now) > now {
      forall n: nat
        ensures |CodexRun(r, a.retryAt, Steady(a, now, n), 0, 0).tried| <= CodexBound(|r.until|)
      {
        CodexOutlasts(r, a.retryAt, Steady(a, now, n), 0, 0, now);
      }
      assert CodexWithin(r, a, now, CodexBound(|r.until|));
    } else {
      forall bound: nat
        ensures !CodexWithin(r, a, now, bound)
      {
        CodexEndless(r, a, Steady(a, now, bound), 0, 0);
      }
    }
  }

  ghost predicate ClaudeWithin(r: Ring, a: Attempt, now: int, bound: nat)
    requires r.Valid() && EvaluateClaude(a).Again?
  {
    forall n: nat :: |ClaudeRun(r, EvaluateClaude(a).reason, a.retryAt, {}, Steady(a, now, n), 0, 0).tried| <= bound
  }

  /** With no other token usable, or trouble that rotation is not for, there is no attempt. */
  lemma NoClaudeAttempt(r: Ring, a: Attempt, now: int, n: nat)
    requires r.Valid() && EvaluateClaude(a).Again?
    requires !ShouldRotateClaude(EvaluateClaude(a).reason)
             || !OtherUsable(Looked(r, EvaluateClaude(a).reason, Steady(a, now, 0), 0).0, now)
    ensures ClaudeRun(r, EvaluateClaude(a).reason, a.retryAt, {}, Steady(a, now, n), 0, 0).tried == []
  {
    hide ClaudeRound, ClaudeTried, Reselect, CooldownUntil, EvaluateClaude, Rotate;
    var w, trigger := Steady(a, now, n), EvaluateClaude(a).reason;
    RoundIs(r, trigger, a.retryAt, {}, w, 0);
    var r1 := Looked(r, trigger, w, 0).0;
    RotatesExactly(r1, CooldownUntil(a.retryAt, now), now);
  }

  /** The same for the Claude loop: it ends if and only if the message's cooldown is
      still running, rotation is not meant for the trouble, or nothing else is usable
      once a round for an expired login has looked at the tokens. */
  lemma ClaudeEndsExactly(r: Ring, a: Attempt, now: int)
    requires r.Valid() && 0 <= now && EvaluateClaude(a).Again?
    ensures (exists bound: nat :: ClaudeWithin(r, a, now, bound)) <==>
            || CooldownUntil(a.retryAt, now) > now
            || !ShouldRotateClaude(EvaluateClaude(a).reason)
            || !OtherUsable(if EvaluateClaude(a).reason == AuthExpired then Reselect(r, now) else r, now)
  {
    var r1 := if EvaluateClaude(a).reason == AuthExpired then Reselect(r, now) else r;
    assert r1 == Looked(r, EvaluateClaude(a).reason, Steady(a, now, 0), 0).0;
    hide EvaluateClaude, Reselect, OtherUsable, CooldownUntil;
    if !ShouldRotateClaude(EvaluateClaude(a).reason) || !OtherUsable(r1, now) {
      forall n: nat
        ensures |ClaudeRun(r, EvaluateClaude(a).reason, a.retryAt, {}, Steady(a, now, n), 0, 0).tried| <= 0
      {
        NoClaudeAttempt(r, a, now, n);
      }
      assert ClaudeWithin(r, a, now, 0);
    } else if CooldownUntil(a.retryAt, now) > now {
      forall n: nat
        ensures |ClaudeRun(r, EvaluateClaude(a).reason, a.retryAt, {}, Steady(a, now, n), 0, 0).tried|
                <= ClaudeBound(|r.until|)
      {
        SteadyOutlasts(a, now, n);
        ClaudeOutlasts(r, EvaluateClaude(a).reason, a.retryAt, Steady(a, now, n), 0, 0, now);
      }
      assert ClaudeWithin(r, a, now, ClaudeBound(|r.until|));
    } else {
      forall bound: nat
        ensures !ClaudeWithin(r, a, now, bound)
      {
        ClaudeGoesOn(r, a, Steady(a, now, bound));
      }
    }
  }

  lemma SteadyOutlasts(a: Attempt, now: int, n: nat)
    requires 0 <= now < CooldownUntil(a.retryAt, now)
    ensures Outlasts(Steady(a, now, n), now) && MessageOutlasts(a.retryAt, now)
  {
  }

  // ----- a clock that moves -----

  /** Ten milliseconds from one reading to the next, the first a millisecond before
      the cooldown named by every answer is over. */
  function Moving(a: Attempt, n: nat): World
    requires a.retryAt.Some?
  {
    World(seq(n, _ => a), (t: nat) => a.retryAt.value + BUFFER_MS - 1 + 10 * t, _ => false)
  }

  const TwoFree := Ring([None, None], 0)

  /** Two accounts, a cooldown that is running when it is set: no end all the same. */
  lemma CodexPassesBound(a: Attempt, n: nat)
    requires EvaluateCodex(a).Again? && a.retryAt.Some? && a.retryAt.value > 0
    ensures var w := Moving(a, n);
            && CooldownUntil(a.retryAt, w.clock(0)) > w.clock(0)
            && |CodexRun(TwoFree, a.retryAt, w, 0, 0).tried| == n + 1
  {
    var w := Moving(a, n);
    assert TwoFree.Usable(1, w.clock(1));
    CodexEndless(TwoFree, a, w, 0, 0);
  }

  /** Two tokens, the same. */
  lemma ClaudePassesBound(a: Attempt, n: nat)
    requires EvaluateClaude(a).Again? && ShouldRotateClaude(EvaluateClaude(a).reason)
    requires a.retryAt.Some? && a.retryAt.value > 0
    ensures var w := Moving(a, n);
            && CooldownUntil(a.retryAt, w.clock(0)) > w.clock(0)
            && |ClaudeRun(TwoFree, EvaluateClaude(a).reason, a.retryAt, {}, w, 0, 0).tried| == n + 1
  {
    var w := Moving(a, n);
    assert TwoFree.Usable(0, w.clock(0)) && TwoFree.Usable(1, w.clock(0));
    ClaudeEndless(TwoFree, a, w, {}, 0, 0);
  }
}
