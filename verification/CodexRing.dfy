/** The Codex accounts: rotation on trouble, round-robin after success, and
    turning away from an account whose weekly allowance is used up. */
module CodexRing {
  import opened Common
  import opened TokenRing

  predicate Healthy(until: Option<int>, weekly: Option<real>, now: int) {
    !Cooled(until, now) && (weekly.None? || weekly.value < 100.0)
  }

  function AllHealthy(until: seq<Option<int>>, weekly: seq<Option<real>>, now: int): (usable: seq<bool>)
    requires |until| == |weekly|
    ensures |usable| == |until|
  {
    seq(|until|, i requires 0 <= i < |until| => Healthy(until[i], weekly[i], now))
  }

  predicate NoneBut(usable: seq<bool>, start: nat) {
    forall j :: 0 <= j < |usable| && j != start ==> !usable[j]
  }

  class CodexAccounts {
    var until: seq<Option<int>>
    var weekly: seq<Option<real>>
    var current: nat

    function View(): Ring
      reads this
    {
      Ring(until, current)
    }

    predicate Valid()
      reads this
    {
      |until| == |weekly| && View().Valid()
    }

    constructor (count: nat)
      ensures Valid() && until == seq(count, _ => None) && current == 0
    {
      until, weekly, current := seq(count, _ => None), seq(count, _ => None), 0;
    }

    method RotateCodexToken(retryAt: Option<int>, cooledAt: int, now: int) returns (rotated: bool)
      requires Valid()
      modifies this
      ensures Valid() && weekly == old(weekly)
      ensures (View(), rotated) == Rotate(old(View()), CooldownUntil(retryAt, cooledAt), now)
    {
      if |until| <= 1 { return false; }
      until := until[current := Some(CooldownUntil(retryAt, cooledAt))];
      var next := FindFirst(Uncooled(until, now), current);
      if next.None? { return false; }
      until := until[next.value := None];
      current := next.value;
      return true;
    }

    /** The next healthy account, else the next that is at least not cooling down. */
    method FindNextCodexAvailable(start: nat, now: int) returns (next: Option<nat>)
      requires Valid() && start < |until|
      ensures if NoneBut(AllHealthy(until, weekly, now), start) then FirstAfter(Uncooled(until, now), start, next)
              else FirstAfter(AllHealthy(until, weekly, now), start, next)
    {
      next := FindFirst(AllHealthy(until, weekly, now), start);
      if next.Some? { return; }
      next := FindFirst(Uncooled(until, now), start);
    }

    method AdvanceCodexAccount(now: int)
      requires Valid()
      modifies `current
      ensures Valid()
      ensures |until| > 1 && !NoneBut(AllHealthy(until, weekly, now), old(current)) ==>
                FirstAfter(AllHealthy(until, weekly, now), old(current), Some(current))
      ensures |until| > 1 && NoneBut(AllHealthy(until, weekly, now), old(current)) ==>
                FirstAfter(Uncooled(until, now), old(current), if current == old(current) then None else Some(current))
      ensures |until| <= 1 ==> current == old(current)
      // an account that is not cooling and not used up is preferred
      ensures forall j :: 0 <= j < |until| && j != old(current) && !Cooled(until[j], now)
                          && (weekly[j].None? || weekly[j].value < 100.0) ==>
                !Cooled(until[current], now) && (weekly[current].None? || weekly[current].value < 100.0)
    {
      if |until| <= 1 { return; }
      ghost var healthy := AllHealthy(until, weekly, now);
      assert forall j :: 0 <= j < |until| ==> healthy[j] == Healthy(until[j], weekly[j], now);
      var next := FindNextCodexAvailable(current, now);
      if next.Some? { current := next.value; }
    }

    /** Note a usage report; a current account found exhausted is left at once. */
    method UpdateCodexAccountUsage(accountIndex: Option<nat>, weeklyPct: Option<real>, now: int)
      requires Valid()
      modifies `weekly, `current
      ensures Valid()
      ensures var idx := if accountIndex.Some? then accountIndex.value else old(current);
              && weekly == (if idx < |until| && weeklyPct.Some? then old(weekly)[idx := weeklyPct] else old(weekly))
              && (current != old(current) ==> idx == old(current) && weeklyPct.Some? && weeklyPct.value >= 100.0)
              && (idx == old(current) && weeklyPct.Some? && weeklyPct.value >= 100.0 && |until| > 1 ==>
                    if NoneBut(AllHealthy(until, weekly, now), old(current))
                    then FirstAfter(Uncooled(until, now), old(current),
                                    if current == old(current) then None else Some(current))
                    else Healthy(until[current], weekly[current], now)
                         && FirstAfter(AllHealthy(until, weekly, now), old(current), Some(current)))
    {
      if until == [] { return; }
      var idx := if accountIndex.Some? then accountIndex.value else current;
      if idx >= |until| { return; }
      if weeklyPct.Some? { weekly := weekly[idx := weeklyPct]; }
      if idx == current && weeklyPct.Some? && weeklyPct.value >= 100.0 && |until| > 1 {
        var next := FindNextCodexAvailable(idx, now);
        if next.Some? && next.value != idx { current := next.value; }
      }
    }

    method MarkCodexTokenHealthy()
      requires Valid()
      modifies `until
      ensures Valid() && View() == Healed(old(View()))
    {
      if until == [] { return; }
      if until[current].Some? && until[current].value != 0 {
        until := until[current := None];
      }
    }
  }

  // ----- round-robin fairness -----

  /** The accounts used one after the other while the same ones stay healthy. */
  ghost predicate Advances(usable: seq<bool>, used: seq<nat>) {
    && (forall i :: 0 <= i < |used| ==> used[i] < |usable|)
    && (used != [] ==> usable[used[0]])
    && (forall i :: 0 <= i < |used| - 1 ==> FirstAfter(usable, used[i], Some(used[i + 1])))
  }

  ghost function HealthySet(usable: seq<bool>): set<nat> {
    set j: nat | j < |usable| && usable[j]
  }

  /** Those met on the way from `start` up to distance `d`. */
  ghost function Within(usable: seq<bool>, start: nat, d: nat): set<nat>
    requires start < |usable|
  {
    set j: nat | j < |usable| && usable[j] && 0 < Distance(start, j, |usable|) <= d
  }

  /** An advance that does not come back goes further round than `from`. */
  lemma NextIsFurther(usable: seq<bool>, start: nat, from: nat, next: nat)
    requires start < |usable| && from < |usable| && usable[start]
    requires FirstAfter(usable, from, Some(next))
    ensures next != start ==> Distance(start, from, |usable|) < Distance(start, next, |usable|)
  {
  }

  /** With nobody left to meet, the advance comes back. */
  lemma ComesBack(usable: seq<bool>, start: nat, from: nat, next: nat)
    requires start < |usable| && from < |usable| && usable[start]
    requires FirstAfter(usable, from, Some(next))
    requires Within(usable, start, Distance(start, from, |usable|)) == HealthySet(usable) - {start}
    ensures next == start
  {
    var n, d := |usable|, Distance(start, from, |usable|);
    NextIsFurther(usable, start, from, next);
    var e := Distance(start, next, n);
    assert next in Within(usable, start, d) <==> 0 < e <= d;
    assert next in HealthySet(usable) - {start} <==> next != start;
  }

  /** With somebody left to meet, it moves on to the nearest. */
  lemma MovesOn(usable: seq<bool>, start: nat, from: nat, next: nat, j: nat)
    requires start < |usable| && from < |usable| && usable[start]
    requires FirstAfter(usable, from, Some(next))
    requires j < |usable| && usable[j] && Distance(start, j, |usable|) > Distance(start, from, |usable|)
    ensures var n, d := |usable|, Distance(start, from, |usable|);
            d < Distance(start, next, n) &&
            forall k :: 0 <= k < n && usable[k] && d < Distance(start, k, n) ==>
              Distance(start, next, n) <= Distance(start, k, n)
  {
    assert Distance(from, j, |usable|) == Distance(start, j, |usable|) - Distance(start, from, |usable|);
  }

  /** One advance, seen from where the round began. */
  lemma AdvanceFrom(usable: seq<bool>, start: nat, from: nat, next: nat)
    requires start < |usable| && from < |usable| && usable[start]
    requires FirstAfter(usable, from, Some(next))
    ensures var n, d := |usable|, Distance(start, from, |usable|);
            if Within(usable, start, d) == HealthySet(usable) - {start} then next == start
            else d < Distance(start, next, n) &&
                 Within(usable, start, Distance(start, next, n)) == Within(usable, start, d) + {next}
  {
    var n, d := |usable|, Distance(start, from, |usable|);
    if Within(usable, start, d) == HealthySet(usable) - {start} {
      ComesBack(usable, start, from, next);
    } else {
      assert Within(usable, start, d) <= HealthySet(usable) - {start};
      var j :| j in HealthySet(usable) - {start} && j !in Within(usable, start, d);
      MovesOn(usable, start, from, next, j);
      var e := Distance(start, next, n);
      forall k: nat | k < n
        ensures Distance(start, k, n) == e <==> k == next
      {
        assert Step(start, Distance(start, k, n), n) == k && Step(start, e, n) == next;
      }
    }
  }

  /** The accounts used in positions after `p`, up to `q`. */
  ghost function Used(used: seq<nat>, p: nat, q: nat): set<nat> {
    set k: nat | p < k <= q && k < |used| :: used[k]
  }

  lemma UsedNext(used: seq<nat>, p: nat, q: nat)
    requires p <= q && q + 1 < |used|
    ensures Used(used, p, q + 1) == Used(used, p, q) + {used[q + 1]}
    ensures Used(used, p, p) == {}
  {
  }

  lemma {:induction false} RoundSoFar(usable: seq<bool>, used: seq<nat>, i: nat)
    requires Advances(usable, used) && i < |used| && i < |HealthySet(usable)|
    ensures Within(usable, used[0], Distance(used[0], used[i], |usable|)) == Used(used, 0, i)
    ensures |Used(used, 0, i)| == i
    ensures i > 0 ==> used[i] !in Used(used, 0, i - 1) && used[i] != used[0]
  {
    if i == 0 {
      assert Within(usable, used[0], 0) == {} == Used(used, 0, 0);
    } else {
      RoundSoFar(usable, used, i - 1);
      UsedNext(used, 0, i - 1);
      assert |HealthySet(usable) - {used[0]}| == |HealthySet(usable)| - 1;
      assert FirstAfter(usable, used[i - 1], Some(used[i - 1 + 1]));
      hide Within, Used, FirstAfter;
      AdvanceFrom(usable, used[0], used[i - 1], used[i]);
      NotMet(usable, used[0], Distance(used[0], used[i - 1], |usable|), used[i]);
    }
  }

  lemma NotMet(usable: seq<bool>, start: nat, d: nat, j: nat)
    requires start < |usable| && j < |usable| && d < Distance(start, j, |usable|)
    ensures j !in Within(usable, start, d) && j != start
  {
  }

  lemma WithinAreOthers(usable: seq<bool>, start: nat, d: nat)
    requires start < |usable| && usable[start]
    ensures Within(usable, start, d) <= HealthySet(usable) - {start}
    ensures |HealthySet(usable) - {start}| == |HealthySet(usable)| - 1
  {
    assert start in HealthySet(usable);
  }

  /** One advance before the end all others have been used. */
  lemma AllOthersUsed(usable: seq<bool>, used: seq<nat>)
    requires Advances(usable, used) && |used| == |HealthySet(usable)| + 1
    ensures |HealthySet(usable)| > 0
    ensures Used(used, 0, |used| - 2) == HealthySet(usable) - {used[0]}
    ensures Within(usable, used[0], Distance(used[0], used[|used| - 2], |usable|)) == HealthySet(usable) - {used[0]}
  {
    var h := |HealthySet(usable)|;
    assert used[0] in HealthySet(usable);
    RoundSoFar(usable, used, h - 1);
    hide Within, Used, FirstAfter, HealthySet;
    WithinAreOthers(usable, used[0], Distance(used[0], used[h - 1], |usable|));
    FullSubset(Used(used, 0, h - 1), HealthySet(usable) - {used[0]});
  }

  /** After as many advances as there are healthy accounts the round is closed. */
  lemma RoundCloses(usable: seq<bool>, used: seq<nat>)
    requires Advances(usable, used) && |used| == |HealthySet(usable)| + 1
    ensures Used(used, 0, |used| - 1) == HealthySet(usable)
    ensures used[|used| - 1] == used[0]
  {
    AllOthersUsed(usable, used);
    var h := |HealthySet(usable)|;
    UsedNext(used, 0, h - 1);
    assert used[0] in HealthySet(usable);
    assert FirstAfter(usable, used[h - 1], Some(used[h - 1 + 1]));
    hide Within, Used, FirstAfter, HealthySet;
    AdvanceFrom(usable, used[0], used[h - 1], used[h]);
  }

  /** No account comes twice in one round. */
  lemma RoundIsDistinct(usable: seq<bool>, used: seq<nat>, i: nat, k: nat)
    requires Advances(usable, used) && |used| == |HealthySet(usable)| + 1
    requires 1 <= i < k < |used|
    ensures used[i] != used[k]
  {
    if k < |used| - 1 {
      RoundSoFar(usable, used, k);
    } else {
      RoundCloses(usable, used);
      RoundSoFar(usable, used, i);
    }
  }

  lemma {:induction false} FullSubset(a: set<nat>, b: set<nat>)
    requires a <= b && |a| == |b|
    ensures a == b
  {
    if a != b {
      assert exists j :: j in b && j !in a;
      var j :| j in b && j !in a;
      FullSubsetSize(a, b - {j});
    }
  }

  lemma {:induction false} FullSubsetSize(a: set<nat>, b: set<nat>)
    requires a <= b
    ensures |a| <= |b|
  {
    if j :| j in a {
      FullSubsetSize(a - {j}, b - {j});
    }
  }

  lemma {:induction false} HealthyThroughout(usable: seq<bool>, used: seq<nat>, i: nat)
    requires Advances(usable, used) && i < |used|
    ensures usable[used[i]]
  {
    if i > 0 { assert FirstAfter(usable, used[i - 1], Some(used[i - 1 + 1])); }
  }

  /** Fairness: any |H| advances in a row use every healthy account once. */
  lemma RoundRobin(usable: seq<bool>, used: seq<nat>, p: nat)
    requires Advances(usable, used) && p + |HealthySet(usable)| < |used|
    ensures Used(used, p, p + |HealthySet(usable)|) == HealthySet(usable)
    ensures forall i, k :: p < i < k <= p + |HealthySet(usable)| ==> used[i] != used[k]
  {
    var h := |HealthySet(usable)|;
    var round := used[p..p + h + 1];
    HealthyThroughout(usable, used, p);
    forall i | 0 <= i < |round| - 1
      ensures FirstAfter(usable, round[i], Some(round[i + 1]))
    {
      assert FirstAfter(usable, used[p + i], Some(used[p + i + 1]));
    }
    RoundCloses(usable, round);
    forall i, k | p < i < k <= p + h
      ensures used[i] != used[k]
    {
      RoundIsDistinct(usable, round, i - p, k - p);
    }
    assert forall k :: p < k <= p + h ==> used[k] == round[k - p];
    assert forall k :: 1 <= k < |round| ==> round[k] == used[k + p];
    assert Used(used, p, p + h) == Used(round, 0, h);
  }

  lemma AnotherIsHealthy(usable: seq<bool>, start: nat)
    requires |HealthySet(usable)| >= 2
    ensures !NoneBut(usable, start)
  {
    if NoneBut(usable, start) {
      assert HealthySet(usable) <= {start};
      FullSubsetSize(HealthySet(usable), {start});
    }
  }

  /** As many advances as there are healthy accounts: each of them is used once,
      and the ring ends where it began. */
  method AdvanceRound(ring: CodexAccounts, now: int, n: nat) returns (used: seq<nat>)
    requires ring.Valid() && ring.until != []
    requires Healthy(ring.until[ring.current], ring.weekly[ring.current], now)
    requires n == |HealthySet(AllHealthy(ring.until, ring.weekly, now))| >= 2
    modifies ring`current
    ensures ring.Valid() && ring.current == old(ring.current) && |used| == n + 1
    ensures Used(used, 0, |used| - 1) == HealthySet(AllHealthy(ring.until, ring.weekly, now))
    ensures forall i, k :: 1 <= i < k < |used| ==> used[i] != used[k]
  {
    ghost var usable := AllHealthy(ring.until, ring.weekly, now);
    used := [ring.current];
    while |used| < n + 1
      invariant ring.Valid() && 1 <= |used| <= n + 1 && Advances(usable, used)
      invariant used[|used| - 1] == ring.current && used[0] == old(ring.current)
    {
      AnotherIsHealthy(usable, ring.current);
      ghost var before := used;
      ring.AdvanceCodexAccount(now);
      used := used + [ring.current];
      OneAdvance(usable, before, ring.current);
    }
    RoundCloses(usable, used);
    forall i, k | 1 <= i < k < |used| ensures used[i] != used[k] { RoundIsDistinct(usable, used, i, k); }
  }

  lemma OneAdvance(usable: seq<bool>, used: seq<nat>, next: nat)
    requires Advances(usable, used) && used != [] && FirstAfter(usable, used[|used| - 1], Some(next))
    ensures Advances(usable, used + [next])
  {
  }
}
