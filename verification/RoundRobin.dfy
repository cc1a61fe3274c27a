/** Eligibility filtering and round-robin selection (internal/loadbalancer/roundrobin.go). */
module RoundRobins {
  import opened Common

  /** An upstream instance as a selection sees it: its id and the health it reports when asked. */
  datatype Instance = Instance(id: string, healthy: bool)

  // ----- the eligible list -----

  /**
   The instances that are healthy and not skipped; `skipped[i]` is what the caller's filter answers
   for the i-th instance.
   */
  function Filtered(instances: seq<Instance>, skipped: seq<bool>): seq<Instance>
    requires |instances| == |skipped|
  {
    if instances == [] then []
    else
      var n := |instances| - 1;
      Filtered(instances[..n], skipped[..n]) +
      if instances[n].healthy && !skipped[n] then [instances[n]] else []
  }

  predicate Ascending(positions: seq<nat>) {
    forall i, j :: 0 <= i < j < |positions| ==> positions[i] < positions[j]
  }

  /** The positions the filter keeps. */
  function Kept(instances: seq<Instance>, skipped: seq<bool>): seq<nat>
    requires |instances| == |skipped|
  {
    if instances == [] then []
    else
      var n := |instances| - 1;
      Kept(instances[..n], skipped[..n]) + if instances[n].healthy && !skipped[n] then [n] else []
  }

  /** One more position, beyond all others. */
  lemma KeptGrows(before: seq<nat>, n: nat)
    requires Ascending(before) && forall k: nat :: k in before ==> k < n
    ensures Ascending(before + [n]) && forall k: nat :: k in before + [n] <==> k in before || k == n
  {
    forall i | 0 <= i < |before| ensures before[i] < n {
      assert before[i] in before;
    }
  }

  predicate Eligible(instances: seq<Instance>, skipped: seq<bool>, k: nat)
    requires |instances| == |skipped|
  {
    k < |instances| && instances[k].healthy && !skipped[k]
  }

  lemma {:induction false} KeptIsEligible(instances: seq<Instance>, skipped: seq<bool>)
    requires |instances| == |skipped|
    ensures Ascending(Kept(instances, skipped))
    ensures forall k: nat :: k in Kept(instances, skipped) <==> Eligible(instances, skipped, k)
  {
    if instances != [] {
      var n := |instances| - 1;
      var before := Kept(instances[..n], skipped[..n]);
      KeptIsEligible(instances[..n], skipped[..n]);
      forall k: nat | k in before ensures k < n {
        assert Eligible(instances[..n], skipped[..n], k);
      }
      KeptGrows(before, n);
      forall k: nat ensures k in Kept(instances, skipped) <==> Eligible(instances, skipped, k) {
        assert k in before <==> Eligible(instances[..n], skipped[..n], k);
      }
    }
  }

  lemma {:induction false} FilteredAtKept(instances: seq<Instance>, skipped: seq<bool>)
    requires |instances| == |skipped|
    ensures |Kept(instances, skipped)| == |Filtered(instances, skipped)|
    ensures forall i :: 0 <= i < |Kept(instances, skipped)| ==>
      Kept(instances, skipped)[i] < |instances| &&
      Filtered(instances, skipped)[i] == instances[Kept(instances, skipped)[i]]
  {
    if instances != [] {
      var n := |instances| - 1;
      FilteredAtKept(instances[..n], skipped[..n]);
    }
  }

  /** The filter keeps exactly the healthy, unskipped positions, in their order. */
  lemma FilterKeepsOrder(instances: seq<Instance>, skipped: seq<bool>)
    requires |instances| == |skipped|
    ensures var kept, out := Kept(instances, skipped), Filtered(instances, skipped);
            && Ascending(kept) && |kept| == |out|
            && (forall k: nat :: k in kept <==> k < |instances| && instances[k].healthy && !skipped[k])
            && (forall i :: 0 <= i < |kept| ==> kept[i] < |instances| && out[i] == instances[kept[i]])
  {
    KeptIsEligible(instances, skipped);
    FilteredAtKept(instances, skipped);
  }

  // ----- fairness -----

  /** The counter is an unsigned 64-bit integer. */
  const WRAP: nat := 0x1_0000_0000_0000_0000

  /** The position picked from `n` eligible instances by a call that finds the counter at `c`, and what it leaves. */
  function Pick(c: nat, n: nat): (nat, nat)
    requires n > 0
  {
    var next := (c + 1) % WRAP;
    (((next - 1) % WRAP) % n, next)
  }

  /** How often `m` consecutive calls, made by any callers, pick position `i` of `n`. */
  function Times(c: nat, m: nat, n: nat, i: nat): nat
    requires n > 0
    decreases m
  {
    if m == 0 then 0 else (if Pick(c, n).0 == i then 1 else 0) + Times(Pick(c, n).1, m - 1, n, i)
  }

  function FloorDiv(m: nat, n: nat): nat
    requires n > 0
  {
    m / n
  }

  function CeilDiv(m: nat, n: nat): nat
    requires n > 0
  {
    (m + n - 1) / n
  }

  predicate Fair(c: nat, m: nat, n: nat)
    requires n > 0
  {
    forall i :: 0 <= i < n ==> FloorDiv(m, n) <= Times(c, m, n, i) <= CeilDiv(m, n)
  }

  lemma PickIsCounter(c: nat, n: nat)
    requires n > 0 && c < WRAP
    ensures Pick(c, n) == (c % n, (c + 1) % WRAP)
  {
  }

  /** The position picked `k` calls later. */
  function Later(c: nat, k: nat, n: nat): nat
    requires n > 0
  {
    ((c + k) % WRAP) % n
  }

  lemma CounterStep(c: nat, k: nat)
    requires c < WRAP
    ensures ((c + 1) % WRAP + k) % WRAP == (c + (k + 1)) % WRAP
  {
    if c + 1 == WRAP {
      assert (k + WRAP) % WRAP == k % WRAP;
    }
  }

  lemma LaterStep(c: nat, k: nat, n: nat)
    requires n > 0 && c < WRAP
    ensures Later((c + 1) % WRAP, k, n) == Later(c, k + 1, n)
  {
    CounterStep(c, k);
  }

  lemma TimesStep(c: nat, m: nat, n: nat, i: nat)
    requires n > 0 && c < WRAP && m > 0
    ensures Times(c, m, n, i) == (if Later(c, 0, n) == i then 1 else 0) + Times((c + 1) % WRAP, m - 1, n, i)
  {
    assert (c + 0) % WRAP == c;
    PickIsCounter(c, n);
  }

  /** Numbers below `x` that leave remainder `i`. */
  function Residues(x: nat, n: nat, i: nat): nat
    requires i < n
  {
    (x + (n - 1 - i)) / n
  }

  lemma DivUnique(x: int, d: int, q: int, r: int)
    requires d > 0 && 0 <= r < d && x == q * d + r
    ensures x / d == q && x % d == r
  {
    var q', r' := x / d, x % d;
    assert (q - q') * d == r' - r;
    if q > q' {
      ProductAtLeast(q - q', d);
    } else if q < q' {
      ProductAtLeast(q' - q, d);
    }
  }

  lemma ProductAtLeast(a: int, d: int)
    requires a >= 1 && d > 0
    ensures a * d >= d && (-a) * d <= -d
  {
  }

  lemma ResidueStep(x: nat, n: nat, i: nat)
    requires i < n
    ensures Residues(x + 1, n, i) == Residues(x, n, i) + if x % n == i then 1 else 0
  {
    var q, r := x / n, x % n;
    assert x == q * n + r;
    var s := r + (n - 1 - i);
    assert (q + 1) * n == q * n + n;
    if s < n {
      DivUnique(x + (n - 1 - i), n, q, s);
      if s + 1 < n {
        DivUnique(x + 1 + (n - 1 - i), n, q, s + 1);
      } else {
        DivUnique(x + 1 + (n - 1 - i), n, q + 1, 0);
      }
    } else {
      DivUnique(x + (n - 1 - i), n, q + 1, s - n);
      DivUnique(x + 1 + (n - 1 - i), n, q + 1, s - n + 1);
    }
  }

  /** The next `m` picks follow the residues of consecutive integers from `x`. */
  ghost predicate Tracks(c: nat, x: nat, m: nat, n: nat)
    requires n > 0
  {
    forall k :: 0 <= k < m ==> Later(c, k, n) == (x + k) % n
  }

  lemma TracksStep(c: nat, x: nat, m: nat, n: nat)
    requires n > 0 && m > 0 && c < WRAP && Tracks(c, x, m, n)
    ensures Pick(c, n).0 == x % n
    ensures Tracks(Pick(c, n).1, x + 1, m - 1, n)
  {
    PickIsCounter(c, n);
    assert Later(c, 0, n) == (x + 0) % n;
    var c' := (c + 1) % WRAP;
    forall k | 0 <= k < m - 1 ensures Later(c', k, n) == (x + 1 + k) % n {
      LaterStep(c, k, n);
      assert Later(c, k + 1, n) == (x + (k + 1)) % n;
    }
  }

  lemma {:induction false} TimesAreResidues(c: nat, x: nat, m: nat, n: nat, i: nat)
    requires i < n && c < WRAP && Tracks(c, x, m, n)
    ensures Times(c, m, n, i) == Residues(x + m, n, i) - Residues(x, n, i)
    decreases m
  {
    if m > 0 {
      TracksStep(c, x, m, n);
      ResidueStep(x, n, i);
      TimesAreResidues(Pick(c, n).1, x + 1, m - 1, n, i);
      assert x + 1 + (m - 1) == x + m;
    }
  }

  /** Adding m = u * n + v to y raises the quotient by u, or by u + 1 when v > 0. */
  lemma QuotientSpan(y: nat, n: nat, u: nat, v: nat)
    requires v < n
    ensures u <= (y + (u * n + v)) / n - y / n <= if v == 0 then u else u + 1
  {
    var q, r := y / n, y % n;
    assert y == q * n + r;
    assert (q + u) * n == q * n + u * n;
    assert (q + u + 1) * n == (q + u) * n + n;
    if r + v < n {
      DivUnique(y + (u * n + v), n, q + u, r + v);
    } else {
      DivUnique(y + (u * n + v), n, q + u + 1, r + v - n);
    }
  }

  lemma CeilingOf(n: nat, u: nat, v: nat)
    requires v < n
    ensures CeilDiv(u * n + v, n) == if v == 0 then u else u + 1
  {
    if v == 0 {
      DivUnique(u * n + v + n - 1, n, u, n - 1);
    } else {
      assert (u + 1) * n == u * n + n;
      DivUnique(u * n + v + n - 1, n, u + 1, v - 1);
    }
  }

  lemma ResidueSpan(x: nat, m: nat, n: nat, i: nat)
    requires i < n
    ensures FloorDiv(m, n) <= Residues(x + m, n, i) - Residues(x, n, i) <= CeilDiv(m, n)
  {
    var y, u, v := x + (n - 1 - i), m / n, m % n;
    assert m == u * n + v;
    QuotientSpan(y, n, u, v);
    CeilingOf(n, u, v);
    assert x + m + (n - 1 - i) == y + m;
  }

  lemma BelowWrap(x: nat)
    requires x < WRAP
    ensures x % WRAP == x
  {
  }

  lemma TracksUntilWrap(c: nat, m: nat, n: nat)
    requires n > 0 && c < WRAP && c + m <= WRAP
    ensures Tracks(c, c, m, n)
  {
    forall k | 0 <= k < m ensures Later(c, k, n) == (c + k) % n {
      BelowWrap(c + k);
    }
  }

  /** Until the counter wraps, every stretch of calls over the same eligible list is as even as it can be. */
  lemma FairUntilWrap(c: nat, m: nat, n: nat)
    requires n > 0 && c < WRAP && c + m <= WRAP
    ensures Fair(c, m, n)
  {
    TracksUntilWrap(c, m, n);
    forall i | 0 <= i < n ensures FloorDiv(m, n) <= Times(c, m, n, i) <= CeilDiv(m, n) {
      TimesAreResidues(c, c, m, n, i);
      ResidueSpan(c, m, n, i);
    }
  }

  lemma ModOfMod(x: nat, n: nat, big: nat)
    requires n > 0 && big > 0 && big % n == 0
    ensures (x % big) % n == x % n
  {
    var a, b, q := x / big, x % big, big / n;
    assert x == a * big + b && big == q * n;
    var s, t := b / n, b % n;
    assert b == s * n + t;
    assert a * (q * n) == (a * q) * n;
    assert (a * q + s) * n == (a * q) * n + s * n;
    DivUnique(x, n, a * q + s, t);
  }

  lemma {:induction false} TimesAtLeast(c: nat, m: nat, n: nat, i: nat, first: nat, second: nat)
    requires i < n && c < WRAP && first < second < m
    requires Later(c, first, n) == i && Later(c, second, n) == i
    ensures Times(c, m, n, i) >= 2
    decreases m
  {
    var c' := (c + 1) % WRAP;
    TimesStep(c, m, n, i);
    LaterStep(c, second - 1, n);
    if first > 0 {
      LaterStep(c, first - 1, n);
      TimesAtLeast(c', m - 1, n, i, first - 1, second - 1);
    } else {
      TimesAtLeastOnce(c', m - 1, n, i, second - 1);
    }
  }

  lemma {:induction false} TimesAtLeastOnce(c: nat, m: nat, n: nat, i: nat, at: nat)
    requires i < n && c < WRAP && at < m && Later(c, at, n) == i
    ensures Times(c, m, n, i) >= 1
    decreases m
  {
    var c' := (c + 1) % WRAP;
    TimesStep(c, m, n, i);
    if at > 0 {
      LaterStep(c, at - 1, n);
      TimesAtLeastOnce(c', m - 1, n, i, at - 1);
    }
  }

  /** Across wraps, every stretch of calls is fair exactly when the list length divides 2^64. */
  lemma FairForeverIff(n: nat)
    requires 0 < n < WRAP
    ensures (forall c, m :: 0 <= c < WRAP && 0 <= m ==> Fair(c, m, n)) <==> 0x1_0000_0000_0000_0000 % n == 0
  {
    if WRAP % n == 0 {
      forall c, m | 0 <= c < WRAP && 0 <= m ensures Fair(c, m, n) {
        FairWhenDividing(c, m, n);
      }
    } else {
      UnfairAtWrap(n);
    }
  }

  lemma FairWhenDividing(c: nat, m: nat, n: nat)
    requires 0 < n && c < WRAP && WRAP % n == 0
    ensures Fair(c, m, n)
  {
    forall k | 0 <= k < m ensures Later(c, k, n) == (c + k) % n {
      ModOfMod(c + k, n, WRAP);
    }
    forall i | 0 <= i < n ensures FloorDiv(m, n) <= Times(c, m, n, i) <= CeilDiv(m, n) {
      TimesAreResidues(c, c, m, n, i);
      ResidueSpan(c, m, n, i);
    }
  }

  /** Otherwise the first instance is picked twice within one round around the wrap. */
  lemma UnfairAtWrap(n: nat)
    requires 0 < n < WRAP && WRAP % n != 0
    ensures !Fair(WRAP - WRAP % n, n, n)
  {
    var r := WRAP % n;
    var c := WRAP - r;
    WrapPositions(n);
    TimesAtLeast(c, n, n, 0, 0, r);
    DivUnique(n + n - 1, n, 1, n - 1);
    assert CeilDiv(n, n) == 1;
  }

  lemma WrapPositions(n: nat)
    requires 0 < n < WRAP && WRAP % n != 0
    ensures Later(WRAP - WRAP % n, 0, n) == 0 && Later(WRAP - WRAP % n, WRAP % n, n) == 0
  {
    DivUnique(WRAP - WRAP % n, n, WRAP / n, 0);
  }

  // ----- the balancer object -----

  class RoundRobin {
    var counter: nat

    constructor ()
      ensures counter == 0
    {
      counter := 0;
    }

    /** The loop that builds the eligible list. */
    static method FilterEligible(instances: seq<Instance>, skipped: seq<bool>) returns (eligible: seq<Instance>)
      requires |instances| == |skipped|
      ensures eligible == Filtered(instances, skipped)
    {
      eligible := [];
      for k := 0 to |instances|
        invariant eligible == Filtered(instances[..k], skipped[..k])
      {
        assert instances[..k + 1][..k] == instances[..k] && skipped[..k + 1][..k] == skipped[..k];
        if instances[k].healthy && !skipped[k] {
          eligible := eligible + [instances[k]];
        }
      }
      assert instances[..|instances|] == instances && skipped[..|skipped|] == skipped;
    }

    /** None means no healthy instance; only a successful selection advances the counter. */
    method Next(instances: seq<Instance>, skipped: seq<bool>) returns (selected: Option<Instance>)
      requires |instances| == |skipped| && counter < WRAP
      modifies this
      ensures counter < WRAP
      ensures var eligible := Filtered(instances, skipped);
              if eligible == [] then selected == None && counter == old(counter)
              else (counter == Pick(old(counter), |eligible|).1 &&
                    selected == Some(eligible[Pick(old(counter), |eligible|).0]))
    {
      var eligible := FilterEligible(instances, skipped);
      if |eligible| == 0 {
        return None;
      }
      var n := (counter + 1) % WRAP;
      counter := n;
      selected := Some(eligible[((n - 1) % WRAP) % |eligible|]);
    }
  }
}
