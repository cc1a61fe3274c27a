/**
 What eviction adds to a bucket's configured rate: the plain bound of burst plus refill, and exactly
 when it holds (pkg/ratelimit/tokenbucket.go).
 */
module EvictionBound {
  import opened Common
  import opened TokenBuckets

  /** On one clock, no window of any run admits more than the capacity plus the refill at the configured rate. */
  ghost predicate PlainBound(p: Params) {
    forall times, lo, hi :: Nondecreasing(times) && lo <= hi ==>
      AdmitsIn(times, Solo(p, None, times), lo, hi) as real <= MaxReal(0.0, p.burst) + Refill(p, hi - lo)
  }

  function LastOr(times: seq<real>, first: real): real {
    if times == [] then first else times[|times| - 1]
  }

  predicate Follows(times: seq<real>, start: real) {
    Nondecreasing(times) && (times == [] || start <= times[0])
  }

  /** Some run from this bucket admits more than `credit` plus the refill up to its last call. */
  ghost predicate Beats(p: Params, b: BucketState, credit: real) {
    exists times :: Follows(times, b.lastRefill) &&
      Admits(Solo(p, Some(b), times)) as real > credit + Refill(p, LastOr(times, b.lastRefill) - b.lastRefill)
  }

  lemma BeatsNow(p: Params, b: BucketState, credit: real)
    requires credit < 0.0
    ensures Beats(p, b, credit)
  {
    RefillAdds(p, 0.0, 0.0);
    assert Follows([], b.lastRefill) && Solo(p, Some(b), []) == [];
  }

  lemma FollowsFirst(t: real, times: seq<real>)
    requires Follows(times, t)
    ensures Follows([t] + times, t) && LastOr([t] + times, t) == LastOr(times, t)
  {
  }

  /** A call spends credit when admitted, and earns the refill since the bucket was last touched. */
  lemma BeatsAfter(p: Params, b: BucketState, credit: real, t: real, b': BucketState, d: Decision)
    requires b.lastRefill <= t && (b', d) == TakeKey(p, Some(b), t)
    requires Beats(p, b', credit + Refill(p, t - b.lastRefill) - if d.allowed then 1.0 else 0.0)
    ensures Beats(p, b, credit)
  {
    var credit' := credit + Refill(p, t - b.lastRefill) - if d.allowed then 1.0 else 0.0;
    var times :| Follows(times, t) &&
      Admits(Solo(p, Some(b'), times)) as real > credit' + Refill(p, LastOr(times, t) - t);
    var all := [t] + times;
    FollowsFirst(t, times);
    assert all[1..] == times && Solo(p, Some(b), all) == [d] + Solo(p, Some(b'), times);
    assert ([d] + Solo(p, Some(b'), times))[1..] == Solo(p, Some(b'), times);
    RefillAdds(p, t - b.lastRefill, LastOr(times, t) - t);
    assert LastOr(all, b.lastRefill) == LastOr(times, t);
  }

  /** Capacity left when no whole token remains. */
  function Remainder(p: Params): real {
    p.burst - p.burst.Floor as real
  }

  /** The remainder can be refilled to a whole token before eviction sets in. */
  predicate CanWait(p: Params) {
    p.rate > 0.0 && 1.0 - Remainder(p) <= Refill(p, p.ttl)
  }

  /** Eviction gives back more than the refill would. */
  predicate Generous(p: Params) {
    0.0 <= p.rate && 0.0 < p.ttl && 1.0 <= p.burst && Refill(p, p.ttl) < p.burst
  }

  /** A bucket last touched at `at` that holds some whole tokens besides the remainder. */
  function Holding(p: Params, whole: nat, at: real): BucketState {
    BucketState(whole as real + Remainder(p), at)
  }

  function Emptied(p: Params, at: real): BucketState
    requires CanWait(p)
  {
    BucketState(0.0, at + Wait(p, Remainder(p)))
  }

  lemma Spend(p: Params, whole: nat, at: real, credit: real)
    requires Generous(p) && 0 < whole <= p.burst.Floor
    requires Beats(p, Holding(p, whole - 1, at), credit - 1.0)
    ensures Beats(p, Holding(p, whole, at), credit)
  {
    var b, b' := Holding(p, whole, at), Holding(p, whole - 1, at);
    RefillAdds(p, 0.0, 0.0);
    TakeUncapped(p, b, at);
    BeatsAfter(p, b, credit, at, b', Decision(true, b'.tokens));
  }

  /** Waiting for the remainder to become a token and spending it leaves nothing. */
  lemma WaitAndSpend(p: Params, at: real, credit: real)
    requires CanWait(p) && Generous(p)
    requires Beats(p, Emptied(p, at), credit - Remainder(p))
    ensures Beats(p, Holding(p, 0, at), credit)
  {
    var b, b' := Holding(p, 0, at), Emptied(p, at);
    WaitRefills(p, b.tokens, p.ttl);
    TakeUncapped(p, b, b'.lastRefill);
    BeatsAfter(p, b, credit, b'.lastRefill, b', Decision(true, 0.0));
  }

  /** Draining a bucket uses all its tokens, or all whole ones when the remainder cannot be waited for. */
  lemma {:induction false} Drain(p: Params, whole: nat, at: real, credit: real)
    requires Generous(p) && whole <= p.burst.Floor
    requires credit < whole as real + if CanWait(p) then Remainder(p) else 0.0
    ensures Beats(p, Holding(p, whole, at), credit)
    decreases whole
  {
    if 0 < whole {
      Drain(p, whole - 1, at, credit - 1.0);
      Spend(p, whole, at, credit);
    } else if CanWait(p) {
      BeatsNow(p, Emptied(p, at), credit - Remainder(p));
      WaitAndSpend(p, at, credit);
    } else {
      BeatsNow(p, Holding(p, 0, at), credit);
    }
  }

  /** A bucket drained as far as it can be. */
  predicate Dry(p: Params, b: BucketState) {
    b.tokens == if CanWait(p) then 0.0 else Remainder(p)
  }

  /** The distance by which the refill over the eviction time falls behind. */
  function Slack(p: Params): real {
    (if CanWait(p) then p.burst else 1.0 - Remainder(p)) - Refill(p, p.ttl)
  }

  lemma SlackIsPositive(p: Params)
    requires Generous(p)
    ensures Slack(p) > 0.0
  {
    if p.rate == 0.0 {
      assert Refill(p, p.ttl) == 0.0;
    }
  }

  /** A drained bucket left alone just past the eviction time is full again, ahead of the refill. */
  lemma IdleAndDrain(p: Params, b: BucketState)
    requires Generous(p) && Dry(p, b)
    ensures Beats(p, b, b.tokens)
  {
    SlackIsPositive(p);
    var more := Moment(p, Slack(p));
    MomentIsShort(p, Slack(p));
    RefillAdds(p, p.ttl, more);
    var t := b.lastRefill + (p.ttl + more);
    AnswersAsMissing(p, b, t);
    FreshCall(p, Some(b), t);
    var whole := p.burst.Floor - 1;
    var full := Holding(p, whole, t);
    Drain(p, whole, t, b.tokens + Refill(p, p.ttl + more) - 1.0);
    BeatsAfter(p, b, b.tokens, t, full, Decision(true, p.burst - 1.0));
  }

  /** Two cycles of draining, the second after an eviction, admit more than the tokens and the refill. */
  lemma {:induction false} TwoCycles(p: Params, whole: nat, at: real)
    requires Generous(p) && whole <= p.burst.Floor
    ensures Beats(p, Holding(p, whole, at), whole as real + Remainder(p))
    decreases whole
  {
    if 0 < whole {
      TwoCycles(p, whole - 1, at);
      Spend(p, whole, at, whole as real + Remainder(p));
    } else if CanWait(p) {
      IdleAndDrain(p, Emptied(p, at));
      WaitAndSpend(p, at, Remainder(p));
    } else {
      IdleAndDrain(p, Holding(p, 0, at));
    }
  }

  lemma {:induction false} AllInWindow(times: seq<real>, out: seq<Decision>, lo: real, hi: real)
    requires |times| == |out| && forall i :: 0 <= i < |times| ==> lo <= times[i] <= hi
    ensures AdmitsIn(times, out, lo, hi) == Admits(out)
  {
    if times != [] {
      AllInWindow(times[1..], out[1..], lo, hi);
    }
  }

  lemma FullBucketBeats(p: Params)
    requires Generous(p)
    ensures !PlainBound(p)
  {
    var b := BucketState(p.burst - 1.0, 0.0);
    FreshCall(p, None, 0.0);
    TwoCycles(p, p.burst.Floor - 1, 0.0);
    assert Holding(p, p.burst.Floor - 1, 0.0) == b;
    var times :| Follows(times, 0.0) &&
      Admits(Solo(p, Some(b), times)) as real > b.tokens + Refill(p, LastOr(times, 0.0) - 0.0);
    var all, hi := [0.0] + times, LastOr(times, 0.0);
    FollowsFirst(0.0, times);
    var out := Solo(p, None, all);
    assert all[1..] == times && out == [Decision(true, b.tokens)] + Solo(p, Some(b), times);
    assert out[1..] == Solo(p, Some(b), times);
    AllInWindow(all, out, 0.0, hi);
  }

  lemma {:induction false} NeverAdmits(p: Params, slot: Option<BucketState>, times: seq<real>, lo: real, hi: real)
    requires p.burst < 1.0
    ensures AdmitsIn(times, Solo(p, slot, times), lo, hi) == 0
    decreases |times|
  {
    if times != [] {
      var (b, d) := TakeKey(p, slot, times[0]);
      NeverAdmits(p, Some(b), times[1..], lo, hi);
      assert Solo(p, slot, times)[1..] == Solo(p, Some(b), times[1..]);
    }
  }

  /**
   The capacity plus the refill bounds every window of every run exactly when no call is ever admitted or
   the capacity refills within the eviction time; otherwise draining, idling past the eviction
   time and draining again exceeds it.
   */
  lemma PlainBoundCharacterised(p: Params)
    requires 0.0 <= p.rate && 0.0 < p.ttl
    ensures PlainBound(p) <==> p.burst < 1.0 || p.burst <= p.rate * p.ttl
  {
    if p.burst < 1.0 || p.burst <= p.rate * p.ttl {
      forall times, lo, hi | Nondecreasing(times) && lo <= hi
        ensures AdmitsIn(times, Solo(p, None, times), lo, hi) as real <= MaxReal(0.0, p.burst) + Refill(p, hi - lo)
      {
        RefillMonotone(p, 0.0, hi - lo);
        if p.burst < 1.0 {
          NeverAdmits(p, None, times, lo, hi);
        } else {
          WindowBound(p, None, times, lo, hi);
          DrawIsRefill(p, hi - lo);
        }
      }
    } else {
      FullBucketBeats(p);
    }
  }
}
