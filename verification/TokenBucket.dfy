/**
 The in-memory token bucket: lazy refill, lazy eviction and the background sweep
 (pkg/ratelimit/tokenbucket.go).  Times are seconds on one clock, tokens are exact reals.
 */
module TokenBuckets {
  import opened Common

  /** Idle time after which a bucket is evicted, in seconds. */
  const EVICTION_TTL: real := 600.0

  /** Limiter parameters: refill rate per second, capacity, and idle time after which a bucket is fresh again. */
  datatype Params = Params(rate: real, burst: real, ttl: real)

  /** The two fields a bucket's mutex protects. */
  datatype BucketState = BucketState(tokens: real, lastRefill: real)

  datatype Decision = Decision(allowed: bool, remaining: real)

  // ----- one decision -----

  function Fresh(p: Params, now: real): BucketState {
    BucketState(p.burst, now)
  }

  /** A bucket idle for more than the eviction time. */
  predicate Stale(p: Params, b: BucketState, now: real) {
    now - b.lastRefill > p.ttl
  }

  /** Tokens available to a call at `now`, after lazy eviction, refill and capping. */
  function Refilled(p: Params, b: BucketState, now: real): real {
    var b' := if Stale(p, b, now) then Fresh(p, now) else b;
    MinReal(b'.tokens + (now - b'.lastRefill) * p.rate, p.burst)
  }

  function Take(p: Params, b: BucketState, now: real): (BucketState, Decision) {
    var tokens := Refilled(p, b, now);
    if tokens < 1.0 then (BucketState(tokens, now), Decision(false, 0.0))
    else (BucketState(tokens - 1.0, now), Decision(true, tokens - 1.0))
  }

  /** `Take` on a key that may have no bucket yet: LoadOrStore installs a fresh one first. */
  function TakeKey(p: Params, slot: Option<BucketState>, now: real): (BucketState, Decision) {
    Take(p, if slot.None? then Fresh(p, now) else slot.value, now)
  }

  // ----- one never-swept bucket fed a list of call times -----

  function Solo(p: Params, slot: Option<BucketState>, times: seq<real>): (out: seq<Decision>)
    ensures |out| == |times|
    decreases |times|
  {
    if times == [] then []
    else
      var (b, d) := TakeKey(p, slot, times[0]);
      [d] + Solo(p, Some(b), times[1..])
  }

  predicate Nondecreasing(times: seq<real>) {
    forall i, j :: 0 <= i < j < |times| ==> times[i] <= times[j]
  }

  /** How many of the calls made in [lo, hi] were admitted. */
  function AdmitsIn(times: seq<real>, out: seq<Decision>, lo: real, hi: real): nat
    requires |times| == |out|
  {
    if times == [] then 0
    else (if lo <= times[0] <= hi && out[0].allowed then 1 else 0) + AdmitsIn(times[1..], out[1..], lo, hi)
  }

  /** An upper bound on the rate a key can draw at: steady refill, or one full bucket per eviction period. */
  function DrawRate(p: Params): real
    requires p.ttl > 0.0
  {
    MaxReal(p.rate, MaxReal(0.0, p.burst) / p.ttl)
  }

  // ----- the bound over every window -----

  lemma DrawRateBounds(p: Params)
    requires p.ttl > 0.0
    ensures DrawRate(p) >= 0.0 && DrawRate(p) >= p.rate && DrawRate(p) * p.ttl >= p.burst
  {
    var burst := MaxReal(0.0, p.burst);
    assert burst / p.ttl >= 0.0;
    assert (burst / p.ttl) * p.ttl == burst;
    Scale(burst / p.ttl, DrawRate(p), p.ttl);
  }

  lemma Scale(a: real, b: real, d: real)
    requires a <= b && d >= 0.0
    ensures a * d <= b * d
  {
  }

  /** What the key may draw over a stretch of time. */
  function Drawn(p: Params, gap: real): real
    requires p.ttl > 0.0
  {
    DrawRate(p) * gap
  }

  lemma DrawnAdds(p: Params, gap: real, more: real)
    requires p.ttl > 0.0
    ensures Drawn(p, gap) + Drawn(p, more) == Drawn(p, gap + more)
    ensures gap >= 0.0 ==> Drawn(p, gap) >= 0.0
  {
    DrawRateBounds(p);
    Spread(DrawRate(p), gap, more);
  }

  /** The refill, capped and possibly after eviction, never outruns the draw. */
  lemma RefillWithinDraw(p: Params, b: BucketState, now: real)
    requires p.ttl > 0.0 && b.lastRefill <= now
    ensures Refilled(p, b, now) <= p.burst
    ensures Refilled(p, b, now) <= MaxReal(0.0, b.tokens) + Drawn(p, now - b.lastRefill)
  {
    DrawRateBounds(p);
    var gap := now - b.lastRefill;
    if Stale(p, b, now) {
      Scale(p.ttl, gap, DrawRate(p));
    } else {
      Scale(p.rate, DrawRate(p), gap);
    }
  }

  /** Whatever happened before, a call leaves at most the old tokens plus the draw since the last refill. */
  lemma TakeGain(p: Params, b: BucketState, now: real)
    requires p.ttl > 0.0 && b.lastRefill <= now
    ensures var (b', d) := Take(p, b, now);
            MaxReal(0.0, b'.tokens) + (if d.allowed then 1.0 else 0.0)
              <= MaxReal(0.0, b.tokens) + Drawn(p, now - b.lastRefill)
  {
    RefillWithinDraw(p, b, now);
    DrawnAdds(p, now - b.lastRefill, 0.0);
  }

  lemma {:induction false} NoAdmitsAfter(times: seq<real>, out: seq<Decision>, lo: real, hi: real)
    requires |times| == |out|
    requires forall t :: t in times ==> t > hi
    ensures AdmitsIn(times, out, lo, hi) == 0
  {
    if times != [] {
      assert times[0] in times;
      assert forall t :: t in times[1..] ==> t in times;
      NoAdmitsAfter(times[1..], out[1..], lo, hi);
    }
  }

  lemma {:induction false} AdmitsFromBucket(p: Params, b: BucketState, times: seq<real>, lo: real, hi: real)
    requires p.ttl > 0.0 && b.lastRefill <= hi
    requires Nondecreasing(times) && (times != [] ==> b.lastRefill <= times[0])
    ensures AdmitsIn(times, Solo(p, Some(b), times), lo, hi) as real
              <= MaxReal(0.0, b.tokens) + Drawn(p, hi - b.lastRefill)
    decreases |times|
  {
    DrawnAdds(p, hi - b.lastRefill, 0.0);
    if times != [] {
      var t := times[0];
      if t <= hi {
        var (b', d) := Take(p, b, t);
        AdmitsFromBucket(p, b', times[1..], lo, hi);
        TakeGain(p, b, t);
        DrawnAdds(p, t - b.lastRefill, hi - t);
        assert Solo(p, Some(b), times)[1..] == Solo(p, Some(b'), times[1..]);
      } else {
        NoAdmitsAfter(times, Solo(p, Some(b), times), lo, hi);
      }
    }
  }

  /**
   On one nondecreasing clock, the calls a key makes within [lo, hi] admit at most a full bucket
   plus what can be drawn during the window, from any starting state and for any parameters.
   */
  lemma {:induction false} WindowBound(p: Params, slot: Option<BucketState>, times: seq<real>, lo: real, hi: real)
    requires p.ttl > 0.0 && lo <= hi && Nondecreasing(times)
    ensures AdmitsIn(times, Solo(p, slot, times), lo, hi) as real
              <= MaxReal(0.0, p.burst) + Drawn(p, hi - lo)
    decreases |times|
  {
    DrawnAdds(p, hi - lo, 0.0);
    if times != [] {
      var t := times[0];
      var (b, d) := TakeKey(p, slot, t);
      assert Solo(p, slot, times)[1..] == Solo(p, Some(b), times[1..]);
      if t < lo {
        WindowBound(p, Some(b), times[1..], lo, hi);
      } else if t <= hi {
        CappedAtBurst(p, slot, t);
        AdmitsFromBucket(p, b, times[1..], lo, hi);
        DrawnAdds(p, t - lo, hi - t);
      } else {
        NoAdmitsAfter(times, Solo(p, slot, times), lo, hi);
      }
    }
  }

  lemma CappedAtBurst(p: Params, slot: Option<BucketState>, now: real)
    ensures var (b, d) := TakeKey(p, slot, now);
            b.lastRefill == now &&
            MaxReal(0.0, b.tokens) + (if d.allowed then 1.0 else 0.0) <= MaxReal(0.0, p.burst)
  {
  }

  /** With capacity refillable within the eviction time, what a key draws is just its refill. */
  lemma DrawIsRefill(p: Params, gap: real)
    requires p.ttl > 0.0 && 0.0 <= p.burst <= p.rate * p.ttl
    ensures DrawRate(p) == p.rate && Drawn(p, gap) == Refill(p, gap)
  {
    assert p.burst / p.ttl * p.ttl == p.burst;
    if p.burst / p.ttl > p.rate {
      assert (p.burst / p.ttl - p.rate) * p.ttl > 0.0;
    }
  }

  // ----- runs without eviction, with timestamps in any order -----

  /** No call of the run finds its bucket stale. */
  predicate EvictionFree(p: Params, b: BucketState, times: seq<real>)
    decreases |times|
  {
    times == [] || (!Stale(p, b, times[0]) && EvictionFree(p, Take(p, b, times[0]).0, times[1..]))
  }

  function Admits(out: seq<Decision>): nat {
    if out == [] then 0 else (if out[0].allowed then 1 else 0) + Admits(out[1..])
  }

  /** Refill at the configured rate over a stretch of time, negative when the clock reads backwards. */
  function Refill(p: Params, gap: real): real {
    p.rate * gap
  }

  lemma RefillAdds(p: Params, gap: real, more: real)
    ensures Refill(p, gap) + Refill(p, more) == Refill(p, gap + more)
  {
    Spread(p.rate, gap, more);
  }

  lemma TakeSpendsRefill(p: Params, b: BucketState, now: real)
    requires !Stale(p, b, now)
    ensures var (b', d) := Take(p, b, now);
            b'.lastRefill == now &&
            b'.tokens + (if d.allowed then 1.0 else 0.0) <= b.tokens + Refill(p, now - b.lastRefill)
  {
  }

  lemma {:induction false} EvictionFreeAdmits(p: Params, b: BucketState, times: seq<real>, k: nat)
    requires k < |times| && EvictionFree(p, b, times)
    requires Solo(p, Some(b), times)[k].allowed
    ensures Admits(Solo(p, Some(b), times)[..k + 1]) as real <= b.tokens + Refill(p, times[k] - b.lastRefill)
    decreases |times|
  {
    var (b', d) := Take(p, b, times[0]);
    var out, rest := Solo(p, Some(b), times), times[1..];
    assert out[1..] == Solo(p, Some(b'), rest);
    assert out[..k + 1] == [d] + out[1..][..k] && ([d] + out[1..][..k])[1..] == out[1..][..k];
    TakeSpendsRefill(p, b, times[0]);
    if k > 0 {
      EvictionFreeAdmits(p, b', rest, k - 1);
      RefillAdds(p, times[0] - b.lastRefill, times[k] - times[0]);
    }
  }

  lemma {:induction false} RefusalsAddNothing(out: seq<Decision>, k: nat)
    requires k < |out| && forall j :: k < j < |out| ==> !out[j].allowed
    ensures Admits(out) == Admits(out[..k + 1])
  {
    if k > 0 {
      RefusalsAddNothing(out[1..], k - 1);
      assert out[..k + 1][1..] == out[1..][..k];
    } else {
      NoneAllowed(out[1..]);
      assert out[..1][1..] == [];
    }
  }

  lemma {:induction false} NoneAllowed(out: seq<Decision>)
    requires forall j :: 0 <= j < |out| ==> !out[j].allowed
    ensures Admits(out) == 0
  {
    if out != [] {
      NoneAllowed(out[1..]);
    }
  }

  /**
   A key whose bucket is never evicted is held to its configured rate whatever order the timestamps
   arrive in: up to any admitted call, admits are at most the capacity plus the refill between the
   first call's time and that one's; measured at the last admitted call this bounds the whole run.
   */
  lemma OutOfOrderBound(p: Params, times: seq<real>, k: nat)
    requires k < |times| && EvictionFree(p, Fresh(p, times[0]), times)
    requires Solo(p, None, times)[k].allowed
    ensures var out := Solo(p, None, times);
            && Admits(out[..k + 1]) as real <= p.burst + Refill(p, times[k] - times[0])
            && ((forall j :: k < j < |times| ==> !out[j].allowed) ==>
                Admits(out) as real <= p.burst + Refill(p, times[k] - times[0]))
  {
    var out := Solo(p, None, times);
    assert out == Solo(p, Some(Fresh(p, times[0])), times);
    EvictionFreeAdmits(p, Fresh(p, times[0]), times, k);
    if forall j :: k < j < |times| ==> !out[j].allowed {
      RefusalsAddNothing(out, k);
    }
  }

  // ----- the bucket as a test on the log of its decisions -----

  /** The latest call up to `k` that found the key idle for more than the eviction time, or the first call. */
  function Restart(p: Params, times: seq<real>, k: nat): (r: nat)
    requires k < |times|
    ensures r <= k
  {
    if k == 0 then 0 else if times[k] - times[k - 1] > p.ttl then k else Restart(p, times, k - 1)
  }

  /** One more admission at call `k` keeps the calls from `j` on within the burst plus the refill since `j`. */
  predicate Fits(p: Params, times: seq<real>, out: seq<Decision>, j: nat, k: nat)
    requires j <= k < |times| == |out|
  {
    Admits(out[j..k]) as real + 1.0 <= p.burst + Refill(p, times[k] - times[j])
  }

  /** The same for the calls since a bucket was last touched, against the tokens it had. */
  predicate FitsBucket(p: Params, b: BucketState, times: seq<real>, out: seq<Decision>, k: nat)
    requires k < |times| == |out|
  {
    Admits(out[..k]) as real + 1.0 <= b.tokens + Refill(p, times[k] - b.lastRefill)
  }

  /** All stretches since the last restart have room for one more. */
  predicate AllFit(p: Params, times: seq<real>, out: seq<Decision>, k: nat)
    requires k < |times| == |out|
  {
    forall j :: Restart(p, times, k) <= j <= k ==> Fits(p, times, out, j, k)
  }

  lemma {:induction false} RestartShifts(p: Params, times: seq<real>, k: nat)
    requires 0 < k < |times|
    ensures Restart(p, times, k) ==
            if Restart(p, times[1..], k - 1) > 0 then Restart(p, times[1..], k - 1) + 1
            else if times[1] - times[0] > p.ttl then 1 else 0
  {
    if k > 1 {
      RestartShifts(p, times, k - 1);
    }
  }

  lemma FitsShifts(p: Params, times: seq<real>, out: seq<Decision>, j: nat, k: nat)
    requires 0 < j <= k < |times| == |out|
    ensures Fits(p, times, out, j, k) <==> Fits(p, times[1..], out[1..], j - 1, k - 1)
  {
    assert out[1..][j - 1..k - 1] == out[j..k];
  }

  /** What one call leaves stands for both tests that reach back to it. */
  lemma FitsAfterTake(p: Params, b: BucketState, times: seq<real>, out: seq<Decision>, k: nat)
    requires 0 < k < |times| == |out|
    requires out[0] == Take(p, b, times[0]).1
    ensures FitsBucket(p, Take(p, b, times[0]).0, times[1..], out[1..], k - 1) <==>
            Fits(p, times, out, 0, k) && (Stale(p, b, times[0]) || FitsBucket(p, b, times, out, k))
  {
    assert out[0..k] == [out[0]] + out[1..][..k - 1] && out[..k] == out[0..k];
    assert ([out[0]] + out[1..][..k - 1])[1..] == out[1..][..k - 1];
    RefillAdds(p, times[0] - b.lastRefill, times[k] - times[0]);
    RefillAdds(p, 0.0, 0.0);
  }

  lemma FirstCall(p: Params, b: BucketState, now: real)
    ensures Take(p, b, now).1.allowed <==>
            1.0 <= p.burst && (Stale(p, b, now) || 1.0 <= b.tokens + Refill(p, now - b.lastRefill))
    ensures Refill(p, now - now) == 0.0
  {
    assert (now - now) * p.rate == 0.0;
    if Stale(p, b, now) {
      assert Refilled(p, b, now) == p.burst;
    } else {
      assert (now - b.lastRefill) * p.rate == Refill(p, now - b.lastRefill);
      assert Refilled(p, b, now) == MinReal(b.tokens + Refill(p, now - b.lastRefill), p.burst);
    }
  }

  lemma {:induction false} ExactFrom(p: Params, b: BucketState, times: seq<real>, k: nat)
    requires k < |times|
    ensures var out := Solo(p, Some(b), times);
            out[k].allowed <==>
              && AllFit(p, times, out, k)
              && (!Stale(p, b, times[0]) && Restart(p, times, k) == 0 ==> FitsBucket(p, b, times, out, k))
    decreases k
  {
    var out := Solo(p, Some(b), times);
    if k == 0 {
      FirstCall(p, b, times[0]);
      assert out[0..0] == [] && out[..0] == [];
      assert AllFit(p, times, out, 0) <==> Fits(p, times, out, 0, 0);
    } else {
      var (b', d) := Take(p, b, times[0]);
      var rest := times[1..];
      assert out[1..] == Solo(p, Some(b'), rest);
      ExactFrom(p, b', rest, k - 1);
      RestartShifts(p, times, k);
      FitsAfterTake(p, b, times, out, k);
      AllFitShifts(p, times, out, k);
    }
  }

  lemma AllFitShifts(p: Params, times: seq<real>, out: seq<Decision>, k: nat)
    requires 0 < k < |times| == |out|
    ensures AllFit(p, times, out, k) <==>
            AllFit(p, times[1..], out[1..], k - 1) && (Restart(p, times, k) == 0 ==> Fits(p, times, out, 0, k))
  {
    RestartShifts(p, times, k);
    var r, rest, later, n := Restart(p, times, k), times[1..], out[1..], k - 1;
    if AllFit(p, rest, later, n) && (r == 0 ==> Fits(p, times, out, 0, k)) {
      forall j | r <= j <= k ensures Fits(p, times, out, j, k) {
        if j > 0 {
          FitsShifts(p, times, out, j, k);
          assert Fits(p, rest, later, j - 1, n);
        }
      }
    }
    if AllFit(p, times, out, k) {
      forall j | Restart(p, rest, n) <= j <= n ensures Fits(p, rest, later, j, n) {
        FitsShifts(p, times, out, j + 1, k);
        assert Fits(p, times, out, j + 1, k);
      }
    }
  }

  /**
   The bucket admits a call exactly when, over every stretch of calls since the key was last idle for
   the eviction time, the admissions so far leave room for one more within burst + rate * elapsed:
   whatever the parameters and the order of the timestamps.
   */
  lemma BucketAdmitsWhatFits(p: Params, times: seq<real>, k: nat)
    requires k < |times|
    ensures Solo(p, None, times)[k].allowed <==> AllFit(p, times, Solo(p, None, times), k)
  {
    var b := Fresh(p, times[0]);
    var out := Solo(p, Some(b), times);
    assert Solo(p, None, times) == out;
    ExactFrom(p, b, times, k);
    assert out[..k] == out[0..k];
    assert Restart(p, times, k) == 0 && AllFit(p, times, out, k) ==> Fits(p, times, out, 0, k);
  }

  // ----- the keyed store, calls on every key interleaved with sweeps -----

  /**
   One atomic step on the store.  A sweep works key by key: its cutoff is fixed when it starts,
   so the key is visited at some later time `now`.
   */
  datatype Op =
    | Call(key: string, now: real)
    | Visit(key: string, cutoff: real, now: real)

  type Store = map<string, BucketState>

  function Slot(store: Store, key: string): Option<BucketState> {
    if key in store then Some(store[key]) else None
  }

  function Apply(p: Params, store: Store, op: Op): Store {
    match op
    case Call(key, now) => store[key := TakeKey(p, Slot(store, key), now).0]
    case Visit(key, cutoff, _) => if key in store && store[key].lastRefill < cutoff then store - {key} else store
  }

  /** A call on `key` at `now` answers `d` and takes the store from `before` to `after`. */
  predicate Answered(p: Params, before: Store, after: Store, key: string, now: real, d: Decision) {
    after == Apply(p, before, Call(key, now)) && d == TakeKey(p, Slot(before, key), now).1
  }

  /** What the interleaved run answers to the calls on one key. */
  function Answers(p: Params, store: Store, ops: seq<Op>, key: string): seq<Decision>
    decreases |ops|
  {
    if ops == [] then []
    else
      var rest := Answers(p, Apply(p, store, ops[0]), ops[1..], key);
      if ops[0].Call? && ops[0].key == key
      then [TakeKey(p, Slot(store, key), ops[0].now).1] + rest
      else rest
  }

  function CallTimes(ops: seq<Op>, key: string): seq<real> {
    if ops == [] then []
    else
      var rest := CallTimes(ops[1..], key);
      if ops[0].Call? && ops[0].key == key then [ops[0].now] + rest else rest
  }

  /** Steps happen in clock order from `start` on, and a sweep's cutoff is `ttl` before its start. */
  predicate OnOneClock(p: Params, ops: seq<Op>, start: real) {
    ops == [] ||
    (start <= ops[0].now &&
     (ops[0].Visit? ==> ops[0].cutoff <= ops[0].now - p.ttl) &&
     OnOneClock(p, ops[1..], ops[0].now))
  }

  /**
   Steps happen at the times `at`, in clock order from `start` on.  A call reads the clock before it
   takes the lock, so its reading is up to `lag` older than its step.
   */
  predicate WithinLag(p: Params, ops: seq<Op>, at: seq<real>, lag: real, start: real)
    decreases |ops|
  {
    |ops| == |at| &&
    (ops == [] ||
     (start <= at[0] && Timely(p, ops[0], at[0], lag) && WithinLag(p, ops[1..], at[1..], lag, at[0])))
  }

  predicate Timely(p: Params, op: Op, at: real, lag: real) {
    match op
    case Call(_, now) => at - lag <= now <= at
    case Visit(_, cutoff, _) => cutoff <= at - p.ttl
  }

  function StepTimes(ops: seq<Op>): seq<real> {
    seq(|ops|, i requires 0 <= i < |ops| => ops[i].now)
  }

  lemma {:induction false} OneClockHasNoLag(p: Params, ops: seq<Op>, start: real)
    requires OnOneClock(p, ops, start)
    ensures WithinLag(p, ops, StepTimes(ops), 0.0, start)
    decreases |ops|
  {
    if ops != [] {
      OneClockHasNoLag(p, ops[1..], ops[0].now);
      assert StepTimes(ops)[1..] == StepTimes(ops[1..]);
    }
  }

  // ----- when a missing bucket answers as the one that was there -----

  /** A bucket answers as a missing one does exactly when eviction or refill brings it to capacity. */
  lemma AnswersAsMissing(p: Params, b: BucketState, now: real)
    ensures TakeKey(p, Some(b), now) == TakeKey(p, None, now) <==> Refilled(p, b, now) == p.burst
    ensures 1.0 <= p.burst ==>
      (TakeKey(p, Some(b), now).1 == TakeKey(p, None, now).1 <==> Refilled(p, b, now) == p.burst)
    ensures Stale(p, b, now) ==> Refilled(p, b, now) == p.burst
  {
    assert (now - now) * p.rate == 0.0;
    assert Refilled(p, Fresh(p, now), now) == p.burst;
    if Stale(p, b, now) {
      assert Refilled(p, b, now) == Refilled(p, Fresh(p, now), now);
    }
  }

  /** From `from` on, every call finds the bucket full. */
  ghost predicate Recovered(p: Params, b: BucketState, from: real) {
    forall now :: from <= now ==> Refilled(p, b, now) == p.burst
  }

  /** The swept store agrees with a never-swept bucket, or has dropped one that every later call finds full. */
  ghost predicate Agrees(p: Params, store: Store, key: string, slot: Option<BucketState>, earliest: real) {
    Slot(store, key) == slot || (key !in store && slot.Some? && Recovered(p, slot.value, earliest))
  }

  /**
   Late readings can take a bucket into debt, but by no more than the refill since the latest
   reading so far, which no later reading precedes by more than the lag.
   */
  predicate Owes(p: Params, slot: Option<BucketState>, peak: real, lag: real) {
    slot.Some? ==>
      var b := slot.value;
      peak - lag <= b.lastRefill <= peak && b.tokens + Refill(p, peak - b.lastRefill) >= 0.0
  }

  lemma RefillMonotone(p: Params, a: real, b: real)
    requires 0.0 <= p.rate && a <= b
    ensures Refill(p, a) <= Refill(p, b)
  {
    Scale(a, b, p.rate);
  }

  /** A call that finds the bucket neither stale nor past its capacity. */
  lemma TakeUncapped(p: Params, b: BucketState, now: real)
    requires !Stale(p, b, now) && b.tokens + Refill(p, now - b.lastRefill) <= p.burst
    ensures var tokens := b.tokens + Refill(p, now - b.lastRefill);
            TakeKey(p, Some(b), now) ==
            if tokens < 1.0 then (BucketState(tokens, now), Decision(false, 0.0))
            else (BucketState(tokens - 1.0, now), Decision(true, tokens - 1.0))
  {
    RefilledUncapped(p, b, now);
  }

  lemma RefilledUncapped(p: Params, b: BucketState, now: real)
    requires !Stale(p, b, now)
    ensures Refilled(p, b, now) == MinReal(b.tokens + Refill(p, now - b.lastRefill), p.burst)
  {
    assert (now - b.lastRefill) * p.rate == Refill(p, now - b.lastRefill);
  }

  /** How long a bucket needs to come back to one whole token. */
  function Wait(p: Params, tokens: real): real
    requires p.rate > 0.0
  {
    (1.0 - tokens) / p.rate
  }

  lemma WaitRefills(p: Params, tokens: real, limit: real)
    requires 0.0 < p.rate && tokens < 1.0 && 1.0 - tokens <= Refill(p, limit)
    ensures 0.0 <= Wait(p, tokens) <= limit && tokens + Refill(p, Wait(p, tokens)) == 1.0
  {
    var w := Wait(p, tokens);
    assert w * p.rate == 1.0 - tokens;
    RefillGrows(p, limit, w);
  }

  lemma RefillGrows(p: Params, a: real, b: real)
    requires 0.0 < p.rate
    ensures a < b ==> Refill(p, a) < Refill(p, b)
  {
  }

  /** A time over which the refill stays below some slack. */
  function Moment(p: Params, slack: real): real
    requires 0.0 <= p.rate
  {
    slack / (p.rate + 1.0)
  }

  lemma MomentIsShort(p: Params, slack: real)
    requires 0.0 <= p.rate && 0.0 < slack
    ensures 0.0 < Moment(p, slack) && Refill(p, Moment(p, slack)) < slack
  {
    var e := Moment(p, slack);
    assert e * (p.rate + 1.0) == slack;
    assert e > 0.0;
    assert Refill(p, e) == slack - e;
  }

  lemma FreshCall(p: Params, slot: Option<BucketState>, now: real)
    requires slot.Some? ==> Refilled(p, slot.value, now) == p.burst
    ensures TakeKey(p, slot, now) ==
            if p.burst < 1.0 then (BucketState(p.burst, now), Decision(false, 0.0))
            else (BucketState(p.burst - 1.0, now), Decision(true, p.burst - 1.0))
  {
    assert (now - now) * p.rate == 0.0;
  }

  lemma TakeKeepsOwes(p: Params, slot: Option<BucketState>, peak: real, lag: real, now: real)
    requires 0.0 <= p.rate && 1.0 <= p.burst && 0.0 <= lag && Owes(p, slot, peak, lag)
    requires slot.Some? ==> peak - lag <= now
    ensures Owes(p, Some(TakeKey(p, slot, now).0), if slot.Some? then MaxReal(peak, now) else now, lag)
  {
    RefillMonotone(p, 0.0, 0.0);
    if slot.None? || Refilled(p, slot.value, now) == p.burst {
      FreshCall(p, slot, now);
      if slot.Some? {
        RefillMonotone(p, 0.0, MaxReal(peak, now) - now);
      }
    } else {
      var b := slot.value;
      AnswersAsMissing(p, b, now);
      assert (now - b.lastRefill) * p.rate == Refill(p, now - b.lastRefill);
      TakeUncapped(p, b, now);
      RefillAdds(p, now - b.lastRefill, MaxReal(peak, now) - now);
      RefillMonotone(p, peak - b.lastRefill, MaxReal(peak, now) - b.lastRefill);
      RefillMonotone(p, 0.0, MaxReal(peak, now) - now);
    }
  }

  /** The sweep is invisible to calls whose reading is at most `lag` old. */
  predicate Hidden(p: Params, lag: real) {
    lag == 0.0 || p.burst < 1.0 || (0.0 <= p.rate && p.burst <= Refill(p, p.ttl - 2.0 * lag))
  }

  lemma SweptIsRecovered(p: Params, b: BucketState, peak: real, lag: real, at: real)
    requires 0.0 <= lag && (lag == 0.0 || (0.0 <= p.rate && p.burst <= Refill(p, p.ttl - 2.0 * lag)))
    requires lag > 0.0 ==> Owes(p, Some(b), peak, lag)
    requires b.lastRefill < at - p.ttl
    ensures Recovered(p, b, at - lag)
  {
    forall now | at - lag <= now ensures Refilled(p, b, now) == p.burst {
      AnswersAsMissing(p, b, now);
      if !Stale(p, b, now) {
        RefillAdds(p, peak - b.lastRefill, now - peak);
        RefillMonotone(p, p.ttl - 2.0 * lag, now - peak);
        assert (now - b.lastRefill) * p.rate == Refill(p, now - b.lastRefill);
      }
    }
  }

  lemma {:induction false} SweepInvisibleFrom(
      p: Params, store: Store, ops: seq<Op>, at: seq<real>, lag: real, key: string, slot: Option<BucketState>,
      peak: real, start: real)
    requires 0.0 <= lag && WithinLag(p, ops, at, lag, start) && Agrees(p, store, key, slot, start - lag)
    requires lag == 0.0 || (0.0 <= p.rate && 1.0 <= p.burst <= Refill(p, p.ttl - 2.0 * lag))
    requires lag > 0.0 ==> peak <= start && Owes(p, slot, peak, lag)
    ensures Answers(p, store, ops, key) == Solo(p, slot, CallTimes(ops, key))
    decreases |ops|
  {
    if ops != [] {
      var op := ops[0];
      var store' := Apply(p, store, op);
      if op.Call? && op.key == key {
        if Slot(store, key) != slot {
          AnswersAsMissing(p, slot.value, op.now);
        }
        var (b, d) := TakeKey(p, slot, op.now);
        var peak' := if slot.Some? then MaxReal(peak, op.now) else op.now;
        if lag > 0.0 {
          TakeKeepsOwes(p, slot, peak, lag, op.now);
        }
        SweepInvisibleFrom(p, store', ops[1..], at[1..], lag, key, Some(b), peak', at[0]);
        assert CallTimes(ops, key)[1..] == CallTimes(ops[1..], key);
      } else {
        if op.Visit? && op.key == key && key in store && key !in store' && Slot(store, key) == slot {
          SweptIsRecovered(p, slot.value, peak, lag, at[0]);
        }
        SweepInvisibleFrom(p, store', ops[1..], at[1..], lag, key, slot, peak, at[0]);
      }
    }
  }

  lemma {:induction false} AllRefused(p: Params, store: Store, ops: seq<Op>, key: string, slot: Option<BucketState>)
    requires p.burst < 1.0
    ensures Answers(p, store, ops, key) == Solo(p, slot, CallTimes(ops, key))
    decreases |ops|
  {
    if ops != [] {
      var op := ops[0];
      if op.Call? && op.key == key {
        AllRefused(p, Apply(p, store, op), ops[1..], key, Some(TakeKey(p, slot, op.now).0));
        assert CallTimes(ops, key)[1..] == CallTimes(ops[1..], key);
      } else {
        AllRefused(p, Apply(p, store, op), ops[1..], key, slot);
      }
    }
  }

  /**
   Sweeping and the other keys are invisible: in every interleaving, the decisions and remaining
   values for a key are those of one never-swept bucket fed that key's calls alone.  Readings may lag
   behind their steps by as much as `Hidden` allows.
   */
  lemma SweepAndKeyTransparency(p: Params, ops: seq<Op>, at: seq<real>, lag: real, key: string, start: real)
    requires 0.0 <= lag && WithinLag(p, ops, at, lag, start) && Hidden(p, lag)
    ensures Answers(p, map[], ops, key) == Solo(p, None, CallTimes(ops, key))
  {
    if p.burst < 1.0 {
      AllRefused(p, map[], ops, key, None);
    } else {
      SweepInvisibleFrom(p, map[], ops, at, lag, key, None, start, start);
    }
  }

  lemma EarlierFirst(t: real, times: seq<real>)
    requires Nondecreasing(times) && forall t' :: t' in times ==> t <= t'
    ensures Nondecreasing([t] + times)
  {
    forall i | 0 <= i < |times| ensures t <= times[i] {
      assert times[i] in times;
    }
  }

  lemma {:induction false} CallTimesOnClock(p: Params, ops: seq<Op>, key: string, start: real)
    requires OnOneClock(p, ops, start)
    ensures Nondecreasing(CallTimes(ops, key)) && forall t :: t in CallTimes(ops, key) ==> start <= t
  {
    if ops != [] {
      CallTimesOnClock(p, ops[1..], key, ops[0].now);
      EarlierFirst(ops[0].now, CallTimes(ops[1..], key));
    }
  }

  /** The bound carries over to every key of the swept, shared store. */
  lemma StoreWindowBound(p: Params, ops: seq<Op>, key: string, start: real, lo: real, hi: real)
    requires p.ttl > 0.0 && lo <= hi && OnOneClock(p, ops, start)
    ensures |Answers(p, map[], ops, key)| == |CallTimes(ops, key)|
    ensures AdmitsIn(CallTimes(ops, key), Answers(p, map[], ops, key), lo, hi) as real
              <= MaxReal(0.0, p.burst) + Drawn(p, hi - lo)
  {
    OneClockHasNoLag(p, ops, start);
    SweepAndKeyTransparency(p, ops, StepTimes(ops), 0.0, key, start);
    CallTimesOnClock(p, ops, key, start);
    WindowBound(p, None, CallTimes(ops, key), lo, hi);
  }

  /**
   So does the exact test: in the swept, shared store each call of a key is admitted exactly when it
   fits, as long as readings lag by no more than the sweep stays hidden from.
   */
  lemma StoreAdmitsWhatFits(p: Params, ops: seq<Op>, at: seq<real>, lag: real, key: string, start: real, k: nat)
    requires 0.0 <= lag && WithinLag(p, ops, at, lag, start) && Hidden(p, lag) && k < |CallTimes(ops, key)|
    ensures var times, out := CallTimes(ops, key), Answers(p, map[], ops, key);
            |out| == |times| && (out[k].allowed <==> AllFit(p, times, out, k))
  {
    SweepAndKeyTransparency(p, ops, at, lag, key, start);
    BucketAdmitsWhatFits(p, CallTimes(ops, key), k);
  }

  // ----- runs that grow by one step -----

  function End(p: Params, store: Store, ops: seq<Op>): Store
    decreases |ops|
  {
    if ops == [] then store else End(p, Apply(p, store, ops[0]), ops[1..])
  }

  lemma {:induction false} RunAppend(p: Params, store: Store, ops: seq<Op>, op: Op, key: string)
    ensures End(p, store, ops + [op]) == Apply(p, End(p, store, ops), op)
    ensures Answers(p, store, ops + [op], key) == Answers(p, store, ops, key) +
              if op.Call? && op.key == key then [TakeKey(p, Slot(End(p, store, ops), key), op.now).1] else []
    ensures CallTimes(ops + [op], key) == CallTimes(ops, key) +
              if op.Call? && op.key == key then [op.now] else []
    decreases |ops|
  {
    if ops == [] {
      assert [op][1..] == [];
    } else {
      assert (ops + [op])[1..] == ops[1..] + [op];
      RunAppend(p, Apply(p, store, ops[0]), ops[1..], op, key);
    }
  }

  lemma {:induction false} ClockAppend(p: Params, ops: seq<Op>, op: Op, start: real)
    requires OnOneClock(p, ops, start) && start <= op.now
    requires forall o :: o in ops ==> o.now <= op.now
    requires op.Visit? ==> op.cutoff <= op.now - p.ttl
    ensures OnOneClock(p, ops + [op], start)
    decreases |ops|
  {
    if ops == [] {
      assert [op][1..] == [];
    } else {
      assert (ops + [op])[1..] == ops[1..] + [op];
      assert ops[0] in ops;
      ClockAppend(p, ops[1..], op, ops[0].now);
    }
  }

  lemma {:induction false} AdmitsInAppend(
      times: seq<real>, out: seq<Decision>, t: real, d: Decision, lo: real, hi: real)
    requires |times| == |out|
    ensures AdmitsIn(times + [t], out + [d], lo, hi)
              == AdmitsIn(times, out, lo, hi) + (if lo <= t <= hi && d.allowed then 1 else 0)
    decreases |times|
  {
    if times == [] {
      assert [t][1..] == [] && [d][1..] == [];
    } else {
      assert (times + [t])[1..] == times[1..] + [t] && (out + [d])[1..] == out[1..] + [d];
      AdmitsInAppend(times[1..], out[1..], t, d, lo, hi);
    }
  }

  ghost function AdmittedAt(times: seq<real>, out: seq<Decision>, lo: real, hi: real): set<nat>
    requires |times| == |out|
  {
    set i: nat | i < |times| && lo <= times[i] <= hi && out[i].allowed
  }

  /** Counting admissions and counting their positions is the same. */
  lemma {:induction false} AdmitsArePositions(times: seq<real>, out: seq<Decision>, lo: real, hi: real)
    requires |times| == |out|
    ensures |AdmittedAt(times, out, lo, hi)| == AdmitsIn(times, out, lo, hi)
    decreases |times|
  {
    if times != [] {
      var n := |times| - 1;
      assert times == times[..n] + [times[n]] && out == out[..n] + [out[n]];
      AdmitsInAppend(times[..n], out[..n], times[n], out[n], lo, hi);
      AdmitsArePositions(times[..n], out[..n], lo, hi);
      var before := AdmittedAt(times[..n], out[..n], lo, hi);
      assert AdmittedAt(times, out, lo, hi) == before + if lo <= times[n] <= hi && out[n].allowed then {n} else {};
    }
  }

  // ----- the limiter object -----

  /** One client key's bucket; the limiter updates it in place under its mutex. */
  class Bucket {
    var tokens: real
    var lastRefill: real

    constructor (tokens: real, lastRefill: real)
      ensures this.tokens == tokens && this.lastRefill == lastRefill
    {
      this.tokens := tokens;
      this.lastRefill := lastRefill;
    }

    function State(): BucketState
      reads this
    {
      BucketState(tokens, lastRefill)
    }

    /** The critical section of a decision. */
    method TakeToken(p: Params, now: real) returns (allowed: bool, remaining: real)
      modifies this
      ensures (State(), Decision(allowed, remaining)) == Take(p, old(State()), now)
      ensures lastRefill == now && remaining == if allowed then tokens else 0.0
    {
      ghost var before := State();
      if now - lastRefill > p.ttl {
        tokens := p.burst;
        lastRefill := now;
      }
      var elapsed := now - lastRefill;
      tokens := tokens + elapsed * p.rate;
      if tokens > p.burst {
        tokens := p.burst;
      }
      lastRefill := now;
      assert tokens == Refilled(p, before, now);
      if tokens < 1.0 {
        return false, 0.0;
      }
      tokens := tokens - 1.0;
      return true, tokens;
    }
  }

  class TokenBucket {
    const p: Params
    var store: map<string, Bucket>

    constructor (rate: real, burst: real)
      ensures Valid() && Contents() == map[] && p == Params(rate, burst, 600.0)
      ensures fresh(this)
    {
      p := Params(rate, burst, EVICTION_TTL);
      store := map[];
    }

    ghost predicate Valid()
      reads this
    {
      forall k, k' :: k in store && k' in store && store[k] == store[k'] ==> k == k'
    }

    ghost function Contents(): Store
      reads this, store.Values
    {
      map k | k in store :: store[k].State()
    }

    /** The key's bucket, created full when there is none. */
    method LoadOrStore(key: string, now: real) returns (bucket: Bucket)
      requires Valid()
      modifies this
      ensures Valid() && fresh(store.Values - old(store.Values)) && key in store && bucket == store[key]
      ensures Contents() ==
              old(Contents())[key := if key in old(Contents()) then old(Contents())[key] else Fresh(p, now)]
    {
      ghost var before := Contents();
      if key !in store {
        var b := new Bucket(p.burst, now);
        store := store[key := b];
      }
      bucket := store[key];
      assert Contents() == before[key := if key in before then before[key] else Fresh(p, now)];
    }

    /** A decision for one key; a cancelled context answers with an error and touches nothing. */
    method Allow(cancelled: bool, key: string, now: real) returns (allowed: bool, remaining: real, err: bool)
      requires Valid()
      modifies this, store.Values
      ensures Valid() && fresh(store.Values - old(store.Values))
      ensures err == cancelled
      ensures cancelled ==> !allowed && remaining == 0.0 && Contents() == old(Contents())
      ensures !cancelled ==>
        Answered(p, old(Contents()), Contents(), key, now, Decision(allowed, remaining))
      ensures !cancelled ==>
        key in store && store[key].lastRefill == now && remaining == if allowed then store[key].tokens else 0.0
    {
      if cancelled {
        return false, 0.0, true;
      }
      ghost var before := Contents();
      var bucket := LoadOrStore(key, now);
      ghost var taken := TakeKey(p, Slot(before, key), now);
      assert bucket.State() == Contents()[key];
      allowed, remaining := bucket.TakeToken(p, now);
      assert (Contents()[key], Decision(allowed, remaining)) == taken;
      err := false;
      assert Contents() == Apply(p, before, Call(key, now));
    }

    /** The sweep's check-and-delete of one key, taken as one step. */
    method VisitKey(key: string, cutoff: real)
      requires Valid()
      modifies this
      ensures Valid() && store.Values <= old(store.Values)
      ensures store ==
              if key in old(store) && old(store[key].lastRefill) < cutoff then old(store) - {key} else old(store)
      ensures forall now :: Contents() == Apply(p, old(Contents()), Visit(key, cutoff, now))
    {
      if key in store {
        var inactive := store[key].lastRefill < cutoff;
        if inactive {
          ghost var before := Contents();
          store := store - {key};
          assert Contents() == before - {key};
        }
      }
    }

    /** One background pass: exactly the buckets a call at `now` would reset are gone. */
    method Sweep(now: real)
      requires Valid()
      modifies this
      ensures Valid() && store.Values <= old(store.Values)
      ensures forall k :: k in store <==> k in old(store) && !Stale(p, old(store[k].State()), now)
      ensures forall k :: k in store ==> store[k] == old(store[k]) && store[k].State() == old(store[k].State())
    {
      var cutoff := now - p.ttl;
      var pending := store.Keys;
      while pending != {}
        invariant Valid() && store.Values <= old(store.Values)
        invariant pending <= store.Keys <= old(store.Keys)
        invariant forall k :: k in old(store) && k !in store ==> Stale(p, old(store[k].State()), now)
        invariant forall k :: k in store && k !in pending ==> !Stale(p, old(store[k].State()), now)
        invariant forall k :: k in store ==> store[k] == old(store[k])
        decreases |pending|
      {
        var key :| key in pending;
        VisitKey(key, cutoff);
        pending := pending - {key};
      }
    }
  }
}
