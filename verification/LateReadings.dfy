/**
 When the background sweep can be seen: calls read the clock before they take the bucket's lock, so a
 late reading may find the bucket gone where the unswept one would not yet be full
 (pkg/ratelimit/tokenbucket.go).
 */
module LateReadings {
  import opened Common
  import opened TokenBuckets

  /** No run whose readings are at most `lag` old shows a key that its bucket was swept, or that others exist. */
  ghost predicate Transparent(p: Params, lag: real) {
    forall ops, at, key, start :: WithinLag(p, ops, at, lag, start) ==>
      Answers(p, map[], ops, key) == Solo(p, None, CallTimes(ops, key))
  }

  /** Some run from here on answers a key differently than the never-swept bucket would. */
  ghost predicate Shows(p: Params, lag: real, store: Store, key: string, slot: Option<BucketState>, clock: real) {
    exists ops, at ::
      WithinLag(p, ops, at, lag, clock) && Answers(p, store, ops, key) != Solo(p, slot, CallTimes(ops, key))
  }

  /** A step on the key's own bucket, after which the difference shows. */
  lemma ShowsAfter(
      p: Params, lag: real, store: Store, key: string, slot: Option<BucketState>, clock: real, op: Op, at: real)
    requires clock <= at && Timely(p, op, at, lag) && op.key == key
    requires op.Call? ==> TakeKey(p, Slot(store, key), op.now).1 == TakeKey(p, slot, op.now).1
    requires Shows(p, lag, Apply(p, store, op), key, if op.Call? then Some(TakeKey(p, slot, op.now).0) else slot, at)
    ensures Shows(p, lag, store, key, slot, clock)
  {
    var slot' := if op.Call? then Some(TakeKey(p, slot, op.now).0) else slot;
    var ops, ats :| WithinLag(p, ops, ats, lag, at) &&
                    Answers(p, Apply(p, store, op), ops, key) != Solo(p, slot', CallTimes(ops, key));
    var all, times := [op] + ops, [at] + ats;
    assert all[1..] == ops && times[1..] == ats;
    assert WithinLag(p, all, times, lag, clock);
    if op.Call? {
      var d, t := TakeKey(p, slot, op.now).1, CallTimes(all, key);
      assert t == [op.now] + CallTimes(ops, key) && t[1..] == CallTimes(ops, key);
      assert Answers(p, store, all, key) == [d] + Answers(p, Apply(p, store, op), ops, key);
      assert Solo(p, slot, t) == [d] + Solo(p, slot', CallTimes(ops, key));
      assert Answers(p, store, all, key)[1..] != Solo(p, slot, t)[1..];
    }
    assert Answers(p, store, all, key) != Solo(p, slot, CallTimes(all, key));
  }

  lemma ShowsNow(p: Params, lag: real, store: Store, key: string, slot: Option<BucketState>, clock: real, now: real)
    requires clock - lag <= now <= clock
    requires TakeKey(p, Slot(store, key), now).1 != TakeKey(p, slot, now).1
    ensures Shows(p, lag, store, key, slot, clock)
  {
    var op := Call(key, now);
    assert [op][1..] == [] && [clock][1..] == [] && [now][1..] == [];
    assert WithinLag(p, [op], [clock], lag, clock);
    assert CallTimes([op], key) == [now] + CallTimes([], key);
    assert Answers(p, store, [op], key)[0] == TakeKey(p, Slot(store, key), now).1;
    assert Solo(p, slot, [now])[0] == TakeKey(p, slot, now).1;
  }

  /** Refill over the eviction time less two lags does not make up the capacity. */
  predicate Overtaken(p: Params, lag: real) {
    0.0 <= p.rate && 1.0 <= p.burst && 0.0 < lag && 2.0 * lag <= p.ttl && Refill(p, p.ttl - 2.0 * lag) < p.burst
  }

  /** A pause just past the eviction time, short enough that the refill still falls behind. */
  function Pause(p: Params, lag: real, slack: real): real
    requires 0.0 <= p.rate
  {
    MinReal(lag, Moment(p, slack))
  }

  lemma PauseIsShort(p: Params, lag: real, slack: real)
    requires 0.0 <= p.rate && 0.0 < lag && 0.0 < slack
    ensures 0.0 < Pause(p, lag, slack) <= lag && Refill(p, Pause(p, lag, slack)) < slack
  {
    MomentIsShort(p, slack);
    RefillMonotone(p, Pause(p, lag, slack), Moment(p, slack));
  }

  /** Dry bucket, late call, sweep, late call: the last one finds no bucket and is answered from a full one. */
  lemma LateCallsShowSweep(p: Params, lag: real, store: Store, key: string, b: BucketState)
    requires Overtaken(p, lag) && Slot(store, key) == Some(b)
    requires 0.0 <= b.tokens < 1.0 && b.tokens + Refill(p, p.ttl - 2.0 * lag) < p.burst
    ensures Shows(p, lag, store, key, Some(b), b.lastRefill)
  {
    var a := b.lastRefill;
    var slack := p.burst - b.tokens - Refill(p, p.ttl - 2.0 * lag);
    var e := Pause(p, lag, slack);
    PauseIsShort(p, lag, slack);
    RefillAdds(p, -lag, lag);
    RefillMonotone(p, -lag, 0.0);
    RefillAdds(p, 0.0, 0.0);

    var late := Call(key, a - lag);
    TakeUncapped(p, b, a - lag);
    var b1 := BucketState(b.tokens + Refill(p, -lag), a - lag);
    assert TakeKey(p, Some(b), a - lag) == (b1, Decision(false, 0.0));
    var store1 := Apply(p, store, late);

    var v := a - lag + p.ttl + e;
    var visit := Visit(key, v - p.ttl, v);
    var store2 := Apply(p, store1, visit);
    assert key !in store2;

    var now := v - lag;
    assert now - b1.lastRefill == p.ttl - lag + e;
    RefillAdds(p, -lag, p.ttl - lag + e);
    RefillAdds(p, p.ttl - 2.0 * lag, e);
    assert b1.tokens + Refill(p, now - b1.lastRefill) < p.burst;
    RefilledUncapped(p, b1, now);
    AnswersAsMissing(p, b1, now);
    ShowsNow(p, lag, store2, key, Some(b1), v, now);
    ShowsAfter(p, lag, store1, key, Some(b1), a, visit, v);
    ShowsAfter(p, lag, store, key, Some(b), a, late, a);
  }

  /** A bucket can be drained until what is left does not matter, and then the sweep shows. */
  lemma {:induction false} DrainingShowsSweep(p: Params, lag: real, store: Store, key: string, b: BucketState)
    requires Overtaken(p, lag) && Slot(store, key) == Some(b) && 0.0 <= b.tokens <= p.burst
    ensures Shows(p, lag, store, key, Some(b), b.lastRefill)
    decreases b.tokens.Floor
  {
    RefillAdds(p, 0.0, 0.0);
    var need := Refill(p, p.ttl - 2.0 * lag);
    if 1.0 <= b.tokens {
      var op := Call(key, b.lastRefill);
      TakeUncapped(p, b, b.lastRefill);
      DrainingShowsSweep(p, lag, Apply(p, store, op), key, BucketState(b.tokens - 1.0, b.lastRefill));
      ShowsAfter(p, lag, store, key, Some(b), b.lastRefill, op, b.lastRefill);
    } else if b.tokens + need < p.burst {
      LateCallsShowSweep(p, lag, store, key, b);
    } else {
      assert p.rate > 0.0;
      RefillMonotone(p, p.ttl - 2.0 * lag, p.ttl);
      WaitRefills(p, b.tokens, p.ttl);
      var t := b.lastRefill + Wait(p, b.tokens);
      var op, b' := Call(key, t), BucketState(0.0, t);
      TakeUncapped(p, b, t);
      assert TakeKey(p, Some(b), t).0 == b';
      LateCallsShowSweep(p, lag, Apply(p, store, op), key, b');
      ShowsAfter(p, lag, store, key, Some(b), b.lastRefill, op, t);
    }
  }

  lemma LagGrows(p: Params, ops: seq<Op>, at: seq<real>, lag: real, more: real, start: real)
    requires lag <= more && WithinLag(p, ops, at, lag, start)
    ensures WithinLag(p, ops, at, more, start)
    decreases |ops|
  {
    if ops != [] {
      LagGrows(p, ops[1..], at[1..], lag, more, at[0]);
    }
  }

  lemma SweepShows(p: Params, lag: real)
    requires 0.0 <= p.rate && 0.0 < p.ttl && 0.0 < lag && !Hidden(p, lag)
    ensures !Transparent(p, lag)
  {
    var less := MinReal(lag, p.ttl / 2.0);
    RefillAdds(p, 0.0, 0.0);
    var b := BucketState(p.burst - 1.0, 0.0);
    FreshCall(p, None, 0.0);
    var op := Call("k", 0.0);
    DrainingShowsSweep(p, less, Apply(p, map[], op), "k", b);
    ShowsAfter(p, less, map[], "k", None, 0.0, op, 0.0);
    var ops, at :|
      WithinLag(p, ops, at, less, 0.0) && Answers(p, map[], ops, "k") != Solo(p, None, CallTimes(ops, "k"));
    LagGrows(p, ops, at, less, lag, 0.0);
  }

  /**
   The sweep is invisible to every run whose readings are at most `lag` old exactly when readings are
   never late, or no call is ever admitted, or the refill over the eviction time less two lags
   makes up the capacity: one lag for the call that finds no bucket, one for the debt a late call
   before the sweep may have left.
   */
  lemma TransparencyCharacterised(p: Params, lag: real)
    requires 0.0 <= p.rate && 0.0 < p.ttl && 0.0 <= lag
    ensures Transparent(p, lag) <==> (lag == 0.0 || p.burst < 1.0 || p.burst <= p.rate * (p.ttl - 2.0 * lag))
  {
    if Hidden(p, lag) {
      forall ops, at, key, start | WithinLag(p, ops, at, lag, start)
        ensures Answers(p, map[], ops, key) == Solo(p, None, CallTimes(ops, key))
      {
        SweepAndKeyTransparency(p, ops, at, lag, key, start);
      }
    } else {
      SweepShows(p, lag);
    }
  }
}
