/**
 The Redis-backed limiter (pkg/ratelimit/redis.go): script evaluations guarded by a circuit breaker,
 a fallback flag with a timed reset, and the in-memory bucket behind them.  Clock readings are
 nanoseconds.
 */
module RedisLimiters {
  import CB = CircuitBreakers
  import TB = TokenBuckets

  /** What evaluating the script gave the client: the reply array, or an error. */
  datatype Outcome = Replied(result: seq<int>) | Failed

  const BREAKER: CB.Config := CB.WithDefaults(CB.Config(5, 2, 30_000_000_000))

  /** How long the flag stays up before the goroutine that was started with it lowers it. */
  const FLAG_HOLD: int := 30_000_000_000

  /** Breaker, fallback flag, and when each sleeping goroutine will lower the flag. */
  datatype Gate = Gate(cb: CB.Breaker, fallbackMode: bool, wakeups: seq<int>)

  const INITIAL := Gate(CB.INITIAL, false, [])

  datatype Path =
    | Skipped     // straight to the fallback
    | EvalFailed  // evaluated, failed, then the fallback
    | EvalOk      // answered by Redis

  /** The fast path: skip Redis while the flag is up or the breaker refuses, which raises the flag. */
  function Consult(g: Gate, now: int): (Gate, bool) {
    if g.fallbackMode then (g, true)
    else
      var (cb, granted) := CB.Ask(BREAKER, g.cb, now);
      if granted then (g.(cb := cb), false) else (Gate(cb, true, g.wakeups + [now + FLAG_HOLD]), true)
  }

  /** One call that nothing overlaps: asked at `now`, outcome recorded at `later`. */
  function Decide(g: Gate, now: int, outcome: Outcome, later: int): (Gate, Path) {
    var (g', skip) := Consult(g, now);
    if skip then (g', Skipped)
    else if outcome.Failed? then (g'.(cb := CB.Fail(BREAKER, g'.cb, later)), EvalFailed)
    else (g'.(cb := CB.Succeed(BREAKER, g'.cb)), EvalOk)
  }

  /**
   Redis is skipped while the flag is up, during a probe, and for thirty seconds from the failure that
   opened the breaker; a skipped call leaves the flag up, and the one that raised it a wakeup thirty
   seconds later.
   */
  lemma SkippedWhen(g: Gate, now: int, outcome: Outcome, later: int)
    ensures var (g', path) := Decide(g, now, outcome, later);
            && (path == Skipped <==>
                g.fallbackMode || g.cb.phase == CB.HalfOpen ||
                (g.cb.phase == CB.Open && now - g.cb.openedAt < 30_000_000_000))
            && (path == EvalFailed <==> path != Skipped && outcome.Failed?)
            && (g'.fallbackMode <==> path == Skipped)
            && g'.wakeups ==
               if path == Skipped && !g.fallbackMode then g.wakeups + [now + 30_000_000_000] else g.wakeups
  {
  }

  /** A non-overlapping run: calls, and goroutines waking to lower the flag. */
  datatype Op =
    | Call(now: int, outcome: Outcome, later: int)
    | Wake(which: nat)

  function Next(g: Gate, op: Op): Gate {
    match op
    case Call(now, outcome, later) => Decide(g, now, outcome, later).0
    case Wake(i) => if i < |g.wakeups| then Gate(g.cb, false, g.wakeups[..i] + g.wakeups[i + 1..]) else g
  }

  function After(g: Gate, ops: seq<Op>): Gate
    decreases |ops|
  {
    if ops == [] then g else After(Next(g, ops[0]), ops[1..])
  }

  /** The way each call of the run went. */
  function Paths(g: Gate, ops: seq<Op>): seq<Path>
    decreases |ops|
  {
    if ops == [] then []
    else
      var rest := Paths(Next(g, ops[0]), ops[1..]);
      if ops[0].Call? then [Decide(g, ops[0].now, ops[0].outcome, ops[0].later).1] + rest else rest
  }

  function FailingCalls(times: seq<(int, int)>): seq<Op> {
    seq(|times|, i requires 0 <= i < |times| => Call(times[i].0, Failed, times[i].1))
  }

  /** Up to five failures in a row all reach Redis, and the fifth opens the breaker. */
  lemma {:induction false} FifthFailureOpens(g: Gate, times: seq<(int, int)>)
    requires g.cb.phase == CB.Closed && !g.fallbackMode && g.cb.fails < 5 && g.cb.fails + |times| <= 5
    ensures var end := After(g, FailingCalls(times));
            && !end.fallbackMode && end.wakeups == g.wakeups
            && (if g.cb.fails + |times| == 5 then end.cb.phase == CB.Open && end.cb.openedAt == times[|times| - 1].1
                else end.cb.phase == CB.Closed)
    ensures forall p :: p in Paths(g, FailingCalls(times)) ==> p == EvalFailed
    decreases |times|
  {
    if times != [] {
      var ops := FailingCalls(times);
      assert ops[1..] == FailingCalls(times[1..]);
      if g.cb.fails + 1 < 5 {
        FifthFailureOpens(Next(g, ops[0]), times[1..]);
      } else {
        assert ops[1..] == [];
      }
    }
  }

  lemma {:induction false} SpentProbeSkipsAll(g: Gate, ops: seq<Op>)
    requires g.cb.phase == CB.HalfOpen
    ensures forall i :: 0 <= i < |Paths(g, ops)| ==> Paths(g, ops)[i] == Skipped
    ensures After(g, ops).cb.phase == CB.HalfOpen
    decreases |ops|
  {
    if ops != [] {
      SpentProbeSkipsAll(Next(g, ops[0]), ops[1..]);
    }
  }

  /**
   Once its breaker has opened, a limiter whose calls do not overlap answers from Redis at most once
   more, after which every call skips Redis for good; all other calls end in the fallback.
   */
  lemma {:induction false} RedisNeverReturns(g: Gate, ops: seq<Op>)
    requires g.cb.phase == CB.Open
    ensures forall i, j :: 0 <= i < j < |Paths(g, ops)| && Paths(g, ops)[i] == EvalOk ==> Paths(g, ops)[j] == Skipped
    ensures After(g, ops).cb.phase != CB.Closed
    decreases |ops|
  {
    if ops != [] {
      var g' := Next(g, ops[0]);
      if g'.cb.phase == CB.Open {
        RedisNeverReturns(g', ops[1..]);
      } else {
        SpentProbeSkipsAll(g', ops[1..]);
      }
    }
  }

  function Seconds(ns: int): real {
    ns as real / 1_000_000_000.0
  }

  class RedisLimiter {
    const cb: CB.CircuitBreaker
    const fallback: TB.TokenBucket
    var fallbackMode: bool
    var wakeups: seq<int>

    constructor (fallback: TB.TokenBucket)
      requires fallback.Valid()
      ensures Valid() && State() == INITIAL && this.fallback == fallback
      ensures cb.cfg == CB.Config(5, 2, 30_000_000_000)
    {
      cb := new CB.CircuitBreaker(CB.Config(5, 2, 30_000_000_000));
      this.fallback := fallback;
      fallbackMode, wakeups := false, [];
    }

    function State(): Gate
      reads this, cb
    {
      Gate(cb.State(), fallbackMode, wakeups)
    }

    ghost predicate Valid()
      reads this, cb, fallback
    {
      cb.Valid() && cb.cfg == BREAKER && fallback.Valid()
    }

    method ConsultGate(now: int) returns (skip: bool)
      requires Valid()
      modifies this, cb
      ensures Valid()
      ensures (State(), skip) == Consult(old(State()), now)
      ensures fallbackMode == skip
      ensures skip <==> old(fallbackMode || cb.state == CB.HalfOpen
                            || (cb.state == CB.Open && now - cb.openedAt < 30_000_000_000))
      ensures wakeups == if skip && !old(fallbackMode) then old(wakeups) + [now + 30_000_000_000] else old(wakeups)
    {
      if fallbackMode {
        return true;
      }
      var granted := cb.Allow(now);
      if !granted {
        fallbackMode := true;
        wakeups := wakeups + [now + FLAG_HOLD];
      }
      return !granted;
    }

    /** Redis decides on the calls that reach it, the bucket on all others, and only the decider changes. */
    method Allow(cancelled: bool, key: string, now: int, outcome: Outcome, later: int)
      returns (allowed: bool, remaining: real, err: bool)
      requires Valid()
      modifies this, cb, fallback, fallback.store.Values
      ensures Valid()
      ensures State() == Decide(old(State()), now, outcome, later).0
      ensures var path, before := Decide(old(State()), now, outcome, later).1, old(fallback.Contents());
              if path == EvalOk then
                && fallback.Contents() == before
                && err == (|outcome.result| < 2)
                && allowed == (!err && outcome.result[0] == 1)
                && (!err ==> remaining == outcome.result[1] as real)
              else
                && err == cancelled
                && (if cancelled then !allowed && fallback.Contents() == before
                    else TB.Answered(fallback.p, before, fallback.Contents(), key,
                                     (if path == Skipped then now else later) as real / 1_000_000_000.0,
                                     TB.Decision(allowed, remaining)))
    {
      ghost var before := fallback.Contents();
      var skip := ConsultGate(now);
      assert fallback.Contents() == before;
      if skip {
        allowed, remaining, err := fallback.Allow(cancelled, key, Seconds(now));
        return;
      }
      if outcome.Failed? {
        cb.RecordFailure(later);
        assert fallback.Contents() == before;
        allowed, remaining, err := fallback.Allow(cancelled, key, Seconds(later));
        return;
      }
      cb.RecordSuccess();
      if |outcome.result| < 2 {
        return false, 0.0, true;
      }
      return outcome.result[0] == 1, outcome.result[1] as real, false;
    }

    /** A goroutine started with the flag finishes its sleep. */
    method WakeUp(which: nat)
      requires which < |wakeups|
      modifies this
      ensures State() == Next(old(State()), Wake(which))
      ensures !fallbackMode && wakeups == old(wakeups)[..which] + old(wakeups)[which + 1..]
    {
      fallbackMode := false;
      wakeups := wakeups[..which] + wakeups[which + 1..];
    }
  }
}
