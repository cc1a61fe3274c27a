/**
 The adaptive balancer: moving averages per instance, weighted scores, and roulette-wheel selection
 (internal/loadbalancer/smart/state.go and balancer.go).  Weights and averages are exact reals; every
 random draw is an argument.
 */
module SmartBalancing {
  import opened Common
  import RR = RoundRobins

  // ----- moving averages -----

  /** One update of an exponentially weighted average. */
  function Blend(alpha: real, sample: real, old_: real): real {
    alpha * sample + (1.0 - alpha) * old_
  }

  function Average(alpha: real, start: real, samples: seq<real>): real {
    if samples == [] then start
    else Blend(alpha, samples[|samples| - 1], Average(alpha, start, samples[..|samples| - 1]))
  }

  function Power(x: real, n: nat): real {
    if n == 0 then 1.0 else x * Power(x, n - 1)
  }

  /** What one sample leaves of a value. */
  function Kept(alpha: real, value: real): real {
    (1.0 - alpha) * value
  }

  lemma KeptAdds(alpha: real, x: real, y: real)
    ensures Kept(alpha, x + y) == Kept(alpha, x) + Kept(alpha, y)
  {
    Spread(1.0 - alpha, x, y);
  }

  /** What is left of a value after `age` later samples. */
  function Faded(alpha: real, value: real, age: nat): real {
    if age == 0 then value else Kept(alpha, Faded(alpha, value, age - 1))
  }

  /** What a new sample adds. */
  function Taken(alpha: real, x: real): real {
    alpha * x
  }

  /** The samples, each taken with alpha and faded by those after it. */
  function WeightedSum(alpha: real, samples: seq<real>): real {
    if samples == [] then 0.0
    else Faded(alpha, Taken(alpha, samples[0]), |samples| - 1) + WeightedSum(alpha, samples[1..])
  }

  lemma Swap(a: real, b: real, c: real)
    ensures a * (b * c) == b * (a * c)
  {
  }

  lemma {:induction false} FadedIsGeometric(alpha: real, value: real, age: nat)
    ensures Faded(alpha, value, age) == value * Power(1.0 - alpha, age)
  {
    if age > 0 {
      FadedIsGeometric(alpha, value, age - 1);
      Swap(1.0 - alpha, value, Power(1.0 - alpha, age - 1));
    }
  }

  lemma Regroup(a: real, b: real, c: real)
    ensures a * (b * c) == (a * b) * c
  {
  }

  lemma {:induction false} FadedScales(alpha: real, value: real, x: real, age: nat)
    ensures Faded(alpha, value * x, age) == Faded(alpha, value, age) * x
  {
    if age > 0 {
      FadedScales(alpha, value, x, age - 1);
      Regroup(1.0 - alpha, Faded(alpha, value, age - 1), x);
    }
  }

  /** A sample counts with a weight that depends on its age alone, alpha (1 - alpha)^age. */
  lemma WeightIsGeometric(alpha: real, x: real, age: nat)
    ensures Faded(alpha, Taken(alpha, x), age) == Faded(alpha, alpha, age) * x
    ensures Faded(alpha, alpha, age) == alpha * Power(1.0 - alpha, age)
  {
    FadedScales(alpha, alpha, x, age);
    FadedIsGeometric(alpha, alpha, age);
  }

  lemma WeightedSumHead(alpha: real, first: real, rest: seq<real>)
    ensures WeightedSum(alpha, [first] + rest) == Faded(alpha, Taken(alpha, first), |rest|) + WeightedSum(alpha, rest)
  {
    assert ([first] + rest)[1..] == rest;
  }

  lemma {:induction false} WeightedSumAppend(alpha: real, samples: seq<real>, x: real)
    ensures WeightedSum(alpha, samples + [x]) == Kept(alpha, WeightedSum(alpha, samples)) + Taken(alpha, x)
  {
    if samples == [] {
      assert [] + [x] == [x] + [];
      WeightedSumHead(alpha, x, []);
    } else {
      var first, rest := samples[0], samples[1..];
      assert samples == [first] + rest && samples + [x] == [first] + (rest + [x]);
      WeightedSumAppend(alpha, rest, x);
      WeightedSumHead(alpha, first, rest);
      WeightedSumHead(alpha, first, rest + [x]);
      KeptAdds(alpha, Faded(alpha, Taken(alpha, first), |rest|), WeightedSum(alpha, rest));
    }
  }

  lemma BlendSplits(alpha: real, sample: real, old_: real)
    ensures Blend(alpha, sample, old_) == Taken(alpha, sample) + Kept(alpha, old_)
  {
  }

  /** After n samples the average is the faded starting value plus the samples, each with its geometric weight. */
  lemma {:induction false} AverageClosedForm(alpha: real, start: real, samples: seq<real>)
    ensures Average(alpha, start, samples) == Faded(alpha, start, |samples|) + WeightedSum(alpha, samples)
  {
    if samples != [] {
      var init, x := samples[..|samples| - 1], samples[|samples| - 1];
      AverageClosedForm(alpha, start, init);
      assert samples == init + [x];
      WeightedSumAppend(alpha, init, x);
      KeptAdds(alpha, Faded(alpha, start, |init|), WeightedSum(alpha, init));
      BlendSplits(alpha, x, Average(alpha, start, init));
    }
  }

  // ----- averages under concurrent updates -----

  /**
   A cell read and written by separate atomic operations.  Concurrent updates may all load before
   any stores, so updates can be lost; `loaded` holds what each unfinished update has read.
   */
  datatype Cell = Cell(value: real, loaded: map<nat, real>)

  datatype CellStep =
    | Load(id: nat)
    | Store(id: nat, sample: real)

  function CellNext(alpha: real, c: Cell, step: CellStep): Cell {
    match step
    case Load(id) => c.(loaded := c.loaded[id := c.value])
    case Store(id, sample) =>
      if id in c.loaded then Cell(Blend(alpha, sample, c.loaded[id]), c.loaded - {id}) else c
  }

  function CellRun(alpha: real, c: Cell, steps: seq<CellStep>): Cell
    decreases |steps|
  {
    if steps == [] then c else CellRun(alpha, CellNext(alpha, c, steps[0]), steps[1..])
  }

  predicate Within(x: real, lo: real, hi: real) {
    lo <= x <= hi
  }

  ghost predicate CellWithin(c: Cell, lo: real, hi: real) {
    Within(c.value, lo, hi) && forall id :: id in c.loaded ==> Within(c.loaded[id], lo, hi)
  }

  lemma Weigh(w: real, a: real, b: real)
    requires w >= 0.0 && a <= b
    ensures w * a <= w * b
  {
  }

  lemma BlendOfSame(alpha: real, x: real)
    ensures Blend(alpha, x, x) == x
  {
  }

  lemma BlendMonotone(alpha: real, x: real, y: real, x': real, y': real)
    requires 0.0 <= alpha <= 1.0 && x <= x' && y <= y'
    ensures Blend(alpha, x, y) <= Blend(alpha, x', y')
  {
    Weigh(alpha, x, x');
    Weigh(1.0 - alpha, y, y');
    assert Blend(alpha, x, y) <= alpha * x' + (1.0 - alpha) * y;
  }

  lemma BlendWithin(alpha: real, sample: real, old_: real, lo: real, hi: real)
    requires 0.0 <= alpha <= 1.0 && Within(sample, lo, hi) && Within(old_, lo, hi)
    ensures Within(Blend(alpha, sample, old_), lo, hi)
  {
    BlendMonotone(alpha, lo, lo, sample, old_);
    BlendMonotone(alpha, sample, old_, hi, hi);
    BlendOfSame(alpha, lo);
    BlendOfSame(alpha, hi);
  }

  /** Whatever the interleaving of loads and stores, the average stays among its starting value and the samples. */
  lemma {:induction false} CellStaysWithin(alpha: real, c: Cell, steps: seq<CellStep>, lo: real, hi: real)
    requires 0.0 <= alpha <= 1.0 && CellWithin(c, lo, hi)
    requires forall s :: s in steps && s.Store? ==> Within(s.sample, lo, hi)
    ensures CellWithin(CellRun(alpha, c, steps), lo, hi)
    decreases |steps|
  {
    if steps != [] {
      var s := steps[0];
      assert s in steps;
      if s.Store? && s.id in c.loaded {
        BlendWithin(alpha, s.sample, c.loaded[s.id], lo, hi);
      }
      CellStaysWithin(alpha, CellNext(alpha, c, s), steps[1..], lo, hi);
    }
  }

  const START_LATENCY: real := 50.0
  const START_ERRORS: real := 0.0

  /** So an error rate is always a rate. */
  lemma ErrorRateIsRate(alpha: real, steps: seq<CellStep>)
    requires 0.0 <= alpha <= 1.0
    requires forall s :: s in steps && s.Store? ==> s.sample == 0.0 || s.sample == 1.0
    ensures 0.0 <= CellRun(alpha, Cell(START_ERRORS, map[]), steps).value <= 1.0
  {
    CellStaysWithin(alpha, Cell(START_ERRORS, map[]), steps, 0.0, 1.0);
  }

  /** And a latency lies between the least and the greatest of 50 and the samples. */
  lemma LatencyIsBounded(alpha: real, steps: seq<CellStep>, lo: real, hi: real)
    requires 0.0 <= alpha <= 1.0 && lo <= START_LATENCY <= hi
    requires forall s :: s in steps && s.Store? ==> lo <= s.sample <= hi
    ensures lo <= CellRun(alpha, Cell(START_LATENCY, map[]), steps).value <= hi
  {
    CellStaysWithin(alpha, Cell(START_LATENCY, map[]), steps, lo, hi);
  }

  // ----- scores -----

  datatype Weights = Weights(latency: real, errors: real, load: real)

  datatype Config = Config(
    weights: Weights, maxLatency: real, maxConcurrent: real,
    explorationRate: real, latencyAlpha: real, errorAlpha: real)

  /** Weights are nonnegative, and the two normalising constants positive. */
  predicate Sane(cfg: Config) {
    && cfg.weights.latency >= 0.0 && cfg.weights.errors >= 0.0 && cfg.weights.load >= 0.0
    && cfg.maxLatency > 0.0 && cfg.maxConcurrent > 0.0
  }

  /** The scores are defined: a zero constant would divide by zero, in floating point by a signed infinity or NaN. */
  predicate Scored(cfg: Config) {
    cfg.maxLatency != 0.0 && cfg.maxConcurrent != 0.0
  }

  datatype Telemetry = Telemetry(inflight: int, latency: real, errorRate: real)

  const UNSEEN := Telemetry(0, START_LATENCY, START_ERRORS)

  const FLOOR: real := 0.01

  /** One feature: 1 at zero, 0 from the cap on. */
  function Feature(x: real, cap: real): real
    requires cap != 0.0
  {
    MaxReal(0.0, 1.0 - x / cap)
  }

  /** The weighted linear model. */
  function Mix(w: Weights, latency: real, errors: real, load: real): real {
    w.latency * latency + w.errors * errors + w.load * load
  }

  lemma MixMonotone(w: Weights, a: real, b: real, c: real, a': real, b': real, c': real)
    requires w.latency >= 0.0 && w.errors >= 0.0 && w.load >= 0.0
    requires a <= a' && b <= b' && c <= c'
    ensures Mix(w, a, b, c) <= Mix(w, a', b', c')
  {
    Weigh(w.latency, a, a');
    Weigh(w.errors, b, b');
    Weigh(w.load, c, c');
  }

  function Score(cfg: Config, t: Telemetry): real
    requires Scored(cfg)
  {
    MaxReal(FLOOR, Mix(cfg.weights, Feature(t.latency, cfg.maxLatency), Feature(t.errorRate, 1.0),
                       Feature(t.inflight as real, cfg.maxConcurrent)))
  }

  lemma FeatureAntitone(x: real, y: real, cap: real)
    requires cap > 0.0 && x <= y
    ensures Feature(y, cap) <= Feature(x, cap)
    ensures 0.0 <= x ==> Feature(x, cap) <= 1.0
    ensures 0.0 <= Feature(x, cap)
  {
    assert x / cap <= y / cap;
    assert 0.0 <= x ==> 0.0 <= x / cap;
  }

  /** Lower latency, error rate and load never lower a score. */
  lemma BetterNeverScoresLower(cfg: Config, better: Telemetry, worse: Telemetry)
    requires Sane(cfg)
    requires better.latency <= worse.latency && better.errorRate <= worse.errorRate && better.inflight <= worse.inflight
    ensures Score(cfg, worse) <= Score(cfg, better)
  {
    FeatureAntitone(better.latency, worse.latency, cfg.maxLatency);
    FeatureAntitone(better.errorRate, worse.errorRate, 1.0);
    FeatureAntitone(better.inflight as real, worse.inflight as real, cfg.maxConcurrent);
    MixMonotone(cfg.weights,
                Feature(worse.latency, cfg.maxLatency), Feature(worse.errorRate, 1.0),
                Feature(worse.inflight as real, cfg.maxConcurrent),
                Feature(better.latency, cfg.maxLatency), Feature(better.errorRate, 1.0),
                Feature(better.inflight as real, cfg.maxConcurrent));
  }

  /** The greatest score any instance can have. */
  function Ceiling(cfg: Config): real {
    MaxReal(FLOOR, cfg.weights.latency + cfg.weights.errors + cfg.weights.load)
  }

  lemma ScoreRange(cfg: Config, t: Telemetry)
    requires Sane(cfg) && t.inflight >= 0 && t.latency >= 0.0 && t.errorRate >= 0.0
    ensures FLOOR <= Score(cfg, t) <= Ceiling(cfg)
  {
    FeatureAntitone(t.latency, t.latency, cfg.maxLatency);
    FeatureAntitone(t.errorRate, t.errorRate, 1.0);
    FeatureAntitone(t.inflight as real, t.inflight as real, cfg.maxConcurrent);
    MixMonotone(cfg.weights,
                Feature(t.latency, cfg.maxLatency), Feature(t.errorRate, 1.0),
                Feature(t.inflight as real, cfg.maxConcurrent), 1.0, 1.0, 1.0);
  }

  /** How far a measurement uses up its cap: 0 when idle, 1 from the cap on. */
  function Used(x: real, cap: real): real
    requires cap > 0.0
  {
    if x >= cap then 1.0 else x / cap
  }

  lemma FeatureIsUnused(x: real, cap: real)
    requires cap > 0.0
    ensures Feature(x, cap) == 1.0 - Used(x, cap)
  {
    AtCap(x, cap);
  }

  lemma AtCap(x: real, cap: real)
    requires cap > 0.0
    ensures x >= cap <==> x / cap >= 1.0
  {
    if x < cap {
      TimesStrict(x, cap, 1.0 / cap);
      assert x / cap == x * (1.0 / cap) && cap / cap == 1.0;
    } else {
      TimesMonotone(cap, x, 1.0 / cap);
      assert x / cap == x * (1.0 / cap) && cap / cap == 1.0;
    }
  }

  /** A weight, as far as the measurement uses up its cap. */
  function Charge(w: real, x: real, cap: real): real
    requires cap > 0.0
  {
    w * Used(x, cap)
  }

  lemma LessCharge(w: real, x: real, cap: real)
    requires cap > 0.0
    ensures w * Feature(x, cap) == w - Charge(w, x, cap)
  {
    FeatureIsUnused(x, cap);
    assert w * (1.0 - Used(x, cap)) == w - w * Used(x, cap);
  }

  predicate Capped(cfg: Config) {
    cfg.maxLatency > 0.0 && cfg.maxConcurrent > 0.0
  }

  /** Sum of the weights, each charged for its own measurement. */
  function Remaining(cfg: Config, t: Telemetry): real
    requires Capped(cfg)
  {
    cfg.weights.latency + cfg.weights.errors + cfg.weights.load
      - Charge(cfg.weights.latency, t.latency, cfg.maxLatency)
      - Charge(cfg.weights.errors, t.errorRate, 1.0)
      - Charge(cfg.weights.load, t.inflight as real, cfg.maxConcurrent)
  }

  /** The score is what remains of the weights, and never below 0.01. */
  lemma ScoreIsRemaining(cfg: Config, t: Telemetry)
    requires Capped(cfg)
    ensures Score(cfg, t) == if Remaining(cfg, t) > 0.01 then Remaining(cfg, t) else 0.01
  {
    LessCharge(cfg.weights.latency, t.latency, cfg.maxLatency);
    LessCharge(cfg.weights.errors, t.errorRate, 1.0);
    LessCharge(cfg.weights.load, t.inflight as real, cfg.maxConcurrent);
  }

  lemma ChargeGrows(w: real, x: real, x': real, cap: real)
    requires cap > 0.0 && x <= cap && x' <= cap
    ensures Charge(w, x', cap) - Charge(w, x, cap) == w * (x' - x) / cap
  {
    AtCap(cap, cap);
    assert Used(x, cap) == x / cap && Used(x', cap) == x' / cap;
    assert w * (x' / cap) == w * x' / cap && w * (x / cap) == w * x / cap;
    assert w * (x' - x) == w * x' - w * x;
  }

  /** Below the caps and above the floor, a change of latency alone moves the score by its own weight and cap. */
  lemma LatencyMovesScore(cfg: Config, t: Telemetry, latency: real)
    requires Capped(cfg) && t.latency <= cfg.maxLatency && latency <= cfg.maxLatency
    requires Score(cfg, t) > 0.01 && Score(cfg, t.(latency := latency)) > 0.01
    ensures Score(cfg, t.(latency := latency)) - Score(cfg, t) ==
            -(cfg.weights.latency * (latency - t.latency) / cfg.maxLatency)
  {
    ScoreIsRemaining(cfg, t);
    ScoreIsRemaining(cfg, t.(latency := latency));
    ChargeGrows(cfg.weights.latency, t.latency, latency, cfg.maxLatency);
  }

  /** And so does a change of the error rate alone, whose cap is 1. */
  lemma ErrorsMoveScore(cfg: Config, t: Telemetry, errorRate: real)
    requires Capped(cfg) && t.errorRate <= 1.0 && errorRate <= 1.0
    requires Score(cfg, t) > 0.01 && Score(cfg, t.(errorRate := errorRate)) > 0.01
    ensures Score(cfg, t.(errorRate := errorRate)) - Score(cfg, t) == -(cfg.weights.errors * (errorRate - t.errorRate))
  {
    ScoreIsRemaining(cfg, t);
    ScoreIsRemaining(cfg, t.(errorRate := errorRate));
    ChargeGrows(cfg.weights.errors, t.errorRate, errorRate, 1.0);
  }

  /** And of the attempts in flight alone. */
  lemma LoadMovesScore(cfg: Config, t: Telemetry, inflight: int)
    requires Capped(cfg) && t.inflight as real <= cfg.maxConcurrent && inflight as real <= cfg.maxConcurrent
    requires Score(cfg, t) > 0.01 && Score(cfg, t.(inflight := inflight)) > 0.01
    ensures Score(cfg, t.(inflight := inflight)) - Score(cfg, t) ==
            -(cfg.weights.load * (inflight - t.inflight) as real / cfg.maxConcurrent)
  {
    ScoreIsRemaining(cfg, t);
    ScoreIsRemaining(cfg, t.(inflight := inflight));
    ChargeGrows(cfg.weights.load, t.inflight as real, inflight as real, cfg.maxConcurrent);
  }

  /** An instance with nothing in flight, no errors and no latency scores the sum of the weights. */
  lemma IdleScore(cfg: Config)
    requires Capped(cfg)
    ensures var sum := cfg.weights.latency + cfg.weights.errors + cfg.weights.load;
            Score(cfg, Telemetry(0, 0.0, 0.0)) == if sum > 0.01 then sum else 0.01
  {
    ScoreIsRemaining(cfg, Telemetry(0, 0.0, 0.0));
    assert Used(0.0, cfg.maxLatency) == Used(0.0, 1.0) == Used(0.0, cfg.maxConcurrent) == 0.0;
  }

  // ----- the roulette wheel -----

  /** Sum of the first `n` scores: the accumulator after `n` turns. */
  function Prefix(scores: seq<real>, n: nat): real
    requires n <= |scores|
  {
    if n == 0 then 0.0 else Prefix(scores, n - 1) + scores[n - 1]
  }

  function Total(scores: seq<real>): real {
    Prefix(scores, |scores|)
  }

  predicate Positive(scores: seq<real>) {
    forall i :: 0 <= i < |scores| ==> scores[i] > 0.0
  }

  /** The stretch of targets that belongs to position `i`: closed above, and open below except at zero. */
  predicate Owns(scores: seq<real>, i: nat, target: real)
    requires i < |scores|
  {
    (if i == 0 then 0.0 <= target else Prefix(scores, i) < target) && target <= Prefix(scores, i + 1)
  }

  lemma {:induction false} PrefixMonotone(scores: seq<real>, i: nat, j: nat)
    requires Positive(scores) && i <= j <= |scores|
    ensures Prefix(scores, i) <= Prefix(scores, j)
    ensures i < j ==> Prefix(scores, i) < Prefix(scores, j)
    decreases j
  {
    if i < j {
      PrefixMonotone(scores, i, j - 1);
    }
  }

  /** No target belongs to two positions. */
  lemma StretchesDisjoint(scores: seq<real>, i: nat, j: nat, target: real)
    requires Positive(scores) && i < |scores| && j < |scores|
    requires Owns(scores, i, target) && Owns(scores, j, target)
    ensures i == j
  {
    if i < j {
      PrefixMonotone(scores, i + 1, j);
    } else if j < i {
      PrefixMonotone(scores, j + 1, i);
    }
  }

  /** The targets of a position are one interval of the wheel, exactly as long as its score. */
  lemma StretchLength(scores: seq<real>, i: nat) returns (lo: real)
    requires Positive(scores) && i < |scores|
    ensures 0.0 <= lo && lo + scores[i] <= Total(scores)
    ensures forall t :: Owns(scores, i, t) <==> (lo < t || (i == 0 && t == 0.0)) && t <= lo + scores[i]
  {
    lo := Prefix(scores, i);
    PrefixMonotone(scores, 0, i);
    PrefixMonotone(scores, i + 1, |scores|);
  }

  /** The spin: the first position whose accumulated score reaches the target; the length if none does. */
  method Spin(scores: seq<real>, target: real) returns (i: nat)
    requires Positive(scores) && 0.0 <= target
    ensures i <= |scores|
    ensures i < |scores| ==> Owns(scores, i, target)
    ensures i == |scores| <==> scores == [] || Total(scores) < target
  {
    var accum := 0.0;
    i := 0;
    while i < |scores|
      invariant i <= |scores| && accum == Prefix(scores, i)
      invariant i > 0 ==> accum < target
    {
      accum := accum + scores[i];
      if accum >= target {
        PrefixMonotone(scores, i + 1, |scores|);
        return;
      }
      i := i + 1;
    }
  }

  /** The target a uniform draw picks on the wheel. */
  function Target(scores: seq<real>, draw: real): real {
    draw * Total(scores)
  }

  lemma TargetBelowTotal(scores: seq<real>, draw: real)
    requires Positive(scores) && scores != [] && 0.0 <= draw < 1.0
    ensures 0.0 <= Target(scores, draw) < Total(scores)
  {
    TotalPositive(scores);
    ScaleDown(draw, Total(scores));
  }

  lemma TotalPositive(scores: seq<real>)
    requires Positive(scores) && scores != []
    ensures Total(scores) > 0.0
  {
    PrefixMonotone(scores, 0, |scores|);
  }

  lemma ScaleDown(draw: real, t: real)
    requires 0.0 <= draw < 1.0 && 0.0 < t
    ensures 0.0 <= draw * t < t
  {
    assert (1.0 - draw) * t > 0.0;
  }

  /** A drawn target lies below the total, so the loop always stops and the rounding fallback is never taken. */
  method SpinWheel(scores: seq<real>, total: real, draw: real) returns (i: nat)
    requires Positive(scores) && scores != [] && total == Total(scores) && 0.0 <= draw < 1.0
    ensures i < |scores| && Owns(scores, i, Target(scores, draw))
  {
    var target := draw * total;
    TargetBelowTotal(scores, draw);
    i := Spin(scores, target);
  }

  /** Below the total every target has an owner, so the fallback pick is never needed. */
  lemma {:induction false} EveryTargetOwned(scores: seq<real>, n: nat, target: real) returns (i: nat)
    requires Positive(scores) && 0 < n <= |scores| && 0.0 <= target <= Prefix(scores, n)
    ensures i < n && Owns(scores, i, target)
    decreases n
  {
    if n == 1 || Prefix(scores, n - 1) < target {
      i := n - 1;
    } else {
      i := EveryTargetOwned(scores, n - 1, target);
    }
  }

  /** The wheel is partitioned: every target below the total has exactly one owner. */
  lemma WheelIsPartitioned(scores: seq<real>, target: real)
    requires Positive(scores) && scores != [] && 0.0 <= target < Total(scores)
    ensures exists i :: 0 <= i < |scores| && Owns(scores, i, target) &&
                        forall j :: 0 <= j < |scores| && Owns(scores, j, target) ==> i == j
  {
    var i := EveryTargetOwned(scores, |scores|, target);
    forall j | 0 <= j < |scores| && Owns(scores, j, target) ensures i == j {
      StretchesDisjoint(scores, i, j, target);
    }
  }

  lemma {:induction false} TotalAtMost(scores: seq<real>, n: nat, top: real)
    requires n <= |scores| && forall i :: 0 <= i < |scores| ==> scores[i] <= top
    ensures Prefix(scores, n) <= n as real * top
    decreases n
  {
    if n > 0 {
      TotalAtMost(scores, n - 1, top);
      assert (n - 1) as real * top + top == n as real * top;
    }
  }

  function Scores(cfg: Config, ts: seq<Telemetry>): (s: seq<real>)
    requires Scored(cfg)
    ensures |s| == |ts| && forall i :: 0 <= i < |ts| ==> s[i] == Score(cfg, ts[i])
  {
    seq(|ts|, i requires 0 <= i < |ts| => Score(cfg, ts[i]))
  }

  /** The share of the wheel that no instance of `n` falls below. */
  function LeastShare(cfg: Config, n: nat): real
    requires n > 0
  {
    FLOOR / (n as real * Ceiling(cfg))
  }

  /** The draws in (low, low + share], which lies within (0, 1], all land on the position. */
  ghost predicate Receives(scores: seq<real>, i: nat, low: real, share: real)
    requires i < |scores|
  {
    && 0.0 <= low && low + share <= 1.0
    && forall draw :: low < draw <= low + share ==> Owns(scores, i, Target(scores, draw))
  }

  lemma ScoresBounded(cfg: Config, ts: seq<Telemetry>)
    requires Sane(cfg) && ts != []
    requires forall t :: t in ts ==> t.inflight >= 0 && t.latency >= 0.0 && t.errorRate >= 0.0
    ensures forall k :: 0 <= k < |ts| ==> FLOOR <= Scores(cfg, ts)[k] <= Ceiling(cfg)
    ensures 0.0 < Total(Scores(cfg, ts)) <= |ts| as real * Ceiling(cfg)
  {
    var s := Scores(cfg, ts);
    forall k | 0 <= k < |s| ensures FLOOR <= s[k] <= Ceiling(cfg) {
      assert ts[k] in ts;
      ScoreRange(cfg, ts[k]);
    }
    PrefixMonotone(s, 0, |s|);
    TotalAtMost(s, |s|, Ceiling(cfg));
  }

  /** A stretch of targets is a stretch of draws, shorter by the total. */
  lemma StretchOfDraws(scores: seq<real>, i: nat) returns (low: real)
    requires Positive(scores) && i < |scores|
    ensures Total(scores) > 0.0 && Receives(scores, i, low, scores[i] / Total(scores))
  {
    TotalPositive(scores);
    var lo := StretchLength(scores, i);
    var total := Total(scores);
    low := lo / total;
    Fractions(lo, scores[i], total);
    forall draw | low < draw <= low + scores[i] / total ensures Owns(scores, i, Target(scores, draw)) {
      DrawInStretch(lo, scores[i], total, draw);
    }
  }

  lemma SumTimes(a: real, b: real, c: real)
    ensures (a + b) * c == a * c + b * c
  {
  }

  lemma Fractions(lo: real, size: real, total: real)
    requires 0.0 < total && 0.0 <= lo && lo + size <= total
    ensures 0.0 <= lo / total && lo / total + size / total <= 1.0
  {
    var a, b := lo / total, size / total;
    assert a * total == lo && b * total == size;
    SumTimes(a, b, total);
    CancelFactor(0.0, a, total);
    CancelFactor(a + b, 1.0, total);
  }

  lemma DrawInStretch(lo: real, size: real, total: real, draw: real)
    requires 0.0 < total && lo / total < draw <= lo / total + size / total
    ensures lo < draw * total <= lo + size
  {
    var a, b := lo / total, size / total;
    assert a * total == lo && b * total == size;
    SumTimes(a, b, total);
    TimesMonotone(draw, a + b, total);
    TimesStrict(a, draw, total);
  }

  lemma TimesMonotone(x: real, y: real, c: real)
    requires x <= y && 0.0 < c
    ensures x * c <= y * c
  {
  }

  lemma TimesStrict(x: real, y: real, c: real)
    requires x < y && 0.0 < c
    ensures x * c < y * c
  {
  }

  /**
   No eligible instance starves: an interval of draws whose length depends only on the configuration
   and the number of candidates lands on it.
   */
  lemma ShareFloor(cfg: Config, ts: seq<Telemetry>, i: nat) returns (low: real)
    requires Sane(cfg) && i < |ts|
    requires forall t :: t in ts ==> t.inflight >= 0 && t.latency >= 0.0 && t.errorRate >= 0.0
    ensures 0.0 < LeastShare(cfg, |ts|) && Receives(Scores(cfg, ts), i, low, LeastShare(cfg, |ts|))
  {
    var s := Scores(cfg, ts);
    ScoresBounded(cfg, ts);
    low := StretchOfDraws(s, i);
    LeastShareIsLeast(cfg, |ts|, s[i], Total(s));
    ReceivesLess(s, i, low, s[i] / Total(s), LeastShare(cfg, |ts|));
  }

  lemma LeastShareIsLeast(cfg: Config, n: nat, score: real, total: real)
    requires 0 < n && FLOOR <= score && 0.0 < total <= n as real * Ceiling(cfg)
    ensures 0.0 < LeastShare(cfg, n) <= score / total
  {
    QuotientMonotone(FLOOR, score, total, n as real * Ceiling(cfg));
  }

  lemma ReceivesLess(scores: seq<real>, i: nat, low: real, share: real, less: real)
    requires i < |scores| && less <= share && Receives(scores, i, low, share)
    ensures Receives(scores, i, low, less)
  {
  }

  lemma QuotientMonotone(a: real, b: real, small: real, big: real)
    requires 0.0 <= a <= b && 0.0 < small <= big
    ensures a / big <= b / small
  {
    var p, q := b / small, a / big;
    assert p * small == b && q * big == a;
    Weigh(p, small, big);
    CancelFactor(q, p, big);
  }

  lemma CancelFactor(x: real, y: real, d: real)
    requires d > 0.0 && x * d <= y * d
    ensures x <= y
  {
  }

  // ----- the balancer object -----

  /** Telemetry per instance id. */
  type Fleet = map<string, Telemetry>

  function Known(fleet: Fleet, id: string): Telemetry {
    if id in fleet then fleet[id] else UNSEEN
  }

  /** The fleet once every listed instance has telemetry. */
  function Meet(fleet: Fleet, instances: seq<RR.Instance>): Fleet {
    if instances == [] then fleet
    else
      var n := |instances| - 1;
      var met := Meet(fleet, instances[..n]);
      met[instances[n].id := Known(met, instances[n].id)]
  }

  lemma {:induction false} MeetKeeps(fleet: Fleet, instances: seq<RR.Instance>, id: string)
    ensures Known(Meet(fleet, instances), id) == Known(fleet, id)
  {
    if instances != [] {
      MeetKeeps(fleet, instances[..|instances| - 1], id);
      MeetKeeps(fleet, instances[..|instances| - 1], instances[|instances| - 1].id);
    }
  }

  function Started(t: Telemetry): Telemetry {
    t.(inflight := t.inflight + 1)
  }

  /** A finished attempt: one less in flight, both averages updated. */
  function Recorded(cfg: Config, t: Telemetry, latencyMs: int, isErr: bool): Telemetry {
    Telemetry(t.inflight - 1,
              Blend(cfg.latencyAlpha, latencyMs as real, t.latency),
              Blend(cfg.errorAlpha, if isErr then 1.0 else 0.0, t.errorRate))
  }

  /** A report of a finished attempt. */
  datatype Report = Report(latencyMs: int, isErr: bool)

  function AfterReports(cfg: Config, t: Telemetry, reports: seq<Report>): Telemetry {
    if reports == [] then t
    else
      var n := |reports| - 1;
      Recorded(cfg, AfterReports(cfg, t, reports[..n]), reports[n].latencyMs, reports[n].isErr)
  }

  function Latencies(reports: seq<Report>): (xs: seq<real>)
    ensures |xs| == |reports|
  {
    seq(|reports|, i requires 0 <= i < |reports| => reports[i].latencyMs as real)
  }

  function Errors(reports: seq<Report>): (xs: seq<real>)
    ensures |xs| == |reports|
  {
    seq(|reports|, i requires 0 <= i < |reports| => if reports[i].isErr then 1.0 else 0.0)
  }

  /**
   After any reports, the latency is the average of their latencies at the latency's smoothing, the
   error rate that of ones and zeros at the error rate's, and each report ended one attempt.
   */
  lemma {:induction false} ReportsAverage(cfg: Config, t: Telemetry, reports: seq<Report>)
    ensures var t' := AfterReports(cfg, t, reports);
            && t'.latency == Average(cfg.latencyAlpha, t.latency, Latencies(reports))
            && t'.errorRate == Average(cfg.errorAlpha, t.errorRate, Errors(reports))
            && t'.inflight == t.inflight - |reports|
  {
    if reports != [] {
      var init := reports[..|reports| - 1];
      ReportsAverage(cfg, t, init);
      assert Latencies(reports)[..|init|] == Latencies(init);
      assert Errors(reports)[..|init|] == Errors(init);
    }
  }

  /** What the wheel is divided into: the eligible instances' scores, in order. */
  function Wheel(cfg: Config, fleet: Fleet, eligible: seq<RR.Instance>): (s: seq<real>)
    requires Scored(cfg)
    ensures |s| == |eligible| && Positive(s)
  {
    Scores(cfg, seq(|eligible|, i requires 0 <= i < |eligible| => Known(fleet, eligible[i].id)))
  }

  /** The scores of the first `k` candidates. */
  predicate ScoresOf(cfg: Config, fleet: Fleet, eligible: seq<RR.Instance>, k: nat, scores: seq<real>)
    requires Scored(cfg)
  {
    |scores| == k <= |eligible| && forall i :: 0 <= i < k ==> scores[i] == Score(cfg, Known(fleet, eligible[i].id))
  }

  lemma OneMoreScore(
      cfg: Config, fleet: Fleet, eligible: seq<RR.Instance>, k: nat, scores: seq<real>, score: real)
    requires Scored(cfg) && k < |eligible| && ScoresOf(cfg, fleet, eligible, k, scores)
    requires score == Score(cfg, Known(fleet, eligible[k].id))
    ensures ScoresOf(cfg, fleet, eligible, k + 1, scores + [score])
    ensures Total(scores + [score]) == Total(scores) + score
  {
    TotalGrows(scores, score);
  }

  lemma WheelInOrder(cfg: Config, fleet: Fleet, eligible: seq<RR.Instance>, scores: seq<real>)
    requires Scored(cfg) && ScoresOf(cfg, fleet, eligible, |eligible|, scores)
    ensures scores == Wheel(cfg, fleet, eligible)
  {
  }

  lemma TotalGrows(scores: seq<real>, x: real)
    ensures Total(scores + [x]) == Total(scores) + x
  {
    PrefixAppend(scores, x, |scores|);
  }

  class InstanceState {
    var inflight: int
    var ewmaLatency: real
    var ewmaErrorRate: real

    constructor ()
      ensures State() == Telemetry(0, 50.0, 0.0)
    {
      inflight, ewmaLatency, ewmaErrorRate := 0, 50.0, 0.0;
    }

    function State(): Telemetry
      reads this
    {
      Telemetry(inflight, ewmaLatency, ewmaErrorRate)
    }

    method RecordStart()
      modifies this
      ensures State() == Started(old(State()))
    {
      inflight := inflight + 1;
    }

    /** Run without interference; interleaved updates are the `Cell` runs above. */
    method Record(cfg: Config, latencyMs: int, isErr: bool)
      modifies this
      ensures State() == Recorded(cfg, old(State()), latencyMs, isErr)
    {
      inflight := inflight - 1;
      var oldLat := ewmaLatency;
      var newLat := cfg.latencyAlpha * (latencyMs as real) + (1.0 - cfg.latencyAlpha) * oldLat;
      ewmaLatency := newLat;
      var errVal := if isErr then 1.0 else 0.0;
      var oldErr := ewmaErrorRate;
      var newErr := cfg.errorAlpha * errVal + (1.0 - cfg.errorAlpha) * oldErr;
      ewmaErrorRate := newErr;
    }
  }

  class Balancer {
    const cfg: Config
    var states: map<string, InstanceState>

    /** Starts with unseen telemetry for the given instances. */
    constructor (cfg: Config, instances: seq<RR.Instance>)
      ensures Valid() && this.cfg == cfg && fresh(states.Values)
      ensures Contents() == Meet(map[], instances)
      ensures forall id :: Known(Contents(), id) == Telemetry(0, 50.0, 0.0)
    {
      this.cfg := cfg;
      states := map[];
      new;
      for k := 0 to |instances|
        invariant Valid() && fresh(states.Values) && Contents() == Meet(map[], instances[..k])
      {
        assert instances[..k + 1][..k] == instances[..k];
        var s := GetState(instances[k].id);
      }
      assert instances[..|instances|] == instances;
      forall id ensures Known(Contents(), id) == UNSEEN {
        MeetKeeps(map[], instances, id);
      }
    }

    ghost predicate Valid()
      reads this
    {
      forall id, id' :: id in states && id' in states && states[id] == states[id'] ==> id == id'
    }

    ghost function Contents(): Fleet
      reads this, states.Values
    {
      map id | id in states :: states[id].State()
    }

    method GetState(id: string) returns (s: InstanceState)
      requires Valid()
      modifies this
      ensures Valid() && id in states && s == states[id]
      ensures fresh(states.Values - old(states.Values)) && old(states.Values) <= states.Values
      ensures Contents() == old(Contents())[id := Known(old(Contents()), id)]
    {
      if id in states {
        s := states[id];
      } else {
        s := new InstanceState();
        assert s !in states.Values;
        ghost var before := states;
        states := states[id := s];
        forall x | x in before ensures before[x] in states.Values {
          assert states[x] == before[x];
        }
      }
      assert Contents() == old(Contents())[id := Known(old(Contents()), id)];
    }

    /** One instance's score, feature by feature. */
    method ScoreOf(s: InstanceState) returns (score: real)
      requires Scored(cfg)
      ensures score == Score(cfg, s.State())
    {
      var latScore := 1.0 - s.ewmaLatency / cfg.maxLatency;
      if latScore < 0.0 {
        latScore := 0.0;
      }
      var errScore := 1.0 - s.ewmaErrorRate;
      if errScore < 0.0 {
        errScore := 0.0;
      }
      var loadScore := 1.0 - s.inflight as real / cfg.maxConcurrent;
      if loadScore < 0.0 {
        loadScore := 0.0;
      }
      assert errScore == Feature(s.ewmaErrorRate, 1.0);
      score := cfg.weights.latency * latScore + cfg.weights.errors * errScore + cfg.weights.load * loadScore;
      if score <= 0.01 {
        score := 0.01;
      }
    }

    /** Looks up and scores one more instance. */
    method ScoreNext(ghost fleet: Fleet, eligible: seq<RR.Instance>, k: nat) returns (score: real)
      requires Valid() && Scored(cfg)
      requires k < |eligible| && Contents() == Meet(fleet, eligible[..k])
      modifies this
      ensures Valid() && fresh(states.Values - old(states.Values)) && old(states.Values) <= states.Values
      ensures Contents() == Meet(fleet, eligible[..k + 1]) && score == Score(cfg, Known(fleet, eligible[k].id))
    {
      var s := GetState(eligible[k].id);
      assert eligible[..k + 1][..k] == eligible[..k];
      MeetKeeps(fleet, eligible[..k], eligible[k].id);
      assert s.State() == Contents()[eligible[k].id];
      score := ScoreOf(s);
    }

    method ScoreAll(eligible: seq<RR.Instance>) returns (scores: seq<real>, total: real)
      requires Valid() && Scored(cfg)
      modifies this
      ensures Valid() && fresh(states.Values - old(states.Values)) && old(states.Values) <= states.Values
      ensures Contents() == Meet(old(Contents()), eligible)
      ensures scores == Wheel(cfg, old(Contents()), eligible) && total == Total(scores)
    {
      scores, total := [], 0.0;
      ghost var fleet := Contents();
      for k := 0 to |eligible|
        invariant Valid() && fresh(states.Values - old(states.Values)) && old(states.Values) <= states.Values
        invariant Contents() == Meet(fleet, eligible[..k])
        invariant ScoresOf(cfg, fleet, eligible, k, scores)
        invariant total == Total(scores)
      {
        var score := ScoreNext(fleet, eligible, k);
        OneMoreScore(cfg, fleet, eligible, k, scores, score);
        scores := scores + [score];
        total := total + score;
      }
      WheelInOrder(cfg, fleet, eligible, scores);
      assert eligible[..|eligible|] == eligible;
    }

    /** Exploration or one spin of the wheel. */
    method Choose(eligible: seq<RR.Instance>, coin: real, pick: nat, spin: real) returns (chosen: RR.Instance)
      requires Valid() && eligible != [] && Scored(cfg) && 0.0 <= spin < 1.0
      modifies this
      ensures Valid() && fresh(states.Values - old(states.Values)) && old(states.Values) <= states.Values
      ensures Selects(cfg, old(Contents()), eligible, coin, pick, spin, chosen)
      ensures Contents() == if Explores(cfg, eligible, coin) then old(Contents()) else Meet(old(Contents()), eligible)
    {
      if coin < cfg.explorationRate || |eligible| == 1 {
        chosen := eligible[pick % |eligible|];
      } else {
        var scores, total := ScoreAll(eligible);
        var i := SpinWheel(scores, total, spin);
        chosen := eligible[i];
      }
    }

    /** Marks an attempt as started on the selected instance. */
    method Begin(id: string)
      requires Valid()
      modifies this, states.Values
      ensures Valid() && fresh(states.Values - old(states.Values))
      ensures Contents() == old(Contents())[id := Started(Known(old(Contents()), id))]
    {
      var s := GetState(id);
      ghost var met := Contents();
      s.RecordStart();
      assert Contents() == met[id := Started(met[id])];
    }

    /**
     Selection and start of an attempt.  With a coin below the exploration rate, or a single
     candidate, the pick is uniform; otherwise the spin lands in the selected instance's own stretch
     of the wheel.  Only the selected instance gains an attempt in flight.
     */
    method Next(instances: seq<RR.Instance>, skipped: seq<bool>, coin: real, pick: nat, spin: real)
      returns (selected: Option<RR.Instance>)
      requires Valid() && |instances| == |skipped| && Scored(cfg)
      requires 0.0 <= spin < 1.0
      modifies this, states.Values
      ensures Valid() && fresh(states.Values - old(states.Values))
      ensures var eligible, fleet := RR.Filtered(instances, skipped), old(Contents());
              if eligible == [] then selected == None && Contents() == fleet
              else
                && selected.Some?
                && Selects(cfg, fleet, eligible, coin, pick, spin, selected.value)
                && Contents() == (if Explores(cfg, eligible, coin) then fleet else Meet(fleet, eligible))
                     [selected.value.id := Started(Known(fleet, selected.value.id))]
      ensures var eligible := RR.Filtered(instances, skipped);
              eligible != [] ==>
                if coin < cfg.explorationRate || |eligible| == 1 then selected == Some(eligible[pick % |eligible|])
                else selected.Some? && LandsOn(cfg, old(Contents()), eligible, spin, selected.value)
    {
      var eligible := RR.RoundRobin.FilterEligible(instances, skipped);
      if |eligible| == 0 {
        return None;
      }
      ghost var fleet := Contents();
      var chosen := Choose(eligible, coin, pick, spin);
      MeetKeeps(fleet, eligible, chosen.id);
      Begin(chosen.id);
      selected := Some(chosen);
    }

    /** The callback handed out with a selection. */
    method Done(id: string, latencyMs: int, isErr: bool)
      requires Valid() && id in states
      modifies states[id]
      ensures Valid() && states == old(states)
      ensures Contents() == old(Contents())[id := Recorded(cfg, old(Contents())[id], latencyMs, isErr)]
    {
      states[id].Record(cfg, latencyMs, isErr);
    }
  }

  predicate Explores(cfg: Config, eligible: seq<RR.Instance>, coin: real) {
    coin < cfg.explorationRate || |eligible| == 1
  }

  /** The instance a selection takes: the uniform pick when exploring, else the one the spin lands on. */
  predicate Selects(
      cfg: Config, fleet: Fleet, eligible: seq<RR.Instance>, coin: real, pick: nat, spin: real, inst: RR.Instance)
    requires eligible != [] && Scored(cfg)
  {
    if Explores(cfg, eligible, coin) then inst == eligible[pick % |eligible|]
    else LandsOn(cfg, fleet, eligible, spin, inst)
  }

  /** The spin's target lies in a stretch of the wheel owned by this instance. */
  predicate LandsOn(cfg: Config, fleet: Fleet, eligible: seq<RR.Instance>, spin: real, inst: RR.Instance)
    requires Scored(cfg)
  {
    var wheel := Wheel(cfg, fleet, eligible);
    exists i :: 0 <= i < |eligible| && eligible[i] == inst && Owns(wheel, i, Target(wheel, spin))
  }

  lemma {:induction false} PrefixAppend(scores: seq<real>, x: real, n: nat)
    requires n <= |scores|
    ensures Prefix(scores + [x], n) == Prefix(scores, n)
    ensures n == |scores| ==> Total(scores + [x]) == Total(scores) + x
    decreases n
  {
    if n > 0 {
      PrefixAppend(scores, x, n - 1);
    }
  }
}
