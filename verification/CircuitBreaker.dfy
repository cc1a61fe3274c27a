/**
 The circuit breaker (pkg/circuitbreaker/circuitbreaker.go).  Every method runs under the breaker's
 mutex, so each is one step; times are readings of one monotonic clock, taken inside the step.
 */
module CircuitBreakers {

  datatype Phase = Closed | Open | HalfOpen

  datatype Config = Config(failureThreshold: int, successThreshold: int, resetTimeout: int)

  /** Thirty seconds, in the clock's nanoseconds. */
  const DEFAULT_RESET: int := 30_000_000_000

  function WithDefaults(c: Config): Config {
    Config(if c.failureThreshold == 0 then 5 else c.failureThreshold,
           if c.successThreshold == 0 then 2 else c.successThreshold,
           if c.resetTimeout == 0 then DEFAULT_RESET else c.resetTimeout)
  }

  datatype Breaker = Breaker(phase: Phase, fails: nat, oks: nat, openedAt: int)

  const INITIAL := Breaker(Closed, 0, 0, 0)

  function Enter(b: Breaker, phase: Phase): Breaker {
    Breaker(phase, 0, 0, b.openedAt)
  }

  function Ask(c: Config, b: Breaker, now: int): (Breaker, bool) {
    match b.phase
    case Closed => (b, true)
    case Open => if now - b.openedAt >= c.resetTimeout then (Enter(b, HalfOpen), true) else (b, false)
    case HalfOpen => (b, false)
  }

  function Succeed(c: Config, b: Breaker): Breaker {
    var b' := b.(fails := 0, oks := b.oks + 1);
    if b'.phase == HalfOpen && b'.oks >= c.successThreshold then Enter(b', Closed) else b'
  }

  function Fail(c: Config, b: Breaker, now: int): Breaker {
    var b' := b.(oks := 0, fails := b.fails + 1);
    if b'.phase == HalfOpen || (b'.phase == Closed && b'.fails >= c.failureThreshold)
    then Enter(b'.(openedAt := now), Open)
    else b'
  }

  datatype Event =
    | Asked(now: int)
    | Succeeded
    | Failed(now: int)

  function Step(c: Config, b: Breaker, e: Event): Breaker {
    match e
    case Asked(now) => Ask(c, b, now).0
    case Succeeded => Succeed(c, b)
    case Failed(now) => Fail(c, b, now)
  }

  /** The breaker after a whole event log. */
  function Run(c: Config, log: seq<Event>): Breaker {
    if log == [] then INITIAL else Step(c, Run(c, log[..|log| - 1]), log[|log| - 1])
  }

  // ----- state and counters as a reading of the log -----

  /** Length of the log when the current phase was entered. */
  function Entered(c: Config, log: seq<Event>): (n: nat)
    ensures n <= |log|
  {
    if log == [] then 0
    else if Run(c, log).phase != Run(c, log[..|log| - 1]).phase then |log|
    else Entered(c, log[..|log| - 1])
  }

  /** The events since the current phase was entered. */
  function Stay(c: Config, log: seq<Event>): seq<Event> {
    log[Entered(c, log)..]
  }

  /** Failures since the last success, ignoring questions. */
  function TrailingFails(events: seq<Event>): nat {
    if events == [] then 0
    else
      var init := events[..|events| - 1];
      match events[|events| - 1]
      case Asked(_) => TrailingFails(init)
      case Succeeded => 0
      case Failed(_) => 1 + TrailingFails(init)
  }

  /** Successes since the last failure, ignoring questions. */
  function TrailingOks(events: seq<Event>): nat {
    if events == [] then 0
    else
      var init := events[..|events| - 1];
      match events[|events| - 1]
      case Asked(_) => TrailingOks(init)
      case Succeeded => 1 + TrailingOks(init)
      case Failed(_) => 0
  }

  lemma StayGrows(c: Config, log: seq<Event>)
    requires log != [] && Run(c, log).phase == Run(c, log[..|log| - 1]).phase
    ensures Stay(c, log) == Stay(c, log[..|log| - 1]) + [log[|log| - 1]]
  {
    var init, n := log[..|log| - 1], Entered(c, log);
    assert n == Entered(c, init);
    assert log == init + [log[|log| - 1]];
  }

  lemma TrailingAppend(events: seq<Event>, e: Event)
    ensures TrailingFails(events + [e]) ==
            if e.Asked? then TrailingFails(events) else if e.Failed? then 1 + TrailingFails(events) else 0
    ensures TrailingOks(events + [e]) ==
            if e.Asked? then TrailingOks(events) else if e.Succeeded? then 1 + TrailingOks(events) else 0
  {
    assert (events + [e])[..|events|] == events;
  }

  /** State and counters, read off the events since the phase was entered. */
  predicate Reads(c: Config, b: Breaker, stay: seq<Event>) {
    && b.fails == TrailingFails(stay) && b.oks == TrailingOks(stay)
    && (b.fails == 0 || b.oks == 0)
    && (b.phase == Closed ==> b.fails == 0 || b.fails < c.failureThreshold)
    && (b.phase == HalfOpen ==>
        (forall e :: e in stay ==> !e.Failed?) && (b.oks == 0 || b.oks < c.successThreshold))
  }

  lemma StepReads(c: Config, b: Breaker, stay: seq<Event>, e: Event)
    requires Reads(c, b, stay)
    ensures if Step(c, b, e).phase == b.phase then Reads(c, Step(c, b, e), stay + [e]) else Reads(c, Step(c, b, e), [])
  {
    TrailingAppend(stay, e);
  }

  /** An open breaker dates from the failure that opened it. */
  predicate Dated(b: Breaker, log: seq<Event>, n: nat)
    requires n <= |log|
  {
    b.phase == Open ==> 0 < n && log[n - 1] == Failed(b.openedAt)
  }

  lemma StepDates(c: Config, b: Breaker, init: seq<Event>, e: Event, n: nat)
    requires n <= |init| && Dated(b, init, n)
    ensures Dated(Step(c, b, e), init + [e], if Step(c, b, e).phase == b.phase then n else |init| + 1)
  {
  }

  /**
   The breaker refines its history.  Counters are the trailing runs since the phase was entered and
   are never both positive; Closed has not reached the failure threshold, HalfOpen has seen no
   failure and fewer successes than needed, and Open dates from the failure that opened it.
   */
  lemma {:induction false} BreakerRefinesHistory(c: Config, log: seq<Event>)
    ensures Reads(c, Run(c, log), Stay(c, log)) && Dated(Run(c, log), log, Entered(c, log))
  {
    if log != [] {
      var init, e := log[..|log| - 1], log[|log| - 1];
      BreakerRefinesHistory(c, init);
      assert log == init + [e] && Run(c, log) == Step(c, Run(c, init), e);
      StepDates(c, Run(c, init), init, e, Entered(c, init));
      StepReads(c, Run(c, init), Stay(c, init), e);
      if Run(c, log).phase == Run(c, init).phase {
        StayGrows(c, log);
      } else {
        assert Stay(c, log) == [];
      }
    }
  }

  /** The next phase, read off the history alone. */
  function PhaseAfter(c: Config, log: seq<Event>, e: Event): Phase {
    var phase, stay, n := Run(c, log).phase, Stay(c, log), Entered(c, log);
    match e
    case Asked(now) =>
      if phase == Open && 0 < n && log[n - 1].Failed? && now - log[n - 1].now >= c.resetTimeout then HalfOpen else phase
    case Succeeded =>
      if phase == HalfOpen && 1 + TrailingOks(stay) >= c.successThreshold then Closed else phase
    case Failed(_) =>
      if phase == HalfOpen || (phase == Closed && 1 + TrailingFails(stay) >= c.failureThreshold) then Open else phase
  }

  /** No transition depends on anything but the events since the phase was entered and the one that entered it. */
  lemma PhaseFollowsHistory(c: Config, log: seq<Event>, e: Event)
    ensures Run(c, log + [e]).phase == PhaseAfter(c, log, e)
  {
    BreakerRefinesHistory(c, log);
    LogAppend(c, log, e);
  }

  /**
   A question is granted when Closed, or when Open since a failure at least the reset timeout ago; and
   of the grants outside Closed, each is one that moves the breaker to HalfOpen.
   */
  lemma GrantFollowsHistory(c: Config, log: seq<Event>, now: int)
    ensures var phase, n := Run(c, log).phase, Entered(c, log);
            Ask(c, Run(c, log), now).1 <==>
              phase == Closed ||
              (phase == Open && 0 < n && log[n - 1].Failed? && now - log[n - 1].now >= c.resetTimeout)
    ensures Ask(c, Run(c, log), now).1 <==>
              Run(c, log).phase == Closed ||
              (Run(c, log).phase == Open && Run(c, log + [Asked(now)]).phase == HalfOpen)
  {
    BreakerRefinesHistory(c, log);
    LogAppend(c, log, Asked(now));
  }

  // ----- the settings a breaker is built with -----

  function Successes(n: nat): seq<Event> {
    seq(n, _ => Succeeded)
  }

  function Failures(times: seq<int>): seq<Event> {
    seq(|times|, i requires 0 <= i < |times| => Failed(times[i]))
  }

  lemma FailuresInit(times: seq<int>)
    requires times != []
    ensures Failures(times) == Failures(times[..|times| - 1]) + [Failed(times[|times| - 1])]
  {
  }

  /** A new breaker opens at its k-th failure in a row for a threshold of k, and at the fifth for one of 0. */
  lemma {:induction false} OpensAtThreshold(c: Config, times: seq<int>)
    ensures var b := Run(WithDefaults(c), Failures(times));
            var k := if c.failureThreshold == 0 then 5 else if c.failureThreshold < 0 then 1 else c.failureThreshold;
            && b.oks == 0 && (b.phase == Closed ==> b.fails == |times|)
            && if |times| >= k then b.phase == Open && b.openedAt == times[k - 1] else b.phase == Closed
  {
    if times != [] {
      var init := times[..|times| - 1];
      OpensAtThreshold(c, init);
      FailuresInit(times);
      LogAppend(WithDefaults(c), Failures(init), Failed(times[|times| - 1]));
    }
  }

  /** An open one lets a probe through from the timeout on, and from thirty seconds on for a timeout of 0. */
  lemma ProbesAfterTimeout(c: Config, log: seq<Event>, now: int)
    requires Run(WithDefaults(c), log).phase == Open
    ensures var n := Entered(WithDefaults(c), log);
            0 < n && log[n - 1].Failed? &&
            (Run(WithDefaults(c), log + [Asked(now)]).phase == HalfOpen <==>
              now - log[n - 1].now >= (if c.resetTimeout == 0 then 30_000_000_000 else c.resetTimeout))
  {
    BreakerRefinesHistory(WithDefaults(c), log);
    LogAppend(WithDefaults(c), log, Asked(now));
  }

  /** A probing one closes at the k-th success since the probe for a threshold of k, and at the second for one of 0. */
  lemma {:induction false} ClosesAtThreshold(c: Config, log: seq<Event>, n: nat)
    requires Run(WithDefaults(c), log).phase == HalfOpen && Entered(WithDefaults(c), log) == |log|
    ensures var b := Run(WithDefaults(c), log + Successes(n));
            var k := if c.successThreshold == 0 then 2 else if c.successThreshold < 0 then 1 else c.successThreshold;
            && (b.phase == HalfOpen ==> b.oks == n)
            && b.phase == if n >= k then Closed else HalfOpen
  {
    if n == 0 {
      BreakerRefinesHistory(WithDefaults(c), log);
      assert log + Successes(0) == log;
    } else {
      ClosesAtThreshold(c, log, n - 1);
      assert log + Successes(n) == log + Successes(n - 1) + [Succeeded];
      LogAppend(WithDefaults(c), log + Successes(n - 1), Succeeded);
    }
  }

  /** The calls the transition callback receives. */
  function Transitions(c: Config, log: seq<Event>): seq<(Phase, Phase)> {
    if log == [] then []
    else
      var from, to := Run(c, log[..|log| - 1]).phase, Run(c, log).phase;
      Transitions(c, log[..|log| - 1]) + if from == to then [] else [(from, to)]
  }

  predicate LegalEdge(edge: (Phase, Phase)) {
    edge == (Closed, Open) || edge == (Open, HalfOpen) || edge == (HalfOpen, Closed) || edge == (HalfOpen, Open)
  }

  /** The callback log is a connected path over the four legal edges, from Closed to the current phase. */
  lemma {:induction false} TransitionsFormPath(c: Config, log: seq<Event>)
    ensures var path := Transitions(c, log);
            && (forall i :: 0 <= i < |path| ==> LegalEdge(path[i]))
            && (forall i :: 0 < i < |path| ==> path[i].0 == path[i - 1].1)
            && (if path == [] then Run(c, log).phase == Closed
                else path[0].0 == Closed && path[|path| - 1].1 == Run(c, log).phase)
  {
    if log != [] {
      TransitionsFormPath(c, log[..|log| - 1]);
    }
  }

  lemma LogAppend(c: Config, log: seq<Event>, e: Event)
    ensures Run(c, log + [e]) == Step(c, Run(c, log), e)
    ensures var from, to := Run(c, log).phase, Run(c, log + [e]).phase;
            Transitions(c, log + [e]) == Transitions(c, log) + if from == to then [] else [(from, to)]
  {
    assert (log + [e])[..|log|] == log;
  }

  // ----- spacing of probes while the breaker is not Closed -----

  /** Events in clock order from `clock` on; a success carries no reading. */
  predicate OnClock(events: seq<Event>, clock: int)
    decreases |events|
  {
    events == [] ||
    (events[0].Succeeded? && OnClock(events[1..], clock)) ||
    (!events[0].Succeeded? && clock <= events[0].now && OnClock(events[1..], events[0].now))
  }

  predicate NeverClosed(c: Config, b: Breaker, events: seq<Event>)
    decreases |events|
  {
    b.phase != Closed && (events == [] || NeverClosed(c, Step(c, b, events[0]), events[1..]))
  }

  /** When the questions of the segment were granted. */
  function Grants(c: Config, b: Breaker, events: seq<Event>): seq<int>
    decreases |events|
  {
    if events == [] then []
    else
      var rest := Grants(c, Step(c, b, events[0]), events[1..]);
      if events[0].Asked? && Ask(c, b, events[0].now).1 then [events[0].now] + rest else rest
  }

  predicate Spaced(times: seq<int>, gap: int) {
    forall i, j :: 0 <= i < j < |times| ==> times[i] + gap <= times[j]
  }

  /**
   Over a segment in which the breaker is never Closed, granted questions are at least the reset
   timeout apart, whatever stale outcomes arrive in between.
   */
  lemma {:induction false} ProbesAreSpaced(c: Config, b: Breaker, events: seq<Event>, clock: int)
    requires 0 <= c.resetTimeout && OnClock(events, clock) && NeverClosed(c, b, events)
    ensures Spaced(Grants(c, b, events), c.resetTimeout)
    ensures forall g :: g in Grants(c, b, events) ==>
              clock <= g && (if b.phase == Open then b.openedAt else clock) + c.resetTimeout <= g
    decreases |events|
  {
    if events != [] {
      var e := events[0];
      ProbesAreSpaced(c, Step(c, b, e), events[1..], if e.Succeeded? then clock else e.now);
      var rest := Grants(c, Step(c, b, e), events[1..]);
      assert forall i :: 0 <= i < |rest| ==> rest[i] in rest;
    }
  }

  lemma {:induction false} SpacedSpan(times: seq<int>, gap: nat)
    requires times != [] && Spaced(times, gap)
    ensures times[0] + (|times| - 1) * gap <= times[|times| - 1]
  {
    if |times| > 1 {
      SpacedSpan(times[..|times| - 1], gap);
      assert (|times| - 1) * gap == (|times| - 2) * gap + gap;
    }
  }

  /** So a segment of length `span` grants at most 1 + span / resetTimeout questions. */
  lemma ProbeBudget(c: Config, b: Breaker, events: seq<Event>, clock: int, span: nat)
    requires 0 < c.resetTimeout && OnClock(events, clock) && NeverClosed(c, b, events)
    requires forall e :: e in events && e.Asked? ==> e.now <= clock + span
    ensures |Grants(c, b, events)| <= 1 + span / c.resetTimeout
  {
    var grants := Grants(c, b, events);
    if grants != [] {
      ProbesAreSpaced(c, b, events, clock);
      SpacedSpan(grants, c.resetTimeout);
      GrantsAreAsked(c, b, events);
      var last := grants[|grants| - 1];
      assert grants[0] in grants && last in grants;
      QuotientBound(|grants| - 1, c.resetTimeout, span);
    }
  }

  lemma ProductMonotone(a: nat, b: nat, d: nat)
    requires a <= b
    ensures a * d <= b * d
  {
  }

  lemma QuotientBound(n: nat, d: nat, span: nat)
    requires 0 < d && n * d <= span
    ensures n <= span / d
  {
    if span / d < n {
      ProductMonotone(span / d + 1, n, d);
    }
  }

  lemma {:induction false} GrantsAreAsked(c: Config, b: Breaker, events: seq<Event>)
    ensures forall g :: g in Grants(c, b, events) ==> Asked(g) in events
    decreases |events|
  {
    if events != [] {
      GrantsAreAsked(c, Step(c, b, events[0]), events[1..]);
    }
  }

  // ----- recovery as a well-behaved client sees it -----

  /** One non-overlapping call: ask at `now`, and if granted record the outcome at `later`. */
  datatype Try = Try(now: int, ok: bool, later: int)

  function Attempt(c: Config, b: Breaker, t: Try): Breaker {
    var (b', granted) := Ask(c, b, t.now);
    if !granted then b' else if t.ok then Succeed(c, b') else Fail(c, b', t.later)
  }

  function AttemptAll(c: Config, b: Breaker, tries: seq<Try>): Breaker
    decreases |tries|
  {
    if tries == [] then b else AttemptAll(c, Attempt(c, b, tries[0]), tries[1..])
  }

  predicate TriesOnClock(tries: seq<Try>, clock: int)
    decreases |tries|
  {
    tries == [] || (clock <= tries[0].now <= tries[0].later && TriesOnClock(tries[1..], tries[0].later))
  }

  /** A run of such calls that brings the breaker back to Closed. */
  predicate Recovers(c: Config, b: Breaker, tries: seq<Try>, clock: int) {
    TriesOnClock(tries, clock) && AttemptAll(c, b, tries).phase == Closed
  }

  /** Open, or HalfOpen with its single probe already spent on a success. */
  predicate Tripped(b: Breaker) {
    b.phase == Open || (b.phase == HalfOpen && b.oks == 1)
  }

  lemma {:induction false} TrippedForever(c: Config, b: Breaker, tries: seq<Try>)
    requires 2 <= c.successThreshold && Tripped(b)
    ensures Tripped(AttemptAll(c, b, tries))
    decreases |tries|
  {
    if tries != [] {
      TrippedForever(c, Attempt(c, b, tries[0]), tries[1..]);
    }
  }

  /**
   A client whose calls do not overlap can bring an open breaker back to Closed exactly when one
   success is enough; with the default threshold of two it never recovers.
   */
  lemma RecoveryCharacterised(c: Config, b: Breaker, clock: int)
    requires b.phase == Open
    ensures (exists tries :: Recovers(c, b, tries, clock)) <==> c.successThreshold <= 1
  {
    if c.successThreshold <= 1 {
      var due := b.openedAt + c.resetTimeout;
      var now := if due < clock then clock else due;
      var t := Try(now, true, now);
      assert [t][1..] == [];
      assert AttemptAll(c, b, [t]) == AttemptAll(c, Attempt(c, b, t), []);
      assert TriesOnClock([t], clock);
      assert Recovers(c, b, [t], clock);
    } else {
      forall tries ensures !Recovers(c, b, tries, clock) {
        TrippedForever(c, b, tries);
      }
    }
  }

  function RunFrom(c: Config, b: Breaker, events: seq<Event>): Breaker
    decreases |events|
  {
    if events == [] then b else RunFrom(c, Step(c, b, events[0]), events[1..])
  }

  lemma {:induction false} RunFromAppend(c: Config, b: Breaker, events: seq<Event>, more: seq<Event>)
    ensures RunFrom(c, b, events + more) == RunFrom(c, RunFrom(c, b, events), more)
    decreases |events|
  {
    if events == [] {
      assert [] + more == more;
    } else {
      assert (events + more)[1..] == events[1..] + more;
      RunFromAppend(c, Step(c, b, events[0]), events[1..], more);
    }
  }

  /** Overlapping calls are the way out: enough outcomes from calls still in flight close a half-open breaker. */
  lemma {:induction false} StaleSuccessesClose(c: Config, b: Breaker)
    requires b.phase == HalfOpen && b.oks < c.successThreshold
    ensures RunFrom(c, b, Successes(c.successThreshold - b.oks)).phase == Closed
    ensures forall k: nat :: k < c.successThreshold - b.oks ==> RunFrom(c, b, Successes(k)).phase == HalfOpen
    decreases c.successThreshold - b.oks
  {
    var b' := Succeed(c, b);
    forall k: nat | k > 0
      ensures RunFrom(c, b, Successes(k)) == RunFrom(c, b', Successes(k - 1))
    {
      assert Successes(k)[1..] == Successes(k - 1);
    }
    if b.oks + 1 < c.successThreshold {
      StaleSuccessesClose(c, b');
    }
    forall k: nat | k < c.successThreshold - b.oks
      ensures RunFrom(c, b, Successes(k)).phase == HalfOpen
    {
      if k > 0 {
        assert RunFrom(c, b, Successes(k)) == RunFrom(c, b', Successes(k - 1));
      }
    }
  }

  // ----- the breaker object -----

  class CircuitBreaker {
    const cfg: Config
    var state: Phase
    var consecutiveFails: nat
    var consecutiveOKs: nat
    var openedAt: int
    /** What the optional callback has been told. */
    var notified: seq<(Phase, Phase)>
    ghost var history: seq<Event>

    constructor (c: Config)
      ensures Valid() && history == [] && cfg == WithDefaults(c) && notified == []
      ensures cfg == Config(if c.failureThreshold == 0 then 5 else c.failureThreshold,
                            if c.successThreshold == 0 then 2 else c.successThreshold,
                            if c.resetTimeout == 0 then 30_000_000_000 else c.resetTimeout)
    {
      cfg := WithDefaults(c);
      state, consecutiveFails, consecutiveOKs, openedAt := Closed, 0, 0, 0;
      notified, history := [], [];
    }

    function State(): Breaker
      reads this
    {
      Breaker(state, consecutiveFails, consecutiveOKs, openedAt)
    }

    /** The fields and the callback log are what the history says. */
    ghost predicate Valid()
      reads this
    {
      State() == Run(cfg, history) && notified == Transitions(cfg, history)
    }

    method Transition(to: Phase)
      modifies this
      ensures State() == Enter(old(State()), to)
      ensures notified == old(notified) + [(old(state), to)] && history == old(history)
    {
      var from := state;
      state := to;
      consecutiveFails := 0;
      consecutiveOKs := 0;
      notified := notified + [(from, to)];
    }

    method Allow(now: int) returns (granted: bool)
      modifies this
      ensures old(Valid()) ==> Valid()
      ensures history == old(history) + [Asked(now)]
      ensures (State(), granted) == Ask(cfg, old(State()), now)
      ensures granted <==>
        old(state) == Closed || (old(state) == Open && now - old(openedAt) >= cfg.resetTimeout)
    {
      LogAppend(cfg, history, Asked(now));
      history := history + [Asked(now)];
      match state {
        case Closed =>
          granted := true;
        case Open =>
          granted := now - openedAt >= cfg.resetTimeout;
          if granted {
            Transition(HalfOpen);
          }
        case HalfOpen =>
          granted := false;
      }
    }

    method RecordSuccess()
      modifies this
      ensures old(Valid()) ==> Valid()
      ensures history == old(history) + [Succeeded]
      ensures State() == Succeed(cfg, old(State()))
    {
      LogAppend(cfg, history, Succeeded);
      history := history + [Succeeded];
      consecutiveFails := 0;
      consecutiveOKs := consecutiveOKs + 1;
      if state == HalfOpen && consecutiveOKs >= cfg.successThreshold {
        Transition(Closed);
      }
    }

    method RecordFailure(now: int)
      modifies this
      ensures old(Valid()) ==> Valid()
      ensures history == old(history) + [Failed(now)]
      ensures State() == Fail(cfg, old(State()), now)
    {
      ghost var log := history;
      consecutiveOKs := 0;
      consecutiveFails := consecutiveFails + 1;
      match state {
        case Closed =>
          if consecutiveFails >= cfg.failureThreshold {
            openedAt := now;
            Transition(Open);
          }
        case HalfOpen =>
          openedAt := now;
          Transition(Open);
        case Open =>
      }
      LogAppend(cfg, log, Failed(now));
      history := log + [Failed(now)];
    }
  }
}
