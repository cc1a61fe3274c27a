/**
 When the Redis limiter can come back: from which states of any number of interleaved calls, on any
 keys, some continuation closes its breaker again (pkg/ratelimit/redis.go).
 */
module FailoverRecovery {
  import opened Common
  import opened Failover
  import CB = CircuitBreakers
  import RL = RedisLimiters
  import SW = SlidingWindows

  /** Granted by the breaker, with its outcome not yet recorded. */
  predicate Outstanding(stage: Stage) {
    stage.Evaluating? || stage.Accepting? || stage.Rejecting?
  }

  /** Granted, and able to record a success. */
  predicate Live(stage: Stage) {
    stage.Evaluating? || stage.Accepting?
  }

  function Pending(s: State): set<nat> {
    set id | id in s.calls && Outstanding(s.calls[id])
  }

  ghost predicate CanClose(m: Setup, s: State) {
    exists events, end :: Reaches(m, s, events, end) && end.gate.cb.phase == CB.Closed
  }

  /**
   Closed, or Open with a call pending, or HalfOpen with two pending, or with one that can still
   succeed after another success.
   */
  predicate Hopeful(s: State) {
    match s.gate.cb.phase
    case Closed => true
    case Open => Pending(s) != {}
    case HalfOpen =>
      |Pending(s)| >= 2 || (s.gate.cb.oks >= 1 && exists id :: id in s.calls && Live(s.calls[id]))
  }

  // ----- no way back -----

  lemma PendingMoves(s: State, s': State, id: nat)
    requires id in s.calls && id in s'.calls && s'.calls == s.calls[id := s'.calls[id]]
    ensures Pending(s') == if Outstanding(s'.calls[id]) then Pending(s) + {id} else Pending(s) - {id}
  {
  }

  lemma LastPending(s: State, id: nat)
    requires |Pending(s)| <= 1 && id in s.calls && Outstanding(s.calls[id])
    ensures Pending(s) == {id}
  {
    assert id in Pending(s);
    if other :| other in Pending(s) && other != id {
      assert {id, other} <= Pending(s);
      assert |{id, other}| <= |Pending(s)| by {
        SubsetCount({id, other}, Pending(s));
      }
    }
  }

  predicate NoNewLive(s: State, s': State) {
    forall id :: id in s'.calls && Live(s'.calls[id]) ==> id in s.calls && Live(s.calls[id])
  }

  lemma PendingKept(s: State, s': State, id: nat)
    requires id in s'.calls && s'.calls == s.calls[id := s'.calls[id]]
    requires Outstanding(s'.calls[id]) <==> id in s.calls && Outstanding(s.calls[id])
    requires Live(s'.calls[id]) ==> id in s.calls && Live(s.calls[id])
    ensures Pending(s') == Pending(s) && NoNewLive(s, s')
  {
  }

  /** Steps that ask the breaker nothing and tell it nothing. */
  lemma OtherSteps(m: Setup, s: State, e: Event)
    requires Enabled(m, s, e) && !e.action.AskBreaker? && !e.action.RecordOk? && !e.action.RecordError?
    ensures var s' := Step(m, s, e);
            s'.gate.cb == s.gate.cb && Pending(s') == Pending(s) && NoNewLive(s, s')
  {
    var s' := Step(m, s, e);
    if Mover(e.action).Some? {
      PendingKept(s, s', Mover(e.action).value);
    }
  }

  lemma HopelessKept(s: State, s': State)
    requires !Hopeful(s) && s'.gate.cb == s.gate.cb && Pending(s') == Pending(s) && NoNewLive(s, s')
    ensures !Hopeful(s')
  {
  }

  /** The only pending call of a hopeless state goes. */
  lemma HopelessRecord(s: State, s': State, id: nat)
    requires !Hopeful(s) && id in s.calls && Outstanding(s.calls[id])
    requires id in s'.calls && !Outstanding(s'.calls[id])
    requires s'.calls == s.calls[id := s'.calls[id]]
    ensures s.gate.cb.phase == CB.HalfOpen && Pending(s') == {}
    ensures Live(s.calls[id]) ==> s.gate.cb.oks == 0
    ensures forall other :: other in s'.calls ==> !Live(s'.calls[other])
  {
    assert id in Pending(s);
    PendingMoves(s, s', id);
    LastPending(s, id);
    forall other | other in s'.calls ensures !Live(s'.calls[other]) {
      assert other !in Pending(s');
    }
  }

  lemma HopelessAsk(m: Setup, s: State, e: Event)
    requires !Hopeful(s) && Enabled(m, s, e) && e.action.AskBreaker?
    ensures !Hopeful(Step(m, s, e))
  {
    PendingMoves(s, Step(m, s, e), e.action.id);
  }

  lemma HopelessOutcome(m: Setup, s: State, e: Event)
    requires !Hopeful(s) && Enabled(m, s, e) && (e.action.RecordOk? || e.action.RecordError?)
    ensures !Hopeful(Step(m, s, e))
  {
    HopelessRecord(s, Step(m, s, e), e.action.id);
  }

  lemma HopelessStep(m: Setup, s: State, e: Event)
    requires !Hopeful(s) && Enabled(m, s, e)
    ensures !Hopeful(Step(m, s, e))
  {
    if e.action.AskBreaker? {
      HopelessAsk(m, s, e);
    } else if e.action.RecordOk? || e.action.RecordError? {
      HopelessOutcome(m, s, e);
    } else {
      OtherSteps(m, s, e);
      HopelessKept(s, Step(m, s, e));
    }
  }

  lemma {:induction false} HopelessForever(m: Setup, s: State, events: seq<Event>, end: State)
    requires !Hopeful(s) && Reaches(m, s, events, end)
    ensures !Hopeful(end)
    decreases |events|
  {
    if events != [] {
      HopelessStep(m, s, events[0]);
      HopelessForever(m, Step(m, s, events[0]), events[1..], end);
    }
  }

  // ----- the way back -----

  lemma ClosesAfter(m: Setup, s: State, e: Event)
    requires Enabled(m, s, e) && CanClose(m, Step(m, s, e))
    ensures CanClose(m, s)
  {
    var events, end :| Reaches(m, Step(m, s, e), events, end) && end.gate.cb.phase == CB.Closed;
    Prepend(m, s, e, events, end);
  }

  lemma ClosedAlready(m: Setup, s: State)
    requires s.gate.cb.phase == CB.Closed
    ensures CanClose(m, s)
  {
    assert Reaches(m, s, [], s);
  }

  /** The state once a call's success is recorded. */
  predicate After(s: State, s': State, id: nat) {
    && id in s'.calls && s'.calls[id].Settled? && s'.calls == s.calls[id := s'.calls[id]]
    && s'.gate == s.gate.(cb := CB.Succeed(RL.BREAKER, s.gate.cb))
  }

  /** A live call can record a success. */
  lemma Succeeds(m: Setup, s: State, id: nat) returns (s': State)
    requires id in s.calls && Live(s.calls[id])
    ensures After(s, s', id) && (CanClose(m, s') ==> CanClose(m, s))
    decreases if s.calls[id].Accepting? then 0 else if s.calls[id].last.Some? then 1 else 2
  {
    if s.calls[id].Accepting? {
      var e := Event(s.now, RecordOk(id));
      s' := Step(m, s, e);
      if CanClose(m, s') {
        ClosesAfter(m, s, e);
      }
    } else if s.calls[id].last.Some? {
      var e := Event(s.now, Answer(id));
      var accepting := Step(m, s, e);
      s' := Succeeds(m, accepting, id);
      if CanClose(m, s') {
        ClosesAfter(m, s, e);
      }
    } else {
      var ms := Millis(s.now);
      var eval := SW.Eval(ms, s.redis.zsetDeadline < ms, s.redis.counterDeadline < ms);
      var e := Event(s.now, if OnKey(m, s, id) then RunScript(id, eval) else RunElsewhere(id, false));
      var ran := Step(m, s, e);
      s' := Succeeds(m, ran, id);
      if CanClose(m, s') {
        ClosesAfter(m, s, e);
      }
    }
  }

  /** A call waiting for the script, or already rejected, can record a failure. */
  lemma Fails(m: Setup, s: State, id: nat) returns (s': State)
    requires id in s.calls && (s.calls[id].Evaluating? || s.calls[id].Rejecting?)
    ensures s'.calls == s.calls[id := Falling]
    ensures s'.gate == s.gate.(cb := CB.Fail(RL.BREAKER, s.gate.cb, s.now))
    ensures CanClose(m, s') ==> CanClose(m, s)
    decreases if s.calls[id].Rejecting? then 0 else 1
  {
    var e := Event(s.now, if s.calls[id].Rejecting? then RecordError(id) else Break(id));
    var next := Step(m, s, e);
    s' := next;
    if s.calls[id].Evaluating? {
      s' := Fails(m, next, id);
      assert s.calls[id := Rejecting][id := Falling] == s.calls[id := Falling];
    }
    if CanClose(m, next) {
      ClosesAfter(m, s, e);
    }
  }

  /** A goroutine is asleep to lower the flag whenever it is up. */
  predicate FlagBacked(s: State) {
    s.gate.fallbackMode ==> s.gate.wakeups != []
  }

  lemma {:induction false} RunKeepsFlagBacked(m: Setup, s: State, events: seq<Event>, end: State)
    requires FlagBacked(s) && Reaches(m, s, events, end)
    ensures FlagBacked(end)
    decreases |events|
  {
    if events != [] {
      RunKeepsFlagBacked(m, Step(m, s, events[0]), events[1..], end);
    }
  }

  function Later(a: nat, b: int): nat {
    if a < b then b else a
  }

  /** Once the flag is down and the timeout has passed, a new call is the probe. */
  lemma ProbeFlagDown(m: Setup, s: State, id: nat) returns (s': State)
    requires s.gate.cb.phase == CB.Open && !s.gate.fallbackMode && id !in s.calls
    ensures s'.calls == s.calls[id := Evaluating(None)] && !s'.gate.fallbackMode
    ensures s'.gate.cb == CB.Enter(s.gate.cb, CB.HalfOpen)
    ensures CanClose(m, s') ==> CanClose(m, s)
  {
    var now := Later(s.now, s.gate.cb.openedAt + RL.BREAKER.resetTimeout);
    var e1, e2, e3 := Event(now, Arrive(id, m.key)), Event(now, LoadFlag(id)), Event(now, AskBreaker(id));
    var s1 := Step(m, s, e1);
    var s2 := Step(m, s1, e2);
    s' := Step(m, s2, e3);
    assert s.calls[id := Arrived][id := Asking][id := Evaluating(None)] == s.calls[id := Evaluating(None)];
    if CanClose(m, s') {
      ClosesAfter(m, s2, e3);
      ClosesAfter(m, s1, e2);
      ClosesAfter(m, s, e1);
    }
  }

  lemma Probe(m: Setup, s: State) returns (s': State, id: nat)
    requires s.gate.cb.phase == CB.Open && FlagBacked(s)
    ensures id !in s.calls && s'.calls == s.calls[id := Evaluating(None)] && !s'.gate.fallbackMode
    ensures s'.gate.cb == CB.Enter(s.gate.cb, CB.HalfOpen)
    ensures CanClose(m, s') ==> CanClose(m, s)
  {
    id := Unused(s.calls.Keys);
    if s.gate.fallbackMode {
      var e := Event(Later(s.now, s.gate.wakeups[0]), LowerFlag(0));
      s' := ProbeFlagDown(m, Step(m, s, e), id);
      if CanClose(m, s') {
        ClosesAfter(m, s, e);
      }
    } else {
      s' := ProbeFlagDown(m, s, id);
    }
  }

  /** Two successes of calls pending in HalfOpen close the breaker. */
  lemma TwoSucceed(m: Setup, s: State, id: nat, id': nat)
    requires s.gate.cb.phase == CB.HalfOpen && id != id'
    requires id in s.calls && Live(s.calls[id]) && id' in s.calls && Live(s.calls[id'])
    ensures CanClose(m, s)
  {
    var s1 := Succeeds(m, s, id);
    if s1.gate.cb.phase == CB.Closed {
      ClosedAlready(m, s1);
    } else {
      OneSucceeds(m, s1, id');
    }
  }

  lemma OneSucceeds(m: Setup, s: State, id: nat)
    requires s.gate.cb.phase == CB.HalfOpen && s.gate.cb.oks >= 1 && id in s.calls && Live(s.calls[id])
    ensures CanClose(m, s)
  {
    var s1 := Succeeds(m, s, id);
    ClosedAlready(m, s1);
  }

  /** From Open, a pending call is what it takes: the probe's success alone is not enough. */
  lemma OpenRecovers(m: Setup, s: State, id: nat)
    requires s.gate.cb.phase == CB.Open && FlagBacked(s) && id in s.calls && Outstanding(s.calls[id])
    ensures CanClose(m, s)
    decreases if Live(s.calls[id]) then 0 else 1
  {
    var s1, probe := Probe(m, s);
    if Live(s.calls[id]) {
      TwoSucceed(m, s1, id, probe);
    } else {
      var s2 := Fails(m, s1, id);
      OpenRecovers(m, s2, probe);
    }
  }

  lemma TwoPending(s: State) returns (id: nat, id': nat)
    requires |Pending(s)| >= 2
    ensures id != id' && id in s.calls && Outstanding(s.calls[id]) && id' in s.calls && Outstanding(s.calls[id'])
  {
    id :| id in Pending(s);
    assert |Pending(s) - {id}| >= 1;
    id' :| id' in Pending(s) - {id};
  }

  lemma HalfOpenRecovers(m: Setup, s: State)
    requires s.gate.cb.phase == CB.HalfOpen && FlagBacked(s) && |Pending(s)| >= 2
    ensures CanClose(m, s)
  {
    var id, id' := TwoPending(s);
    if Live(s.calls[id]) && Live(s.calls[id']) {
      TwoSucceed(m, s, id, id');
    } else {
      var bad, other := if Live(s.calls[id]) then id' else id, if Live(s.calls[id]) then id else id';
      var s1 := Fails(m, s, bad);
      OpenRecovers(m, s1, other);
    }
  }

  /**
   In every interleaving, the breaker of a reachable state can close again exactly when it is Closed,
   or Open with a call on some key still pending, or HalfOpen with two, or with one that can add to a
   success.
   */
  lemma RecoveryCharacterised(m: Setup, events: seq<Event>, s: State)
    requires Reaches(m, INITIAL, events, s)
    ensures CanClose(m, s) <==> Hopeful(s)
  {
    RunKeepsFlagBacked(m, INITIAL, events, s);
    if Hopeful(s) {
      match s.gate.cb.phase {
        case Closed => ClosedAlready(m, s);
        case Open =>
          var id :| id in Pending(s);
          OpenRecovers(m, s, id);
        case HalfOpen =>
          if |Pending(s)| >= 2 {
            HalfOpenRecovers(m, s);
          } else {
            var id :| id in s.calls && Live(s.calls[id]);
            OneSucceeds(m, s, id);
          }
      }
    } else {
      forall later, end | Reaches(m, s, later, end) ensures end.gate.cb.phase != CB.Closed {
        HopelessForever(m, s, later, end);
      }
    }
  }

  /** The case of an open breaker: some continuation closes it exactly when some call is pending. */
  lemma OpenNeedsOverlap(m: Setup, events: seq<Event>, s: State)
    requires Reaches(m, INITIAL, events, s) && s.gate.cb.phase == CB.Open
    ensures CanClose(m, s) <==> exists id :: id in s.calls && Outstanding(s.calls[id])
  {
    RecoveryCharacterised(m, events, s);
    if id :| id in s.calls && Outstanding(s.calls[id]) {
      assert id in Pending(s);
    }
    if Pending(s) != {} {
      var id :| id in Pending(s);
    }
  }

  // ----- at most one more answer from Redis -----

  /** Nothing pending and no probe left. */
  predicate Spent(s: State) {
    s.gate.cb.phase == CB.HalfOpen && Pending(s) == {}
  }

  /** Open with nothing pending, or a first probe under way. */
  predicate Lone(s: State) {
    (s.gate.cb.phase == CB.Open && Pending(s) == {}) ||
    (s.gate.cb.phase == CB.HalfOpen && |Pending(s)| == 1 && s.gate.cb.oks == 0)
  }

  lemma LoneRecord(s: State, s': State, id: nat)
    requires (Lone(s) || Spent(s)) && id in s.calls && Outstanding(s.calls[id])
    requires id in s'.calls && !Outstanding(s'.calls[id]) && s'.calls == s.calls[id := s'.calls[id]]
    ensures s.gate.cb.phase == CB.HalfOpen && s.gate.cb.oks == 0 && !Spent(s) && Pending(s') == {}
  {
    assert id in Pending(s);
    PendingMoves(s, s', id);
    LastPending(s, id);
  }

  /** A call has the script evaluated, on its own key. */
  predicate Evaluates(action: Action) {
    action.RunScript? || action.RunElsewhere?
  }

  lemma LoneKept(s: State, s': State)
    requires (Lone(s) || Spent(s)) && s'.gate.cb == s.gate.cb && Pending(s') == Pending(s)
    ensures (Lone(s) <==> Lone(s')) && (Spent(s) <==> Spent(s'))
  {
  }

  lemma EvaluatorIsPending(m: Setup, s: State, e: Event)
    requires Enabled(m, s, e) && Evaluates(e.action)
    ensures Pending(s) != {}
  {
    assert e.action.id in Pending(s);
  }

  lemma LoneAsk(m: Setup, s: State, e: Event)
    requires (Lone(s) || Spent(s)) && Enabled(m, s, e) && e.action.AskBreaker?
    ensures (Lone(s) ==> Lone(Step(m, s, e))) && (Spent(s) ==> Spent(Step(m, s, e)))
  {
    PendingMoves(s, Step(m, s, e), e.action.id);
  }

  lemma LoneOutcome(m: Setup, s: State, e: Event)
    requires (Lone(s) || Spent(s)) && Enabled(m, s, e) && (e.action.RecordOk? || e.action.RecordError?)
    ensures !Spent(s) && if e.action.RecordOk? then Spent(Step(m, s, e)) else Lone(Step(m, s, e))
  {
    LoneRecord(s, Step(m, s, e), e.action.id);
  }

  lemma LoneStep(m: Setup, s: State, e: Event)
    requires (Lone(s) || Spent(s)) && Enabled(m, s, e)
    ensures Spent(s) ==> Spent(Step(m, s, e)) && !Evaluates(e.action) && !e.action.RecordOk?
    ensures Lone(s) ==> if e.action.RecordOk? then Spent(Step(m, s, e)) else Lone(Step(m, s, e))
  {
    if e.action.AskBreaker? {
      LoneAsk(m, s, e);
    } else if e.action.RecordOk? || e.action.RecordError? {
      LoneOutcome(m, s, e);
    } else {
      if Evaluates(e.action) {
        EvaluatorIsPending(m, s, e);
      }
      OtherSteps(m, s, e);
      LoneKept(s, Step(m, s, e));
    }
  }

  lemma {:induction false} SpentForever(m: Setup, s: State, events: seq<Event>, end: State)
    requires Spent(s) && Reaches(m, s, events, end)
    ensures forall e :: e in events ==> !Evaluates(e.action) && !e.action.RecordOk?
    decreases |events|
  {
    if events != [] {
      LoneStep(m, s, events[0]);
      SpentForever(m, Step(m, s, events[0]), events[1..], end);
    }
  }

  /**
   Once the breaker is Open with no call pending on any key, in every interleaving at most one evaluation
   succeeds, and after it no call on any key evaluates the script again.
   */
  lemma {:induction false} RedisAnswersOnceMore(m: Setup, s: State, events: seq<Event>, end: State)
    requires Lone(s) && Reaches(m, s, events, end)
    ensures forall i, j :: 0 <= i < j < |events| && events[i].action.RecordOk? ==>
      !Evaluates(events[j].action) && !events[j].action.RecordOk?
    decreases |events|
  {
    if events != [] {
      var rest, next := events[1..], Step(m, s, events[0]);
      LoneStep(m, s, events[0]);
      if events[0].action.RecordOk? {
        SpentForever(m, next, rest, end);
      } else {
        RedisAnswersOnceMore(m, next, rest, end);
      }
      forall i, j | 0 <= i < j < |events| && events[i].action.RecordOk?
        ensures !Evaluates(events[j].action) && !events[j].action.RecordOk?
      {
        assert events[j] == rest[j - 1] && rest[j - 1] in rest;
        if i > 0 {
          assert events[i] == rest[i - 1];
        }
      }
    }
  }
}
