/**
 Any number of proxied calls over shared breakers and a shared adaptive balancer, interleaved at the
 granularity of their atomic operations (internal/proxy/proxy.go, internal/loadbalancer).
 */
module ProxyMachine {
  import opened Common
  import opened ProxyCalls
  import CB = CircuitBreakers
  import RR = RoundRobins
  import SB = SmartBalancing

  /** A breaker with its own thresholds. */
  datatype Guard = Guard(cfg: CB.Config, b: CB.Breaker)

  type Guards = map<string, Guard>

  datatype Call = Call(idempotent: bool, pc: Pc)

  /** An absent service breaker grants everything; an instance without a breaker is never skipped. */
  datatype Breakers = Breakers(service: Option<Guard>, guards: Guards)

  datatype State = State(breakers: Breakers, fleet: SB.Fleet, calls: map<nat, Call>)

  datatype Event =
    | Arrive(id: nat, idempotent: bool)
    | Act(id: nat, action: Action)

  // ----- one selection -----

  /** The skip filter's question to one instance's breaker. */
  function AskGuard(guards: Guards, inst: string, now: int): (Guards, bool) {
    if inst !in guards then (guards, true)
    else
      var g := guards[inst];
      var (b, granted) := CB.Ask(g.cfg, g.b, now);
      (guards[inst := g.(b := b)], granted)
  }

  /** The filter over the healthy list: every listed breaker is asked, the granted ones are eligible. */
  function AskAll(guards: Guards, asked: seq<Question>): (Guards, seq<string>) {
    if asked == [] then (guards, [])
    else
      var n := |asked| - 1;
      var (before, eligible) := AskAll(guards, asked[..n]);
      var (after, granted) := AskGuard(before, asked[n].inst, asked[n].now);
      (after, eligible + if granted then [asked[n].inst] else [])
  }

  lemma AskAllAppend(guards: Guards, asked: seq<Question>, q: Question)
    ensures var (before, eligible) := AskAll(guards, asked);
            var (after, granted) := AskGuard(before, q.inst, q.now);
            AskAll(guards, asked + [q]) == (after, eligible + if granted then [q.inst] else [])
  {
    assert (asked + [q])[..|asked|] == asked;
  }

  function Record(guards: Guards, inst: string, ok: bool, now: int): Guards {
    if inst !in guards then guards
    else
      var g := guards[inst];
      guards[inst := g.(b := if ok then CB.Succeed(g.cfg, g.b) else CB.Fail(g.cfg, g.b, now))]
  }

  /** An operation can only report what the breakers answer. */
  predicate Permitted(bs: Breakers, action: Action) {
    match action
    case AskService(now, granted) =>
      granted == (bs.service.None? || CB.Ask(bs.service.value.cfg, bs.service.value.b, now).1)
    case Select(asked, chosen) =>
      var eligible := AskAll(bs.guards, asked).1;
      if chosen.None? then eligible == [] else chosen.value in eligible
    case _ => true
  }

  function OnBreakers(bs: Breakers, action: Action): Breakers {
    match action
    case AskService(now, _) =>
      if bs.service.None? then bs
      else
        var g := bs.service.value;
        bs.(service := Some(g.(b := CB.Ask(g.cfg, g.b, now).0)))
    case Select(asked, _) => bs.(guards := AskAll(bs.guards, asked).0)
    case RecordInstance(now, inst, ok) => bs.(guards := Record(bs.guards, inst, ok, now))
    case RecordService(now, ok) =>
      if bs.service.None? then bs
      else
        var g := bs.service.value;
        bs.(service := Some(g.(b := if ok then CB.Succeed(g.cfg, g.b) else CB.Fail(g.cfg, g.b, now))))
    case _ => bs
  }

  // Scoring may also give unseen instances their initial telemetry, which is what they are read as anyway.
  function OnFleet(cfg: SB.Config, fleet: SB.Fleet, pc: Pc, action: Action): SB.Fleet {
    match action
    case Select(_, Some(inst)) => fleet[inst := SB.Started(SB.Known(fleet, inst))]
    case CallDone(latencyMs, isErr) =>
      if pc.Answered? then fleet[pc.inst := SB.Recorded(cfg, SB.Known(fleet, pc.inst), latencyMs, isErr)] else fleet
    case _ => fleet
  }

  predicate Enabled(s: State, e: Event) {
    match e
    case Arrive(id, _) => id !in s.calls
    case Act(id, action) =>
      id in s.calls
      && Advance(s.calls[id].idempotent, s.calls[id].pc, action).Some?
      && Permitted(s.breakers, action)
  }

  function Step(cfg: SB.Config, s: State, e: Event): State
    requires Enabled(s, e)
  {
    match e
    case Arrive(id, idempotent) => s.(calls := s.calls[id := Call(idempotent, Start)])
    case Act(id, action) =>
      var c := s.calls[id];
      var pc := Settle(Advance(c.idempotent, c.pc, action).value);
      State(OnBreakers(s.breakers, action), OnFleet(cfg, s.fleet, c.pc, action), s.calls[id := Call(c.idempotent, pc)])
  }

  ghost predicate Reaches(cfg: SB.Config, s: State, events: seq<Event>, end: State)
    decreases |events|
  {
    if events == [] then s == end
    else Enabled(s, events[0]) && Reaches(cfg, Step(cfg, s, events[0]), events[1..], end)
  }

  /** Calls not yet made, telemetry untouched; breakers in any state. */
  ghost predicate Initial(s: State) {
    (forall inst :: SB.Known(s.fleet, inst) == SB.UNSEEN) && s.calls == map[]
  }

  // ----- in-flight conservation -----

  /** Between the selection's RecordStart and the done callback. */
  predicate InFlight(pc: Pc, inst: string) {
    (pc.Calling? || pc.Answered?) && pc.inst == inst
  }

  function Holding(s: State, inst: string): set<nat> {
    set id | id in s.calls && InFlight(s.calls[id].pc, inst)
  }

  ghost predicate Conserved(s: State) {
    forall inst :: SB.Known(s.fleet, inst).inflight == |Holding(s, inst)|
  }

  function One(b: bool): nat {
    if b then 1 else 0
  }

  lemma HoldingMoves(s: State, s': State, inst: string, id: nat)
    requires id in s'.calls && s'.calls == s.calls[id := s'.calls[id]]
    ensures |Holding(s', inst)| == |Holding(s, inst)| + One(InFlight(s'.calls[id].pc, inst))
                                   - One(id in s.calls && InFlight(s.calls[id].pc, inst))
  {
    var was, now := Holding(s, inst), Holding(s', inst);
    if InFlight(s'.calls[id].pc, inst) {
      assert now == was + {id};
    } else {
      assert now == was - {id};
    }
  }

  /** An operation changes an instance's counter as it changes the call's own attempt on it. */
  lemma FleetMoves(cfg: SB.Config, fleet: SB.Fleet, c: Call, a: Action, inst: string)
    requires Advance(c.idempotent, c.pc, a).Some?
    ensures SB.Known(OnFleet(cfg, fleet, c.pc, a), inst).inflight
            == SB.Known(fleet, inst).inflight + One(InFlight(Settle(Advance(c.idempotent, c.pc, a).value), inst))
               - One(InFlight(c.pc, inst))
  {
  }

  lemma StepConserves(cfg: SB.Config, s: State, e: Event)
    requires Conserved(s) && Enabled(s, e)
    ensures Conserved(Step(cfg, s, e))
  {
    var s' := Step(cfg, s, e);
    forall inst ensures SB.Known(s'.fleet, inst).inflight == |Holding(s', inst)| {
      HoldingMoves(s, s', inst, e.id);
      if e.Act? {
        FleetMoves(cfg, s.fleet, s.calls[e.id], e.action, inst);
      }
    }
  }

  lemma {:induction false} RunConserves(cfg: SB.Config, s: State, events: seq<Event>, end: State)
    requires Conserved(s) && Reaches(cfg, s, events, end)
    ensures Conserved(end)
    decreases |events|
  {
    if events != [] {
      StepConserves(cfg, s, events[0]);
      RunConserves(cfg, Step(cfg, s, events[0]), events[1..], end);
    }
  }

  /**
   In every interleaving, an instance's in-flight counter is the number of its attempts between
   selection and done callback; so it is never negative, and zero once all calls have finished.
   */
  lemma InFlightConservation(cfg: SB.Config, s: State, events: seq<Event>, end: State, inst: string)
    requires Initial(s) && Reaches(cfg, s, events, end)
    ensures SB.Known(end.fleet, inst).inflight == |Holding(end, inst)| >= 0
    ensures (forall id :: id in end.calls ==> end.calls[id].pc.Finished?) ==> SB.Known(end.fleet, inst).inflight == 0
  {
    forall i ensures SB.Known(s.fleet, i).inflight == |Holding(s, i)| {
      assert Holding(s, i) == {};
    }
    RunConserves(cfg, s, events, end);
    if forall id :: id in end.calls ==> end.calls[id].pc.Finished? {
      assert Holding(end, inst) == {};
    }
  }

  // ----- the wheel in every reachable state -----

  ghost predicate Sensible(fleet: SB.Fleet) {
    forall inst :: SB.Known(fleet, inst).latency >= 0.0 && 0.0 <= SB.Known(fleet, inst).errorRate <= 1.0
  }

  predicate AveragesSane(cfg: SB.Config) {
    0.0 <= cfg.latencyAlpha <= 1.0 && 0.0 <= cfg.errorAlpha <= 1.0
  }

  lemma RecordedStaysSensible(cfg: SB.Config, t: SB.Telemetry, latencyMs: nat, isErr: bool)
    requires AveragesSane(cfg) && t.latency >= 0.0 && 0.0 <= t.errorRate <= 1.0
    ensures var t' := SB.Recorded(cfg, t, latencyMs, isErr); t'.latency >= 0.0 && 0.0 <= t'.errorRate <= 1.0
  {
    var latency := latencyMs as real;
    SB.BlendWithin(cfg.latencyAlpha, latency, t.latency, 0.0, MaxReal(latency, t.latency));
    SB.BlendWithin(cfg.errorAlpha, if isErr then 1.0 else 0.0, t.errorRate, 0.0, 1.0);
  }

  lemma StepKeepsSensible(cfg: SB.Config, s: State, e: Event)
    requires AveragesSane(cfg) && Sensible(s.fleet) && Enabled(s, e)
    ensures Sensible(Step(cfg, s, e).fleet)
  {
    var s' := Step(cfg, s, e);
    forall inst
      ensures SB.Known(s'.fleet, inst).latency >= 0.0 && 0.0 <= SB.Known(s'.fleet, inst).errorRate <= 1.0
    {
      var t := SB.Known(s.fleet, inst);
      if e.Act? && e.action.CallDone? && s.calls[e.id].pc.Answered? && s.calls[e.id].pc.inst == inst {
        RecordedStaysSensible(cfg, t, e.action.latencyMs, e.action.isErr);
      } else {
        assert SB.Known(s'.fleet, inst).(inflight := 0) == t.(inflight := 0);
      }
    }
  }

  lemma {:induction false} RunKeepsSensible(cfg: SB.Config, s: State, events: seq<Event>, end: State)
    requires AveragesSane(cfg) && Sensible(s.fleet) && Reaches(cfg, s, events, end)
    ensures Sensible(end.fleet)
    decreases |events|
  {
    if events != [] {
      StepKeepsSensible(cfg, s, events[0]);
      RunKeepsSensible(cfg, Step(cfg, s, events[0]), events[1..], end);
    }
  }

  /** In every reachable state, every eligible instance keeps a share of the wheel that no traffic can take away. */
  lemma ReachableShareFloor(
      cfg: SB.Config, s: State, events: seq<Event>, end: State, eligible: seq<RR.Instance>, i: nat)
    returns (low: real)
    requires SB.Sane(cfg) && AveragesSane(cfg) && Initial(s) && Reaches(cfg, s, events, end) && i < |eligible|
    ensures 0.0 < SB.LeastShare(cfg, |eligible|)
    ensures SB.Receives(SB.Wheel(cfg, end.fleet, eligible), i, low, SB.LeastShare(cfg, |eligible|))
  {
    RunKeepsSensible(cfg, s, events, end);
    forall inst ensures SB.Known(end.fleet, inst).inflight >= 0 {
      InFlightConservation(cfg, s, events, end, inst);
    }
    var ts := seq(|eligible|, k requires 0 <= k < |eligible| => SB.Known(end.fleet, eligible[k].id));
    low := SB.ShareFloor(cfg, ts, i);
  }

  // ----- a call nobody interrupts -----

  /** The operations are what the breakers, as the operations themselves leave them, really answer. */
  predicate Genuine(bs: Breakers, trace: seq<Action>) {
    trace == [] ||
    (Genuine(bs, trace[..|trace| - 1]) && Permitted(After(bs, trace[..|trace| - 1]), trace[|trace| - 1]))
  }

  /** The breakers after a trace. */
  function After(bs: Breakers, trace: seq<Action>): Breakers {
    if trace == [] then bs else OnBreakers(After(bs, trace[..|trace| - 1]), trace[|trace| - 1])
  }

  lemma TraceAppend(bs: Breakers, trace: seq<Action>, a: Action)
    ensures After(bs, trace + [a]) == OnBreakers(After(bs, trace), a)
    ensures Genuine(bs, trace + [a]) <==> Genuine(bs, trace) && Permitted(After(bs, trace), a)
  {
    assert (trace + [a])[..|trace|] == trace;
  }

  // ----- what each breaker sees of a call -----

  /** The events a call's operations are on the service's breaker. */
  function ServiceEvents(trace: seq<Action>): seq<CB.Event> {
    if trace == [] then []
    else
      ServiceEvents(trace[..|trace| - 1]) +
      match trace[|trace| - 1]
      case AskService(now, _) => [CB.Asked(now)]
      case RecordService(now, ok) => [if ok then CB.Succeeded else CB.Failed(now)]
      case _ => []
  }

  function Questions(inst: string, asked: seq<Question>): seq<CB.Event> {
    if asked == [] then []
    else
      var q := asked[|asked| - 1];
      Questions(inst, asked[..|asked| - 1]) + if q.inst == inst then [CB.Asked(q.now)] else []
  }

  /** And on an instance's. */
  function InstanceEvents(inst: string, trace: seq<Action>): seq<CB.Event> {
    if trace == [] then []
    else
      InstanceEvents(inst, trace[..|trace| - 1]) +
      match trace[|trace| - 1]
      case Select(asked, _) => Questions(inst, asked)
      case RecordInstance(now, id, ok) => if id == inst then [if ok then CB.Succeeded else CB.Failed(now)] else []
      case _ => []
  }

  ghost predicate Saw(before: Guard, after: Guard, events: seq<CB.Event>) {
    after == before.(b := CB.RunFrom(before.cfg, before.b, events))
  }

  lemma SawMore(before: Guard, middle: Guard, after: Guard, events: seq<CB.Event>, more: seq<CB.Event>)
    requires Saw(before, middle, events) && Saw(middle, after, more)
    ensures Saw(before, after, events + more)
  {
    CB.RunFromAppend(before.cfg, before.b, events, more);
  }

  lemma SawOne(before: Guard, e: CB.Event)
    ensures Saw(before, before.(b := CB.Step(before.cfg, before.b, e)), [e])
  {
    assert [e][1..] == [];
  }

  lemma {:induction false} AskAllIsQuestions(guards: Guards, asked: seq<Question>, inst: string)
    ensures AskAll(guards, asked).0.Keys == guards.Keys
    ensures inst in guards ==> Saw(guards[inst], AskAll(guards, asked).0[inst], Questions(inst, asked))
  {
    if asked != [] {
      var init, q := asked[..|asked| - 1], asked[|asked| - 1];
      AskAllIsQuestions(guards, init, inst);
      if inst in guards {
        var middle, after := AskAll(guards, init).0[inst], AskAll(guards, asked).0[inst];
        if q.inst == inst {
          SawOne(middle, CB.Asked(q.now));
          SawMore(guards[inst], middle, after, Questions(inst, init), [CB.Asked(q.now)]);
        } else {
          assert Questions(inst, init) + [] == Questions(inst, init);
        }
      }
    }
  }

  /** One operation on an instance's breaker. */
  lemma InstanceSees(bs: Breakers, a: Action, inst: string)
    ensures OnBreakers(bs, a).guards.Keys == bs.guards.Keys
    ensures inst in bs.guards ==> Saw(bs.guards[inst], OnBreakers(bs, a).guards[inst], InstanceEvents(inst, [a]))
  {
    assert [a][..0] == [] && InstanceEvents(inst, []) == [];
    match a
    case Select(asked, _) =>
      AskAllIsQuestions(bs.guards, asked, inst);
      assert [] + Questions(inst, asked) == Questions(inst, asked);
    case RecordInstance(now, id, ok) =>
      if id == inst && inst in bs.guards {
        SawOne(bs.guards[inst], if ok then CB.Succeeded else CB.Failed(now));
      }
    case _ =>
  }

  /** And on the service's. */
  lemma ServiceSees(bs: Breakers, a: Action)
    requires bs.service.Some?
    ensures var after := OnBreakers(bs, a).service;
            after.Some? && Saw(bs.service.value, after.value, ServiceEvents([a]))
  {
    assert [a][..0] == [] && ServiceEvents([]) == [];
    match a
    case AskService(now, _) => SawOne(bs.service.value, CB.Asked(now));
    case RecordService(now, ok) => SawOne(bs.service.value, if ok then CB.Succeeded else CB.Failed(now));
    case _ =>
  }

  /**
   Over any trace, every breaker is where its own questions and outcomes, at their own readings and in
   their order, take it from where it was; breakers nobody has stay absent.
   */
  lemma {:induction false} BreakersSeeTheirEvents(bs: Breakers, trace: seq<Action>, inst: string)
    ensures After(bs, trace).guards.Keys == bs.guards.Keys
    ensures inst in bs.guards ==> Saw(bs.guards[inst], After(bs, trace).guards[inst], InstanceEvents(inst, trace))
    ensures if bs.service.None? then After(bs, trace).service.None?
            else After(bs, trace).service.Some? &&
                 Saw(bs.service.value, After(bs, trace).service.value, ServiceEvents(trace))
  {
    if trace != [] {
      var init, a := trace[..|trace| - 1], trace[|trace| - 1];
      BreakersSeeTheirEvents(bs, init, inst);
      var middle := After(bs, init);
      InstanceSees(middle, a, inst);
      LastEvents(init, a, inst);
      assert trace == init + [a];
      if inst in bs.guards {
        SawMore(bs.guards[inst], middle.guards[inst], After(bs, trace).guards[inst],
                InstanceEvents(inst, init), InstanceEvents(inst, [a]));
      }
      if bs.service.Some? {
        ServiceSees(middle, a);
        SawMore(bs.service.value, middle.service.value, After(bs, trace).service.value,
                ServiceEvents(init), ServiceEvents([a]));
      }
    }
  }

  lemma LastEvents(init: seq<Action>, a: Action, inst: string)
    ensures InstanceEvents(inst, init + [a]) == InstanceEvents(inst, init) + InstanceEvents(inst, [a])
    ensures ServiceEvents(init + [a]) == ServiceEvents(init) + ServiceEvents([a])
  {
    assert (init + [a])[..|init|] == init && [a][..0] == [];
  }

  function AsEvents(id: nat, trace: seq<Action>): seq<Event> {
    seq(|trace|, i requires 0 <= i < |trace| => Act(id, trace[i]))
  }

  lemma {:induction false} ReachesAppend(cfg: SB.Config, s: State, events: seq<Event>, middle: State, e: Event)
    requires Reaches(cfg, s, events, middle) && Enabled(middle, e)
    ensures Reaches(cfg, s, events + [e], Step(cfg, middle, e))
    decreases |events|
  {
    if events == [] {
      assert [e][1..] == [];
    } else {
      assert (events + [e])[1..] == events[1..] + [e];
      ReachesAppend(cfg, Step(cfg, s, events[0]), events[1..], middle, e);
    }
  }

  /** A genuine path of one call is a run of the machine, with the same effect on the breakers. */
  lemma {:induction false} GenuinePathIsRun(cfg: SB.Config, s: State, id: nat, trace: seq<Action>) returns (end: State)
    requires id in s.calls && s.calls[id].pc == Start
    requires Genuine(s.breakers, trace) && Follow(s.calls[id].idempotent, Start, trace).Some?
    ensures Reaches(cfg, s, AsEvents(id, trace), end)
    ensures end.breakers == After(s.breakers, trace)
    ensures id in end.calls && end.calls[id].idempotent == s.calls[id].idempotent
    ensures Some(end.calls[id].pc) == Follow(s.calls[id].idempotent, Start, trace)
  {
    if trace == [] {
      end := s;
    } else {
      var init, a := trace[..|trace| - 1], trace[|trace| - 1];
      assert trace == init + [a];
      FollowPrefix(s.calls[id].idempotent, Start, init, a);
      var middle := GenuinePathIsRun(cfg, s, id, init);
      FollowAppend(s.calls[id].idempotent, Start, init, a);
      assert AsEvents(id, trace) == AsEvents(id, init) + [Act(id, a)];
      ReachesAppend(cfg, s, AsEvents(id, init), middle, Act(id, a));
      end := Step(cfg, middle, Act(id, a));
    }
  }
}
