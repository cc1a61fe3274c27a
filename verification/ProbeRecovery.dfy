/**
 Which half-open breakers can be resolved: exactly when some continuation of any number of proxied
 calls selects an instance again, or lets a call through to the service (internal/proxy/proxy.go).
 */
module ProbeRecovery {
  import opened Common
  import opened ProxyCalls
  import opened ProxyMachine
  import CB = CircuitBreakers
  import SB = SmartBalancing

  // ----- what some continuation does -----

  datatype Goal =
    | Selected(inst: string)  // the instance is selected
    | Admitted                // the service's breaker lets a call through

  predicate Met(g: Goal, e: Event) {
    e.Act? &&
    match g
    case Selected(inst) => e.action.Select? && e.action.chosen == Some(inst)
    case Admitted => e.action.AskService? && e.action.granted
  }

  /** The clock readings inside an event, in order. */
  function Readings(e: Event): seq<int> {
    match e
    case Arrive(_, _) => []
    case Act(_, AskService(now, _)) => [now]
    case Act(_, Select(asked, _)) => seq(|asked|, i requires 0 <= i < |asked| => asked[i].now)
    case Act(_, RecordInstance(now, _, _)) => [now]
    case Act(_, RecordService(now, _)) => [now]
    case Act(_, _) => []
  }

  predicate OnClock(e: Event, clock: int) {
    var times := Readings(e);
    (forall i :: 0 <= i < |times| ==> clock <= times[i]) &&
    (forall i, j :: 0 <= i < j < |times| ==> times[i] <= times[j])
  }

  function ClockAfter(e: Event, clock: int): int {
    var times := Readings(e);
    if times == [] then clock else times[|times| - 1]
  }

  /** The run is possible, on one clock from `clock` on, and meets the goal. */
  ghost predicate Achieves(cfg: SB.Config, s: State, g: Goal, events: seq<Event>, clock: int)
    decreases |events|
  {
    events != [] && Enabled(s, events[0]) && OnClock(events[0], clock) &&
    (Met(g, events[0]) || Achieves(cfg, Step(cfg, s, events[0]), g, events[1..], ClockAfter(events[0], clock)))
  }

  ghost predicate CanHappen(cfg: SB.Config, s: State, g: Goal, clock: int) {
    exists events :: Achieves(cfg, s, g, events, clock)
  }

  lemma HappensNow(cfg: SB.Config, s: State, g: Goal, e: Event, clock: int)
    requires Enabled(s, e) && OnClock(e, clock) && Met(g, e)
    ensures CanHappen(cfg, s, g, clock)
  {
    assert Achieves(cfg, s, g, [e], clock);
  }

  lemma HappensAfter(cfg: SB.Config, s: State, g: Goal, e: Event, clock: int)
    requires Enabled(s, e) && OnClock(e, clock)
    requires CanHappen(cfg, Step(cfg, s, e), g, ClockAfter(e, clock))
    ensures CanHappen(cfg, s, g, clock)
  {
    var events :| Achieves(cfg, Step(cfg, s, e), g, events, ClockAfter(e, clock));
    assert ([e] + events)[1..] == events;
    assert Achieves(cfg, s, g, [e] + events, clock);
  }

  function Later(a: int, b: int): int {
    if a < b then b else a
  }

  /** When a breaker that is not HalfOpen grants. */
  function GrantTime(g: Guard, clock: int): int {
    if g.b.phase == CB.Open then Later(clock, g.b.openedAt + g.cfg.resetTimeout) else clock
  }

  // ----- an instance -----

  /** Between the selection and the outcome recorded on the instance's breaker. */
  predicate Pending(pc: Pc, inst: string) {
    (pc.Calling? || pc.Answered? || pc.Reporting?) && pc.inst == inst
  }

  /** Already answered, and about to record a success. */
  predicate AnsweredWell(pc: Pc) {
    (pc.Answered? || pc.Reporting?) && pc.good
  }

  function PendingOn(s: State, inst: string): set<nat> {
    set id | id in s.calls && Pending(s.calls[id].pc, inst)
  }

  /** HalfOpen, no attempt can fail any more, and the successes under way, if any, do not suffice. */
  predicate Dead(s: State, inst: string) {
    && inst in s.breakers.guards && s.breakers.guards[inst].b.phase == CB.HalfOpen
    && (forall id :: id in s.calls && Pending(s.calls[id].pc, inst) ==> AnsweredWell(s.calls[id].pc))
    && (PendingOn(s, inst) == {} ||
        s.breakers.guards[inst].b.oks + |PendingOn(s, inst)| < s.breakers.guards[inst].cfg.successThreshold)
  }

  lemma {:induction false} AskAllRefusesHalfOpen(guards: Guards, asked: seq<Question>, inst: string)
    requires inst in guards && guards[inst].b.phase == CB.HalfOpen
    ensures var (after, eligible) := AskAll(guards, asked);
            inst in after && after[inst] == guards[inst] && inst !in eligible
  {
    if asked != [] {
      AskAllRefusesHalfOpen(guards, asked[..|asked| - 1], inst);
    }
  }

  lemma PendingMoves(s: State, s': State, inst: string, id: nat)
    requires id in s'.calls && s'.calls == s.calls[id := s'.calls[id]]
    ensures PendingOn(s', inst) ==
            if Pending(s'.calls[id].pc, inst) then PendingOn(s, inst) + {id} else PendingOn(s, inst) - {id}
  {
  }

  lemma NonePending(s: State, inst: string)
    requires PendingOn(s, inst) == {}
    ensures forall id :: id in s.calls ==> !Pending(s.calls[id].pc, inst)
  {
    forall id | id in s.calls ensures !Pending(s.calls[id].pc, inst) {
      assert id !in PendingOn(s, inst);
    }
  }

  /** A pending success leaves too few behind it. */
  lemma DeadRecord(cfg: SB.Config, s: State, e: Event, inst: string)
    requires Dead(s, inst) && Enabled(s, e) && e.Act? && e.action.RecordInstance? && e.action.inst == inst
    ensures Dead(Step(cfg, s, e), inst)
  {
    assert e.id in PendingOn(s, inst);
    PendingMoves(s, Step(cfg, s, e), inst, e.id);
  }

  lemma DeadSelect(cfg: SB.Config, s: State, e: Event, inst: string)
    requires Dead(s, inst) && Enabled(s, e) && e.Act? && e.action.Select?
    ensures Dead(Step(cfg, s, e), inst) && !Met(Selected(inst), e)
  {
    PendingMoves(s, Step(cfg, s, e), inst, e.id);
    AskAllRefusesHalfOpen(s.breakers.guards, e.action.asked, inst);
  }

  lemma OtherKeepsPending(idempotent: bool, pc: Pc, a: Action, inst: string)
    requires Advance(idempotent, pc, a).Some? && !a.Select? && !(a.RecordInstance? && a.inst == inst)
    requires Pending(pc, inst) ==> AnsweredWell(pc)
    ensures var pc' := Settle(Advance(idempotent, pc, a).value);
            (Pending(pc', inst) <==> Pending(pc, inst)) && (Pending(pc', inst) ==> AnsweredWell(pc'))
  {
  }

  lemma OtherKeepsGuard(cfg: SB.Config, s: State, e: Event, inst: string)
    requires Enabled(s, e) && inst in s.breakers.guards
    requires e.Act? ==> !e.action.Select? && !(e.action.RecordInstance? && e.action.inst == inst)
    ensures inst in Step(cfg, s, e).breakers.guards && Step(cfg, s, e).breakers.guards[inst] == s.breakers.guards[inst]
  {
  }

  /** Operations that do not touch the instance's breaker keep its pending attempts, answered as they were. */
  lemma DeadOther(cfg: SB.Config, s: State, e: Event, inst: string)
    requires Dead(s, inst) && Enabled(s, e)
    requires e.Act? ==> !e.action.Select? && !(e.action.RecordInstance? && e.action.inst == inst)
    ensures Dead(Step(cfg, s, e), inst)
  {
    var s' := Step(cfg, s, e);
    OtherKeepsGuard(cfg, s, e, inst);
    if e.Act? {
      OtherKeepsPending(s.calls[e.id].idempotent, s.calls[e.id].pc, e.action, inst);
    }
    SamePending(s, s', inst, e.id);
  }

  lemma SamePending(s: State, s': State, inst: string, id: nat)
    requires id in s'.calls && s'.calls == s.calls[id := s'.calls[id]]
    requires Pending(s'.calls[id].pc, inst) <==> id in s.calls && Pending(s.calls[id].pc, inst)
    ensures PendingOn(s', inst) == PendingOn(s, inst)
  {
  }

  lemma DeadStep(cfg: SB.Config, s: State, e: Event, inst: string)
    requires Dead(s, inst) && Enabled(s, e)
    ensures Dead(Step(cfg, s, e), inst) && !Met(Selected(inst), e)
  {
    if e.Act? && e.action.Select? {
      DeadSelect(cfg, s, e, inst);
    } else if e.Act? && e.action.RecordInstance? && e.action.inst == inst {
      DeadRecord(cfg, s, e, inst);
    } else {
      DeadOther(cfg, s, e, inst);
    }
  }

  lemma {:induction false} DeadForever(cfg: SB.Config, s: State, inst: string, events: seq<Event>, clock: int)
    requires Dead(s, inst)
    ensures !Achieves(cfg, s, Selected(inst), events, clock)
    decreases |events|
  {
    if events != [] && Enabled(s, events[0]) {
      DeadStep(cfg, s, events[0], inst);
      DeadForever(cfg, Step(cfg, s, events[0]), inst, events[1..], ClockAfter(events[0], clock));
    }
  }

  /** A question that moves an Open breaker to HalfOpen. */
  predicate Due(g: Guard, now: int) {
    g.b.phase == CB.Open && now - g.b.openedAt >= g.cfg.resetTimeout
  }

  lemma {:induction false} AskAllTriesEveryDue(guards: Guards, asked: seq<Question>, k: nat)
    requires k < |asked| && asked[k].inst in guards && Due(guards[asked[k].inst], asked[k].now)
    ensures var inst, after := asked[k].inst, AskAll(guards, asked).0;
            inst in after && after[inst].b.phase == CB.HalfOpen
  {
    var n, inst := |asked| - 1, asked[k].inst;
    if k < n {
      AskAllTriesEveryDue(guards, asked[..n], k);
    } else {
      StaysUntilDue(guards, asked[..n], inst);
    }
  }

  lemma {:induction false} StaysUntilDue(guards: Guards, asked: seq<Question>, inst: string)
    requires inst in guards && guards[inst].b.phase == CB.Open
    ensures var after := AskAll(guards, asked).0;
            inst in after && (after[inst] == guards[inst] || after[inst].b.phase == CB.HalfOpen)
  {
    if asked != [] {
      StaysUntilDue(guards, asked[..|asked| - 1], inst);
    }
  }

  /**
   One selection takes every other listed instance whose breaker is due out for good: all of them
   leave Open for HalfOpen, and only the selected one gets an outcome recorded.
   */
  lemma SelectionStrandsTheRest(cfg: SB.Config, s: State, e: Event, k: nat, clock: int)
    requires Enabled(s, e) && e.Act? && e.action.Select? && k < |e.action.asked|
    requires var q := e.action.asked[k];
             && q.inst in s.breakers.guards && Due(s.breakers.guards[q.inst], q.now)
             && PendingOn(s, q.inst) == {} && e.action.chosen != Some(q.inst)
    ensures Dead(Step(cfg, s, e), e.action.asked[k].inst)
    ensures !CanHappen(cfg, Step(cfg, s, e), Selected(e.action.asked[k].inst), clock)
  {
    var s', inst := Step(cfg, s, e), e.action.asked[k].inst;
    AskAllTriesEveryDue(s.breakers.guards, e.action.asked, k);
    PendingMoves(s, s', inst, e.id);
    NonePending(s', inst);
    forall events ensures !Achieves(cfg, s', Selected(inst), events, clock) {
      DeadForever(cfg, s', inst, events, clock);
    }
  }

  /** So does the only probe of an instance, when its success is one too few. */
  lemma SuccessfulProbeStrands(cfg: SB.Config, s: State, e: Event, inst: string, clock: int)
    requires Enabled(s, e) && e.Act? && e.action.RecordInstance? && e.action.inst == inst && e.action.ok
    requires inst in s.breakers.guards && s.breakers.guards[inst].b.phase == CB.HalfOpen
    requires PendingOn(s, inst) == {e.id}
    requires s.breakers.guards[inst].b.oks + 1 < s.breakers.guards[inst].cfg.successThreshold
    ensures !CanHappen(cfg, Step(cfg, s, e), Selected(inst), clock)
  {
    var s' := Step(cfg, s, e);
    PendingMoves(s, s', inst, e.id);
    NonePending(s', inst);
    forall events ensures !Achieves(cfg, s', Selected(inst), events, clock) {
      DeadForever(cfg, s', inst, events, clock);
    }
  }

  // ----- the service -----

  /** Let through by the service's breaker and not yet finished. */
  predicate Active(pc: Pc) {
    !pc.Start? && !pc.Finished?
  }

  /** Answered, and about to record a success on the service. */
  predicate BoundToSucceed(pc: Pc) {
    (pc.Answered? || pc.Reporting? || pc.Judging?) && pc.good
  }

  function ActiveCalls(s: State): set<nat> {
    set id | id in s.calls && Active(s.calls[id].pc)
  }

  /** HalfOpen, no call under way can fail any more, and those under way, if any, do not suffice. */
  predicate ServiceDead(s: State) {
    && s.breakers.service.Some? && s.breakers.service.value.b.phase == CB.HalfOpen
    && (forall id :: id in s.calls && Active(s.calls[id].pc) ==> BoundToSucceed(s.calls[id].pc))
    && (ActiveCalls(s) == {} ||
        s.breakers.service.value.b.oks + |ActiveCalls(s)| < s.breakers.service.value.cfg.successThreshold)
  }

  lemma ActiveMoves(s: State, s': State, id: nat)
    requires id in s'.calls && s'.calls == s.calls[id := s'.calls[id]]
    ensures ActiveCalls(s') == if Active(s'.calls[id].pc) then ActiveCalls(s) + {id} else ActiveCalls(s) - {id}
  {
  }

  lemma NoneActive(s: State)
    requires ActiveCalls(s) == {}
    ensures forall id :: id in s.calls ==> !Active(s.calls[id].pc)
  {
    forall id | id in s.calls ensures !Active(s.calls[id].pc) {
      assert id !in ActiveCalls(s);
    }
  }

  lemma ServiceDeadRecord(cfg: SB.Config, s: State, e: Event)
    requires ServiceDead(s) && Enabled(s, e) && e.Act? && e.action.RecordService?
    ensures ServiceDead(Step(cfg, s, e))
  {
    assert e.id in ActiveCalls(s);
    ActiveMoves(s, Step(cfg, s, e), e.id);
  }

  lemma OtherKeepsActive(idempotent: bool, pc: Pc, a: Action)
    requires Advance(idempotent, pc, a).Some? && !a.RecordService? && !(a.AskService? && a.granted)
    requires Active(pc) ==> BoundToSucceed(pc)
    ensures var pc' := Settle(Advance(idempotent, pc, a).value);
            (Active(pc') <==> Active(pc)) && (Active(pc') ==> BoundToSucceed(pc'))
  {
  }

  lemma HalfOpenRefuses(cfg: SB.Config, s: State, e: Event)
    requires s.breakers.service.Some? && s.breakers.service.value.b.phase == CB.HalfOpen
    requires Enabled(s, e) && !(e.Act? && e.action.RecordService?)
    ensures Step(cfg, s, e).breakers.service == s.breakers.service && !Met(Admitted, e)
  {
  }

  lemma ServiceDeadOther(cfg: SB.Config, s: State, e: Event)
    requires ServiceDead(s) && Enabled(s, e) && !(e.Act? && e.action.RecordService?)
    ensures ServiceDead(Step(cfg, s, e)) && !Met(Admitted, e)
  {
    var s' := Step(cfg, s, e);
    HalfOpenRefuses(cfg, s, e);
    if e.Act? {
      OtherKeepsActive(s.calls[e.id].idempotent, s.calls[e.id].pc, e.action);
    }
    SameActive(s, s', e.id);
  }

  lemma SameActive(s: State, s': State, id: nat)
    requires id in s'.calls && s'.calls == s.calls[id := s'.calls[id]]
    requires Active(s'.calls[id].pc) <==> id in s.calls && Active(s.calls[id].pc)
    ensures ActiveCalls(s') == ActiveCalls(s)
  {
  }

  lemma ServiceDeadStep(cfg: SB.Config, s: State, e: Event)
    requires ServiceDead(s) && Enabled(s, e)
    ensures ServiceDead(Step(cfg, s, e)) && !Met(Admitted, e)
  {
    if e.Act? && e.action.RecordService? {
      ServiceDeadRecord(cfg, s, e);
    } else {
      ServiceDeadOther(cfg, s, e);
    }
  }

  lemma {:induction false} ServiceDeadForever(cfg: SB.Config, s: State, events: seq<Event>, clock: int)
    requires ServiceDead(s)
    ensures !Achieves(cfg, s, Admitted, events, clock)
    decreases |events|
  {
    if events != [] && Enabled(s, events[0]) {
      ServiceDeadStep(cfg, s, events[0]);
      ServiceDeadForever(cfg, Step(cfg, s, events[0]), events[1..], ClockAfter(events[0], clock));
    }
  }

  /** No call rests in the middle of a wait. */
  predicate Rested(s: State) {
    forall id :: id in s.calls ==> !s.calls[id].pc.Waiting?
  }

  lemma {:induction false} RunKeepsRested(cfg: SB.Config, s: State, events: seq<Event>, end: State)
    requires Rested(s) && Reaches(cfg, s, events, end)
    ensures Rested(end)
    decreases |events|
  {
    if events != [] {
      RunKeepsRested(cfg, Step(cfg, s, events[0]), events[1..], end);
    }
  }

  /** A service breaker that is not HalfOpen lets a new call through, when Open once its timeout has passed. */
  lemma FreshAsk(cfg: SB.Config, s: State, clock: int)
    requires s.breakers.service.Some? && s.breakers.service.value.b.phase != CB.HalfOpen
    ensures CanHappen(cfg, s, Admitted, clock)
  {
    var id := Unused(s.calls.Keys);
    var e1, e2 := Arrive(id, false), Act(id, AskService(GrantTime(s.breakers.service.value, clock), true));
    HappensNow(cfg, Step(cfg, s, e1), Admitted, e2, clock);
    HappensAfter(cfg, s, Admitted, e1, clock);
  }

  /** How far a call is from recording a failure on the service. */
  function StepsToFail(pc: Pc): nat {
    match pc
    case Unserved => 0
    case Choosing(_) => 1
    case Looping(_) => 2
    case Judging(_, _, _) => 3
    case Reporting(_, _, _, _) => 4
    case Answered(_, _, _, _) => 5
    case _ => 6
  }

  /** The next operation on the way to a failure. */
  function Failing(c: Call, clock: int): Action {
    match c.pc
    case Looping(_) => CheckDeadline(false)
    case Choosing(_) => Select([], None)
    case Calling(_, _) => Upstream(0, true)
    case Answered(_, _, _, _) => CallDone(0, true)
    case Reporting(_, inst, _, _) => RecordInstance(clock, inst, false)
    case Judging(n, _, _) =>
      if c.idempotent && n < MAX_RETRIES then Backoff(100 * n, false) else RecordService(clock, false)
    case _ => RecordService(clock, false)
  }

  lemma FailingAdvances(cfg: SB.Config, s: State, id: nat, clock: int)
    requires id in s.calls && Active(s.calls[id].pc) && !BoundToSucceed(s.calls[id].pc) && !s.calls[id].pc.Waiting?
    ensures var e := Act(id, Failing(s.calls[id], clock));
            Enabled(s, e) && OnClock(e, clock) && ClockAfter(e, clock) == clock
    ensures var e := Act(id, Failing(s.calls[id], clock)); var pc := Step(cfg, s, e).calls[id].pc;
            e.action.RecordService? ||
            (Active(pc) && !BoundToSucceed(pc) && !pc.Waiting? && StepsToFail(pc) < StepsToFail(s.calls[id].pc))
  {
  }

  /** A call that can still fail opens the service's breaker. */
  lemma {:induction false} FailureReopensService(cfg: SB.Config, s: State, id: nat, clock: int)
    requires s.breakers.service.Some? && s.breakers.service.value.b.phase == CB.HalfOpen
    requires id in s.calls && Active(s.calls[id].pc) && !BoundToSucceed(s.calls[id].pc) && !s.calls[id].pc.Waiting?
    ensures CanHappen(cfg, s, Admitted, clock)
    decreases StepsToFail(s.calls[id].pc)
  {
    var e := Act(id, Failing(s.calls[id], clock));
    FailingAdvances(cfg, s, id, clock);
    if e.action.RecordService? {
      FreshAsk(cfg, Step(cfg, s, e), clock);
    } else {
      FailureReopensService(cfg, Step(cfg, s, e), id, clock);
    }
    HappensAfter(cfg, s, Admitted, e, clock);
  }

  function Succeeding(c: Call, clock: int): Action {
    match c.pc
    case Answered(_, _, _, _) => CallDone(0, false)
    case Reporting(_, inst, _, _) => RecordInstance(clock, inst, true)
    case _ => RecordService(clock, true)
  }

  /** Enough calls answered well close the service's breaker one success after the other. */
  lemma {:induction false} SuccessesCloseService(cfg: SB.Config, s: State, id: nat, clock: int)
    requires s.breakers.service.Some? && s.breakers.service.value.b.phase == CB.HalfOpen
    requires forall i :: i in s.calls && Active(s.calls[i].pc) ==> BoundToSucceed(s.calls[i].pc)
    requires id in ActiveCalls(s)
    requires s.breakers.service.value.b.oks + |ActiveCalls(s)| >= s.breakers.service.value.cfg.successThreshold
    ensures CanHappen(cfg, s, Admitted, clock)
    decreases |ActiveCalls(s)|, StepsToFail(s.calls[id].pc)
  {
    var e := Act(id, Succeeding(s.calls[id], clock));
    var s' := Step(cfg, s, e);
    ActiveMoves(s, s', id);
    if !s.calls[id].pc.Judging? {
      SuccessesCloseService(cfg, s', id, clock);
    } else if s'.breakers.service.value.b.phase == CB.Closed {
      FreshAsk(cfg, s', clock);
    } else {
      assert ActiveCalls(s') != {};
      var next :| next in ActiveCalls(s');
      SuccessesCloseService(cfg, s', next, clock);
    }
    HappensAfter(cfg, s, Admitted, e, clock);
  }

  /**
   In every reachable state with a service breaker, some continuation lets a call through exactly when
   the breaker is not HalfOpen with every call under way bound to succeed and too few to close it.
   */
  lemma AdmissionCharacterised(cfg: SB.Config, start: State, events: seq<Event>, s: State, clock: int)
    requires Initial(start) && Reaches(cfg, start, events, s) && s.breakers.service.Some?
    ensures CanHappen(cfg, s, Admitted, clock) <==> !ServiceDead(s)
  {
    RunKeepsRested(cfg, start, events, s);
    if ServiceDead(s) {
      forall events ensures !Achieves(cfg, s, Admitted, events, clock) {
        ServiceDeadForever(cfg, s, events, clock);
      }
    } else if s.breakers.service.value.b.phase != CB.HalfOpen {
      FreshAsk(cfg, s, clock);
    } else if id :| id in s.calls && Active(s.calls[id].pc) && !BoundToSucceed(s.calls[id].pc) {
      FailureReopensService(cfg, s, id, clock);
    } else {
      var id :| id in ActiveCalls(s);
      SuccessesCloseService(cfg, s, id, clock);
    }
  }

  /**
   A service's only call under way takes it down for good when it leaves without an outcome, through the
   deadline or cancellation exit, and also when it succeeds and its success is one too few.
   */
  lemma ProbeTakesServiceDown(cfg: SB.Config, s: State, e: Event, clock: int)
    requires s.breakers.service.Some? && s.breakers.service.value.b.phase == CB.HalfOpen
    requires Enabled(s, e) && e.Act? && ActiveCalls(s) == {e.id}
    requires
      || e.action == CheckDeadline(true)
      || (e.action.Backoff? && e.action.cancelled)
      || (e.action.RecordService? && e.action.ok
          && s.breakers.service.value.b.oks + 1 < s.breakers.service.value.cfg.successThreshold)
    ensures ServiceDead(Step(cfg, s, e)) && !CanHappen(cfg, Step(cfg, s, e), Admitted, clock)
  {
    var s' := Step(cfg, s, e);
    ActiveMoves(s, s', e.id);
    NoneActive(s');
    forall events ensures !Achieves(cfg, s', Admitted, events, clock) {
      ServiceDeadForever(cfg, s', events, clock);
    }
  }

  // ----- an instance behind its service's breaker -----

  /** The instance's breaker is not in the way: there is none, or it grants once its timeout has passed. */
  predicate Ready(s: State, inst: string) {
    inst in s.breakers.guards ==> s.breakers.guards[inst].b.phase != CB.HalfOpen
  }

  /** Nor is the service's. */
  predicate Passable(s: State) {
    s.breakers.service.Some? ==> s.breakers.service.value.b.phase != CB.HalfOpen
  }

  /** With neither in the way, a new call selects the instance. */
  lemma FreshSelection(cfg: SB.Config, s: State, inst: string, clock: int)
    requires Passable(s) && Ready(s, inst)
    ensures CanHappen(cfg, s, Selected(inst), clock)
  {
    var id := Unused(s.calls.Keys);
    var t := if s.breakers.service.Some? then GrantTime(s.breakers.service.value, clock) else clock;
    var now := if inst in s.breakers.guards then GrantTime(s.breakers.guards[inst], t) else t;
    var asked := [Question(inst, now)];
    var e1, e2 := Arrive(id, false), Act(id, AskService(t, true));
    var e3, e4 := Act(id, CheckDeadline(false)), Act(id, Select(asked, Some(inst)));
    var s1 := Step(cfg, s, e1);
    var s2 := Step(cfg, s1, e2);
    var s3 := Step(cfg, s2, e3);
    assert s3.breakers.guards == s.breakers.guards;
    assert asked[..0] == [] && AskAll(s.breakers.guards, asked).1 == [inst];
    HappensNow(cfg, s3, Selected(inst), e4, t);
    HappensAfter(cfg, s2, Selected(inst), e3, t);
    HappensAfter(cfg, s1, Selected(inst), e2, clock);
    HappensAfter(cfg, s, Selected(inst), e1, clock);
  }

  function StepsToReport(pc: Pc): nat {
    if pc.Reporting? then 0 else if pc.Answered? then 1 else 2
  }

  /** A pending attempt that can still fail, or already has, opens the instance's breaker. */
  lemma {:induction false} FailureReopens(cfg: SB.Config, s: State, inst: string, id: nat, clock: int)
    requires Passable(s) && !Ready(s, inst)
    requires id in s.calls && Pending(s.calls[id].pc, inst) && !AnsweredWell(s.calls[id].pc)
    ensures CanHappen(cfg, s, Selected(inst), clock)
    decreases StepsToReport(s.calls[id].pc)
  {
    var e := match s.calls[id].pc
      case Calling(_, _) => Act(id, Upstream(0, true))
      case Answered(_, _, _, _) => Act(id, CallDone(0, true))
      case _ => Act(id, RecordInstance(clock, inst, false));
    if s.calls[id].pc.Reporting? {
      FreshSelection(cfg, Step(cfg, s, e), inst, clock);
    } else {
      FailureReopens(cfg, Step(cfg, s, e), inst, id, clock);
    }
    HappensAfter(cfg, s, Selected(inst), e, clock);
  }

  lemma FailingKeepsReady(cfg: SB.Config, s: State, id: nat, inst: string, clock: int)
    requires id in s.calls && Active(s.calls[id].pc) && !BoundToSucceed(s.calls[id].pc) && !s.calls[id].pc.Waiting?
    requires Ready(s, inst) || Pending(s.calls[id].pc, inst)
    ensures var e := Act(id, Failing(s.calls[id], clock));
            Enabled(s, e) && (Ready(Step(cfg, s, e), inst) || Pending(Step(cfg, s, e).calls[id].pc, inst))
    ensures Failing(s.calls[id], clock).RecordService? ==> Ready(s, inst)
  {
    assert AskAll(s.breakers.guards, []) == (s.breakers.guards, []);
  }

  /** A call that can still fail opens the service's breaker, and on its way the one of the instance it is on. */
  lemma {:induction false} FailureFreesBoth(cfg: SB.Config, s: State, inst: string, id: nat, clock: int)
    requires !Passable(s) && (Ready(s, inst) || (id in s.calls && Pending(s.calls[id].pc, inst)))
    requires id in s.calls && Active(s.calls[id].pc) && !BoundToSucceed(s.calls[id].pc) && !s.calls[id].pc.Waiting?
    ensures CanHappen(cfg, s, Selected(inst), clock)
    decreases StepsToFail(s.calls[id].pc)
  {
    var e := Act(id, Failing(s.calls[id], clock));
    var s' := Step(cfg, s, e);
    FailingAdvances(cfg, s, id, clock);
    FailingKeepsReady(cfg, s, id, inst, clock);
    if e.action.RecordService? {
      FreshSelection(cfg, s', inst, clock);
    } else {
      HalfOpenRefuses(cfg, s, e);
      FailureFreesBoth(cfg, s', inst, id, clock);
    }
    HappensAfter(cfg, s, Selected(inst), e, clock);
  }

  /** Calls bound to succeed, if there are enough, close the service's breaker. */
  lemma {:induction false} SuccessesFreeService(cfg: SB.Config, s: State, inst: string, id: nat, clock: int)
    requires !Passable(s) && Ready(s, inst) && id in ActiveCalls(s)
    requires forall i :: i in s.calls && Active(s.calls[i].pc) ==> BoundToSucceed(s.calls[i].pc)
    requires s.breakers.service.value.b.oks + |ActiveCalls(s)| >= s.breakers.service.value.cfg.successThreshold
    ensures CanHappen(cfg, s, Selected(inst), clock)
    decreases |ActiveCalls(s)|, StepsToFail(s.calls[id].pc)
  {
    var e := Act(id, Succeeding(s.calls[id], clock));
    var s' := Step(cfg, s, e);
    ActiveMoves(s, s', id);
    if !s.calls[id].pc.Judging? {
      SuccessesFreeService(cfg, s', inst, id, clock);
    } else if Passable(s') {
      FreshSelection(cfg, s', inst, clock);
    } else {
      assert ActiveCalls(s') != {};
      var next :| next in ActiveCalls(s');
      SuccessesFreeService(cfg, s', inst, next, clock);
    }
    HappensAfter(cfg, s, Selected(inst), e, clock);
  }

  /** A ready instance is selected once the service's breaker is out of the way, which it can be unless dead. */
  lemma ServiceYields(cfg: SB.Config, s: State, inst: string, clock: int)
    requires Rested(s) && Ready(s, inst) && !ServiceDead(s)
    ensures CanHappen(cfg, s, Selected(inst), clock)
  {
    if Passable(s) {
      FreshSelection(cfg, s, inst, clock);
    } else if id :| id in s.calls && Active(s.calls[id].pc) && !BoundToSucceed(s.calls[id].pc) {
      FailureFreesBoth(cfg, s, inst, id, clock);
    } else {
      var id :| id in ActiveCalls(s);
      SuccessesFreeService(cfg, s, inst, id, clock);
    }
  }

  /** Reporting a success on an instance tells the service nothing yet. */
  lemma ReportKeepsService(cfg: SB.Config, s: State, id: nat, e: Event)
    requires id in s.calls && AnsweredWell(s.calls[id].pc) && e.Act? && e.id == id && Enabled(s, e)
    ensures ServiceDead(Step(cfg, s, e)) <==> ServiceDead(s)
    ensures Rested(s) ==> Rested(Step(cfg, s, e))
  {
    var s' := Step(cfg, s, e);
    ActiveMoves(s, s', id);
    SameActive(s, s', id);
    forall i | i in s.calls ensures BoundToSucceed(s'.calls[i].pc) <==> BoundToSucceed(s.calls[i].pc) {
    }
  }

  /** Enough attempts answered well close the instance's breaker one success after the other. */
  lemma {:induction false} SuccessesClose(cfg: SB.Config, s: State, inst: string, id: nat, clock: int)
    requires Rested(s) && !ServiceDead(s) && !Ready(s, inst) && id in PendingOn(s, inst)
    requires forall i :: i in s.calls && Pending(s.calls[i].pc, inst) ==> AnsweredWell(s.calls[i].pc)
    requires s.breakers.guards[inst].b.oks + |PendingOn(s, inst)| >= s.breakers.guards[inst].cfg.successThreshold
    ensures CanHappen(cfg, s, Selected(inst), clock)
    decreases |PendingOn(s, inst)|, StepsToReport(s.calls[id].pc)
  {
    var answered := s.calls[id].pc.Answered?;
    var e := Act(id, if answered then CallDone(0, false) else RecordInstance(clock, inst, true));
    var s' := Step(cfg, s, e);
    PendingMoves(s, s', inst, id);
    ReportKeepsService(cfg, s, id, e);
    if answered {
      SuccessesClose(cfg, s', inst, id, clock);
    } else if Ready(s', inst) {
      ServiceYields(cfg, s', inst, clock);
    } else {
      assert PendingOn(s', inst) != {};
      var next :| next in PendingOn(s', inst);
      SuccessesClose(cfg, s', inst, next, clock);
    }
    HappensAfter(cfg, s, Selected(inst), e, clock);
  }

  /** Where no call is let through and none can still choose, nothing is selected. */
  lemma {:induction false} NothingSelected(cfg: SB.Config, s: State, inst: string, events: seq<Event>, clock: int)
    requires ServiceDead(s)
    ensures !Achieves(cfg, s, Selected(inst), events, clock)
    decreases |events|
  {
    if events != [] && Enabled(s, events[0]) {
      ServiceDeadStep(cfg, s, events[0]);
      NothingSelected(cfg, Step(cfg, s, events[0]), inst, events[1..], ClockAfter(events[0], clock));
    }
  }

  /**
   From every reachable state, some continuation selects an instance exactly when neither its own
   breaker nor its service's is dead: HalfOpen, with nothing left that can fail and too few successes
   under way to close it.
   */
  lemma SelectionCharacterised(
      cfg: SB.Config, start: State, events: seq<Event>, s: State, inst: string, clock: int)
    requires Initial(start) && Reaches(cfg, start, events, s)
    ensures CanHappen(cfg, s, Selected(inst), clock) <==> !Dead(s, inst) && !ServiceDead(s)
  {
    RunKeepsRested(cfg, start, events, s);
    if Dead(s, inst) {
      forall later ensures !Achieves(cfg, s, Selected(inst), later, clock) {
        DeadForever(cfg, s, inst, later, clock);
      }
    } else if ServiceDead(s) {
      forall later ensures !Achieves(cfg, s, Selected(inst), later, clock) {
        NothingSelected(cfg, s, inst, later, clock);
      }
    } else if Ready(s, inst) {
      ServiceYields(cfg, s, inst, clock);
    } else if id :| id in s.calls && Pending(s.calls[id].pc, inst) && !AnsweredWell(s.calls[id].pc) {
      if Passable(s) {
        FailureReopens(cfg, s, inst, id, clock);
      } else {
        FailureFreesBoth(cfg, s, inst, id, clock);
      }
    } else {
      var id :| id in PendingOn(s, inst);
      SuccessesClose(cfg, s, inst, id, clock);
    }
  }
}
