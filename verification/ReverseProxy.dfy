/**
 The retry loop as it runs, on breaker objects (internal/proxy/proxy.go, ProxyRequest).  Deadlines,
 health, the balancer's pick, upstream answers, cancellation and jitter come from the environment.
 */
module ReverseProxy {
  import opened Common
  import opened ProxyCalls
  import CB = CircuitBreakers
  import PM = ProxyMachine

  /** What the environment answers during one turn of the loop. */
  datatype Turn = Turn(
    tooLate: bool, asked: seq<Question>, pick: nat,
    status: int, failed: bool, latencyMs: nat, instanceAt: int, serviceAt: int,
    jitter: nat, cancelled: bool)

  type CircuitBreakers = map<string, CB.CircuitBreaker>

  ghost predicate Separate(cbs: CircuitBreakers) {
    forall id, id' :: id in cbs && id' in cbs && cbs[id] == cbs[id'] ==> id == id'
  }

  ghost function Guards(cbs: CircuitBreakers): PM.Guards
    reads cbs.Values
  {
    map id | id in cbs :: PM.Guard(cbs[id].cfg, cbs[id].State())
  }

  ghost function ServiceGuard(cb: CB.CircuitBreaker?): Option<PM.Guard>
    reads cb
  {
    if cb == null then None else Some(PM.Guard(cb.cfg, cb.State()))
  }

  // ----- whose data an operation carries -----

  /** Deadline checks so far; the operations from one to the next are a turn's. */
  function Checks(trace: seq<Action>): nat {
    if trace == [] then 0 else Checks(trace[..|trace| - 1]) + if trace[|trace| - 1].CheckDeadline? then 1 else 0
  }

  predicate Good(t: Turn) {
    Fine(Answer(t.status, t.failed))
  }

  /** The balancer's pick among the instances whose breakers grant. */
  function Picked(guards: PM.Guards, t: Turn): Option<string> {
    var eligible := PM.AskAll(guards, t.asked).1;
    if eligible == [] then None else Some(eligible[t.pick % |eligible|])
  }

  /** The operation is what turn `k` makes of it. */
  predicate Carries(bs: PM.Breakers, a: Action, k: nat, t: Turn) {
    match a
    case AskService(_, _) => false
    case CheckDeadline(tooLate) => tooLate == t.tooLate
    case Select(asked, chosen) => asked == t.asked && chosen == Picked(bs.guards, t)
    case Upstream(status, failed) => status == t.status && failed == t.failed
    case CallDone(ms, isErr) => ms == t.latencyMs && isErr == !Good(t)
    case RecordInstance(now, _, ok) => now == t.instanceAt && ok == Good(t)
    case RecordService(now, _) => now == t.serviceAt
    case Backoff(ms, cancelled) => ms == 100 * k + t.jitter && cancelled == t.cancelled
  }

  /** After the question to the service's breaker, every operation carries the data of its own turn. */
  ghost predicate Told(start: PM.Breakers, askedAt: int, turns: seq<Turn>, trace: seq<Action>) {
    && (trace != [] ==> trace[0].AskService? && trace[0].now == askedAt)
    && forall i :: 1 <= i < |trace| ==> Own(start, turns, trace[..i], trace[i])
  }

  /** What follows a trace carries the data of the turn under way. */
  predicate Own(start: PM.Breakers, turns: seq<Turn>, trace: seq<Action>, a: Action) {
    var checks := Checks(trace) + if a.CheckDeadline? then 1 else 0;
    0 < checks <= |turns| && Carries(PM.After(start, trace), a, checks - 1, turns[checks - 1])
  }

  lemma ToldAppend(start: PM.Breakers, askedAt: int, turns: seq<Turn>, trace: seq<Action>, a: Action)
    requires Told(start, askedAt, turns, trace)
    requires if trace == [] then a.AskService? && a.now == askedAt else Own(start, turns, trace, a)
    ensures Told(start, askedAt, turns, trace + [a])
    ensures Checks(trace + [a]) == Checks(trace) + if a.CheckDeadline? then 1 else 0
  {
    var longer := trace + [a];
    assert longer[..|trace|] == trace;
    forall i | 1 <= i < |longer| ensures Own(start, turns, longer[..i], longer[i]) {
      assert longer[..i] == if i < |trace| then trace[..i] else trace;
    }
  }

  /** The upstream's k-th answer is turn k's. */
  ghost predicate AnswersAreTurns(turns: seq<Turn>, answers: seq<Answer>) {
    |answers| <= |turns| && forall k :: 0 <= k < |answers| ==> answers[k] == Answer(turns[k].status, turns[k].failed)
  }

  /** The operations lead to `pc`, report what the breakers answered, and carry their own turns' data. */
  ghost predicate Recounts(
      idempotent: bool, start: PM.Breakers, askedAt: int, turns: seq<Turn>, trace: seq<Action>, pc: Pc)
  {
    && Follow(idempotent, Start, trace) == Some(pc) && PM.Genuine(start, trace)
    && Told(start, askedAt, turns, trace) && AnswersAreTurns(turns, Answers(trace))
  }

  /** What one more operation has to be. */
  predicate Continues(
      idempotent: bool, start: PM.Breakers, askedAt: int, turns: seq<Turn>, trace: seq<Action>, pc: Pc, a: Action)
  {
    && Advance(idempotent, pc, a).Some? && PM.Permitted(PM.After(start, trace), a)
    && (if trace == [] then a.AskService? && a.now == askedAt else Own(start, turns, trace, a))
    && (a.Upstream? ==> Checks(trace) == |Answers(trace)| + 1)
  }

  lemma RecountsAppend(
      idempotent: bool, start: PM.Breakers, askedAt: int, turns: seq<Turn>, trace: seq<Action>, pc: Pc, a: Action)
    requires Recounts(idempotent, start, askedAt, turns, trace, pc)
    requires Continues(idempotent, start, askedAt, turns, trace, pc, a)
    ensures Recounts(idempotent, start, askedAt, turns, trace + [a], Settle(Advance(idempotent, pc, a).value))
    ensures PM.After(start, trace + [a]) == PM.OnBreakers(PM.After(start, trace), a)
    ensures Checks(trace + [a]) == Checks(trace) + if a.CheckDeadline? then 1 else 0
    ensures |Answers(trace + [a])| == |Answers(trace)| + if a.Upstream? then 1 else 0
  {
    FollowAppend(idempotent, Start, trace, a);
    PM.TraceAppend(start, trace, a);
    ToldAppend(start, askedAt, turns, trace, a);
    AnswersAppend(trace, a);
    if a.Upstream? {
      AnswerIsTurns(start, turns, trace, a);
    }
  }

  lemma AnswerIsTurns(start: PM.Breakers, turns: seq<Turn>, trace: seq<Action>, a: Action)
    requires AnswersAreTurns(turns, Answers(trace)) && Own(start, turns, trace, a)
    requires a.Upstream? && Checks(trace) == |Answers(trace)| + 1
    ensures AnswersAreTurns(turns, Answers(trace) + [Answer(a.status, a.failed)])
  {
  }

  /** A bad answer with attempts left is followed by the turn's wait. */
  lemma WaitContinues(
      start: PM.Breakers, askedAt: int, turns: seq<Turn>, trace: seq<Action>, pc: Pc, k: nat, ms: nat)
    requires pc.Judging? && pc.attempt == k < MAX_RETRIES && !pc.good
    requires trace != [] && Checks(trace) == k + 1 <= |turns| && turns[k].jitter < 50 && ms == 100 * k + turns[k].jitter
    ensures Continues(true, start, askedAt, turns, trace, pc, Backoff(ms, turns[k].cancelled))
    ensures Settle(Advance(true, pc, Backoff(ms, turns[k].cancelled)).value)
              == if turns[k].cancelled then Finished(Cancelled) else Looping(k + 1)
  {
  }

  /**
   After n answers: only the last can be good, and then the call succeeds; a call whose attempts are
   used up without one fails with the last one's status, or 502 when there is none.
   */
  predicate Decided(attempts: nat, turns: seq<Turn>, n: nat, exit: Exit)
    requires n <= |turns|
  {
    && n <= attempts && (forall k :: 0 <= k < n - 1 ==> !Good(turns[k]))
    && (exit == Succeeded <==> n > 0 && Good(turns[n - 1]))
    && (exit.UpstreamFailed? <==> n > 0 && n == attempts && !Good(turns[n - 1]))
    && (exit.UpstreamFailed? ==>
        exit.code == if turns[n - 1].failed || turns[n - 1].status == 0 then 502 else turns[n - 1].status)
  }

  lemma TurnsDecide(idempotent: bool, turns: seq<Turn>, trace: seq<Action>, exit: Exit)
    requires Follow(idempotent, Start, trace) == Some(Finished(exit)) && AnswersAreTurns(turns, Answers(trace))
    ensures Decided(if idempotent then 3 else 1, turns, |Answers(trace)|, exit)
  {
    AnswersDecide(idempotent, trace, exit);
  }

  // ----- the operations on breaker objects -----

  /** The skip filter's question: an instance without a breaker is never skipped. */
  method IsSkipped(cbs: CircuitBreakers, inst: string, now: int) returns (skipped: bool)
    requires Separate(cbs)
    modifies cbs.Values
    ensures (Guards(cbs), !skipped) == PM.AskGuard(old(Guards(cbs)), inst, now)
  {
    if inst !in cbs {
      return false;
    }
    ghost var before := Guards(cbs);
    var cb := cbs[inst];
    var granted := cb.Allow(now);
    assert forall id :: id in cbs && id != inst ==> cbs[id] != cb;
    assert Guards(cbs) == before[inst := PM.Guard(cb.cfg, cb.State())];
    skipped := !granted;
  }

  /** The outcome on the selected instance's breaker, if it has one. */
  method RecordOn(cbs: CircuitBreakers, inst: string, ok: bool, now: int)
    requires Separate(cbs)
    modifies cbs.Values
    ensures Guards(cbs) == PM.Record(old(Guards(cbs)), inst, ok, now)
  {
    if inst in cbs {
      ghost var before := Guards(cbs);
      var cb := cbs[inst];
      if ok {
        cb.RecordSuccess();
      } else {
        cb.RecordFailure(now);
      }
      assert forall id :: id in cbs && id != inst ==> cbs[id] != cb;
      assert Guards(cbs) == before[inst := PM.Guard(cb.cfg, cb.State())];
    }
  }

  /** The skip filter over the healthy list; asking is what moves due breakers to HalfOpen. */
  method AskEach(cbs: CircuitBreakers, asked: seq<Question>) returns (eligible: seq<string>)
    requires Separate(cbs)
    modifies cbs.Values
    ensures (Guards(cbs), eligible) == PM.AskAll(old(Guards(cbs)), asked)
  {
    eligible := [];
    ghost var before := Guards(cbs);
    for k := 0 to |asked|
      invariant (Guards(cbs), eligible) == PM.AskAll(before, asked[..k])
    {
      assert asked[..k + 1] == asked[..k] + [asked[k]];
      PM.AskAllAppend(before, asked[..k], asked[k]);
      var skipped := IsSkipped(cbs, asked[k].inst, asked[k].now);
      assert eligible + [] == eligible;
      if !skipped {
        eligible := eligible + [asked[k].inst];
      }
    }
    assert asked[..|asked|] == asked;
  }

  /** One running call: what it was given, and its operations so far. */
  class Invocation {
    const serviceCB: CB.CircuitBreaker?
    const cbs: CircuitBreakers
    const idempotent: bool
    ghost const askedAt: int
    ghost const turns: seq<Turn>
    ghost const start: PM.Breakers
    var trace: seq<Action>
    ghost var pc: Pc

    constructor (
        serviceCB: CB.CircuitBreaker?, cbs: CircuitBreakers, idempotent: bool,
        ghost askedAt: int, ghost turns: seq<Turn>)
      requires Separate(cbs) && (serviceCB != null ==> serviceCB !in cbs.Values)
      ensures Stands() && pc == Start && trace == []
      ensures this.serviceCB == serviceCB && this.cbs == cbs && this.idempotent == idempotent
      ensures this.askedAt == askedAt && this.turns == turns
      ensures start == PM.Breakers(ServiceGuard(serviceCB), Guards(cbs))
    {
      this.serviceCB, this.cbs, this.idempotent := serviceCB, cbs, idempotent;
      this.askedAt, this.turns := askedAt, turns;
      start := PM.Breakers(ServiceGuard(serviceCB), Guards(cbs));
      trace, pc := [], Start;
    }

    ghost function Current(): PM.Breakers
      reads serviceCB, cbs.Values
    {
      PM.Breakers(ServiceGuard(serviceCB), Guards(cbs))
    }

    /**
     The operations so far lead to `pc`, carry their own turns' data, report what the breakers answered,
     and account for their state.
     */
    ghost predicate Stands()
      reads this, serviceCB, cbs.Values
    {
      && Separate(cbs) && (serviceCB != null ==> serviceCB !in cbs.Values)
      && Recounts(idempotent, start, askedAt, turns, trace, pc) && Current() == PM.After(start, trace)
    }

    /** The call is in turn `k`, with as many answers behind it. */
    ghost predicate InTurn(k: nat, answers: nat)
      reads this
    {
      trace != [] && Checks(trace) == k + 1 <= |turns| && |Answers(trace)| == answers
    }

    /** All turns before turn `k` were answered. */
    ghost predicate Ready(k: nat)
      reads this
    {
      pc == Looping(k) && trace != [] && Checks(trace) == |Answers(trace)| == k
    }

    /** Appends an operation whose effect on the breakers has just taken place. */
    method Note(a: Action)
      requires Separate(cbs) && (serviceCB != null ==> serviceCB !in cbs.Values)
      requires Recounts(idempotent, start, askedAt, turns, trace, pc)
      requires Continues(idempotent, start, askedAt, turns, trace, pc, a)
      requires Current() == PM.OnBreakers(PM.After(start, trace), a)
      modifies this
      ensures Stands() && trace == old(trace) + [a] && pc == Settle(Advance(idempotent, old(pc), a).value)
      ensures Checks(trace) == old(Checks(trace)) + if a.CheckDeadline? then 1 else 0
      ensures |Answers(trace)| == |old(Answers(trace))| + if a.Upstream? then 1 else 0
    {
      ghost var longer, next := trace + [a], Settle(Advance(idempotent, pc, a).value);
      RecountsAppend(idempotent, start, askedAt, turns, trace, pc, a);
      assert Current() == PM.After(start, longer);
      trace := trace + [a];
      pc := next;
      assert Current() == PM.After(start, longer);
      assert Recounts(idempotent, start, askedAt, turns, longer, next);
    }

    method AskService(now: int) returns (granted: bool)
      requires Stands() && pc == Start && trace == [] && now == askedAt
      modifies this, serviceCB
      ensures Stands() && trace == [Action.AskService(now, granted)]
      ensures if granted then Ready(0) else pc == Finished(ServiceOpen)
    {
      granted := true;
      ghost var guards := Guards(cbs);
      if serviceCB != null {
        granted := serviceCB.Allow(now);
      }
      assert Guards(cbs) == guards;
      Note(Action.AskService(now, granted));
    }

    /** The service's breaker hears an outcome, if there is one. */
    method TellService(ok: bool, now: int, ghost k: nat)
      requires Stands() && Advance(idempotent, pc, RecordService(now, ok)).Some?
      requires InTurn(k, |Answers(trace)|) && now == turns[k].serviceAt
      modifies this, serviceCB
      ensures Stands() && trace == old(trace) + [RecordService(now, ok)]
      ensures pc == Settle(Advance(idempotent, old(pc), RecordService(now, ok)).value)
    {
      ghost var guards := Guards(cbs);
      if serviceCB != null {
        if ok {
          serviceCB.RecordSuccess();
        } else {
          serviceCB.RecordFailure(now);
        }
      }
      assert Guards(cbs) == guards;
      Note(RecordService(now, ok));
    }

    method TellInstance(inst: string, ok: bool, now: int, ghost k: nat)
      requires Stands() && InTurn(k, k + 1) && now == turns[k].instanceAt
      requires pc.Reporting? && pc.attempt == k && pc.inst == inst && pc.good == ok == Good(turns[k])
      modifies this, cbs.Values
      ensures Stands() && trace == old(trace) + [RecordInstance(now, inst, ok)]
      ensures InTurn(k, k + 1) && pc == Judging(k, ok, old(pc).code)
    {
      RecordOn(cbs, inst, ok, now);
      Note(RecordInstance(now, inst, ok));
    }

    /** The balancer's pick among the eligible instances. */
    method Choose(k: nat, t: Turn) returns (chosen: Option<string>)
      requires Stands() && pc == Choosing(k) && InTurn(k, k) && t == turns[k]
      modifies this, cbs.Values
      ensures Stands() && InTurn(k, k) && trace == old(trace) + [Select(t.asked, chosen)]
      ensures pc == if chosen.None? then Unserved else Calling(k, chosen.value)
    {
      var eligible := AskEach(cbs, t.asked);
      chosen := if eligible == [] then None else Some(eligible[t.pick % |eligible|]);
      Note(Select(t.asked, chosen));
    }

    /** The upstream's answer. */
    method Send(k: nat, inst: string, t: Turn) returns (good: bool)
      requires Stands() && pc == Calling(k, inst) && InTurn(k, k) && t == turns[k]
      modifies this
      ensures Stands() && InTurn(k, k + 1) && good == Good(t)
      ensures pc == Answered(k, inst, good, FailureCode(if t.failed then 0 else t.status))
    {
      Note(Upstream(t.status, t.failed));
      good := !t.failed && !Retryable(t.status);
    }

    /** The done callback. */
    method Callback(k: nat, inst: string, good: bool, t: Turn)
      requires Stands() && pc.Answered? && pc.attempt == k && pc.inst == inst && pc.good == good == Good(t)
      requires InTurn(k, k + 1) && t == turns[k]
      modifies this
      ensures Stands() && InTurn(k, k + 1) && pc == Reporting(k, inst, good, old(pc).code)
    {
      Note(CallDone(t.latencyMs, !good));
    }

    /** The upstream's answer, the done callback, and the report to the instance's breaker. */
    method Forward(k: nat, inst: string, t: Turn) returns (good: bool)
      requires Stands() && pc == Calling(k, inst) && InTurn(k, k) && t == turns[k]
      modifies this, serviceCB, cbs.Values
      ensures Stands() && InTurn(k, k + 1) && good == Good(t)
      ensures pc == Judging(k, good, FailureCode(if t.failed then 0 else t.status))
    {
      good := Send(k, inst, t);
      Callback(k, inst, good, t);
      TellInstance(inst, good, t.instanceAt, k);
    }

    /** The wait before another attempt, which a cancellation ends. */
    method Pause(attempt: nat, t: Turn)
      requires Stands() && pc.Judging? && pc.attempt == attempt && !pc.good
      requires idempotent && attempt < MAX_RETRIES && t.jitter < 50
      requires InTurn(attempt, attempt + 1) && t == turns[attempt]
      modifies this
      ensures Stands() && InTurn(attempt, attempt + 1)
      ensures pc == if t.cancelled then Finished(Cancelled) else Looping(attempt + 1)
    {
      var ms := attempt * 100 + t.jitter;
      WaitContinues(start, askedAt, turns, trace, pc, attempt, ms);
      ghost var next := Settle(Advance(idempotent, pc, Backoff(ms, t.cancelled)).value);
      Note(Backoff(ms, t.cancelled));
      assert pc == next;
    }

    /** The service's breaker hears of the call's end, or the loop backs off for another attempt. */
    method Judge(attempt: nat, good: bool, code: int, t: Turn) returns (exit: Option<Exit>)
      requires Stands() && pc == Judging(attempt, good, code) && attempt <= MAX_RETRIES && t.jitter < 50
      requires InTurn(attempt, attempt + 1) && t == turns[attempt]
      modifies this, serviceCB
      ensures Stands() && Leads(attempt, exit)
    {
      if good {
        TellService(true, t.serviceAt, attempt);
        return Some(Succeeded);
      }
      if !idempotent || attempt >= MAX_RETRIES {
        TellService(false, t.serviceAt, attempt);
        return Some(UpstreamFailed(code));
      }
      Pause(attempt, t);
      exit := if t.cancelled then Some(Cancelled) else None;
    }

    /** Whether the time left is too short for another attempt. */
    method CheckTime(k: nat, t: Turn)
      requires Stands() && Ready(k) && k < |turns| && t == turns[k]
      modifies this
      ensures Stands() && InTurn(k, k) && pc == if t.tooLate then Finished(DeadlineExceeded) else Choosing(k)
    {
      Note(CheckDeadline(t.tooLate));
    }

    /** No instance: the service's breaker hears a failure. */
    method Refuse(k: nat, t: Turn)
      requires Stands() && pc == Unserved && InTurn(k, k) && t == turns[k]
      modifies this, serviceCB
      ensures Stands() && pc == Finished(NoHealthyInstance)
    {
      TellService(false, t.serviceAt, k);
    }

    /** An attempt on the chosen instance, to its end or the next turn. */
    method Serve(k: nat, inst: string, t: Turn) returns (exit: Option<Exit>)
      requires Stands() && pc == Calling(k, inst) && InTurn(k, k) && t == turns[k]
      requires k <= MAX_RETRIES && t.jitter < 50
      modifies this, serviceCB, cbs.Values
      ensures Stands() && Leads(k, exit)
    {
      var good := Forward(k, inst, t);
      exit := Judge(k, good, FailureCode(if t.failed then 0 else t.status), t);
    }

    /** Where a turn leaves the call. */
    ghost predicate Leads(k: nat, exit: Option<Exit>)
      reads this
    {
      if exit.Some? then pc == Finished(exit.value)
      else k < MAX_RETRIES && Ready(k + 1)
    }

    /** One turn of the loop. */
    method TakeTurn(attempt: nat, t: Turn) returns (exit: Option<Exit>)
      requires Stands() && Ready(attempt) && attempt <= MAX_RETRIES && t.jitter < 50
      requires attempt < |turns| && t == turns[attempt]
      modifies this, serviceCB, cbs.Values
      ensures Stands() && Leads(attempt, exit)
    {
      CheckTime(attempt, t);
      if t.tooLate {
        return Some(DeadlineExceeded);
      }
      var chosen := Choose(attempt, t);
      if chosen.None? {
        Refuse(attempt, t);
        return Some(NoHealthyInstance);
      }
      exit := Serve(attempt, chosen.value, t);
    }
  }

  /**
   One proxied call.  Its operations, in order, are a complete path of the call's control flow; each
   carries the data of its own turn and reports what the breakers really answered, and together they
   are all that happened to the breakers.  The exit is what the turns' answers come to.  The service's
   breaker is null when the service has none.
   */
  method ProxyRequest(
      serviceCB: CB.CircuitBreaker?, instanceCBs: CircuitBreakers, httpMethod: string, idempotencyKey: string,
      askedAt: int, turns: seq<Turn>)
    returns (exit: Exit, trace: seq<Action>)
    requires Separate(instanceCBs) && (serviceCB != null ==> serviceCB !in instanceCBs.Values)
    requires |turns| == MAX_RETRIES + 1 && forall t :: t in turns ==> t.jitter < 50
    modifies serviceCB, instanceCBs.Values
    ensures Follow(Idempotent(httpMethod, idempotencyKey), Start, trace) == Some(Finished(exit))
    ensures var before := old(PM.Breakers(ServiceGuard(serviceCB), Guards(instanceCBs)));
            PM.Genuine(before, trace) &&
            PM.Breakers(ServiceGuard(serviceCB), Guards(instanceCBs)) == PM.After(before, trace) &&
            Told(before, askedAt, turns, trace)
    ensures AnswersAreTurns(turns, Answers(trace))
    ensures Decided(
      if httpMethod in {"GET", "HEAD", "OPTIONS", "PUT", "DELETE"}
         || (httpMethod in {"POST", "PATCH"} && idempotencyKey != "") then 3 else 1,
      turns, |Answers(trace)|, exit)
  {
    ghost var before := PM.Breakers(ServiceGuard(serviceCB), Guards(instanceCBs));
    var call := new Invocation(serviceCB, instanceCBs, Idempotent(httpMethod, idempotencyKey), askedAt, turns);
    assert call.start == before;
    var granted := call.AskService(askedAt);
    if !granted {
      exit, trace := ServiceOpen, call.trace;
      TurnsDecide(call.idempotent, turns, trace, exit);
      return;
    }
    var attempt := 0;
    while attempt <= MAX_RETRIES
      invariant attempt <= MAX_RETRIES
      invariant call.Stands() && call.Ready(attempt)
      decreases MAX_RETRIES - attempt
    {
      var stop := call.TakeTurn(attempt, turns[attempt]);
      if stop.Some? {
        exit, trace := stop.value, call.trace;
        TurnsDecide(call.idempotent, turns, trace, exit);
        return;
      }
      attempt := attempt + 1;
    }
    assert false; // the last turn always exits
    exit, trace := Exhausted, [];
  }
}
