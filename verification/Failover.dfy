/**
 Any number of calls to one Redis-backed limiter, on any keys, interleaved at the granularity of their
 atomic operations, with script runs and failures in any pattern (pkg/ratelimit/redis.go).  All keys
 share the breaker, the flag and the fallback's store; the Redis state of one key is followed, and what
 the script answers on the others is left open.  One clock in nanoseconds; Redis reads it in
 milliseconds, the bucket in seconds.
 */
module Failover {
  import opened Common
  import CB = CircuitBreakers
  import TB = TokenBuckets
  import SW = SlidingWindows
  import RL = RedisLimiters
  import RateLimitFactory

  /** The limiter's parameters, and the key that is followed. */
  datatype Setup = Setup(p: TB.Params, key: string, window: nat, limit: nat)

  /**
   The last script run made for a call.  On the followed key: what it answered, its place in the
   admission log, and when it ran; on another key only what it answered.
   */
  datatype Ticket =
    | Own(allowed: bool, index: nat, at: nat)
    | Other(allowed: bool)

  /** What a finished call rests on. */
  datatype Grant =
    | Refused
    | ByScript(index: nat, at: nat)
    | ByFallback(index: nat, at: nat)
    | Elsewhere                       // admitted on another key

  /** Where a call stands between two of its atomic operations. */
  datatype Stage =
    | Arrived                            // before the first load of the flag
    | Asking                             // flag was down, before the breaker is asked
    | Denied                             // skipping Redis, before the flag is loaded again
    | Raising                            // flag was down, before it is stored
    | Evaluating(last: Option<Ticket>) // waiting for the script's answer
    | Accepting(ticket: Ticket)          // answered, before the success is recorded
    | Rejecting                          // failed, before the failure is recorded
    | Falling                            // before the fallback decides
    | Settled(grant: Grant)

  datatype State = State(
    now: nat,
    redis: SW.Redis, members: seq<SW.Member>,
    store: TB.Store, ops: seq<TB.Op>,
    gate: RL.Gate,
    calls: map<nat, Stage>, keys: map<nat, string>)

  const INITIAL := State(0, SW.EMPTY, [], map[], [], RL.INITIAL, map[], map[])

  datatype Action =
    | Arrive(id: nat, key: string)
    | LoadFlag(id: nat)
    | AskBreaker(id: nat)
    | ReloadFlag(id: nat)
    | RaiseFlag(id: nat)
    | RunScript(id: nat, e: SW.Eval)
    | RunElsewhere(id: nat, allowed: bool)
    | Answer(id: nat)
    | Break(id: nat)                // the client sees an error, whether or not the script ran
    | RecordOk(id: nat)
    | RecordError(id: nat)
    | FallBack(id: nat, cancelled: bool)
    | LowerFlag(which: nat)         // a sleeping goroutine wakes
    | StrayRun(e: SW.Eval)          // a run no client waits for: timed out, or another replica's
    | Visit(key: string, cutoff: real)  // by the fallback's sweep

  datatype Event = Event(now: nat, action: Action)

  /** The key a call arrived with. */
  function KeyOf(s: State, id: nat): string {
    if id in s.keys then s.keys[id] else ""
  }

  predicate OnKey(m: Setup, s: State, id: nat) {
    KeyOf(s, id) == m.key
  }

  function Millis(ns: nat): nat {
    ns / 1_000_000
  }

  predicate At(s: State, id: nat, stage: Stage) {
    id in s.calls && s.calls[id] == stage
  }

  predicate ScriptReady(s: State, now: nat, e: SW.Eval) {
    e.ms == Millis(now) && SW.ExpiryAllowed(s.redis, e)
  }

  predicate Enabled(m: Setup, s: State, e: Event) {
    s.now <= e.now &&
    match e.action
    case Arrive(id, _) => id !in s.calls
    case LoadFlag(id) => At(s, id, Arrived)
    case AskBreaker(id) => At(s, id, Asking)
    case ReloadFlag(id) => At(s, id, Denied)
    case RaiseFlag(id) => At(s, id, Raising)
    case RunScript(id, eval) =>
      id in s.calls && s.calls[id].Evaluating? && OnKey(m, s, id) && ScriptReady(s, e.now, eval)
    case RunElsewhere(id, _) => id in s.calls && s.calls[id].Evaluating? && !OnKey(m, s, id)
    case Answer(id) => id in s.calls && s.calls[id].Evaluating? && s.calls[id].last.Some?
    case Break(id) => id in s.calls && s.calls[id].Evaluating?
    case RecordOk(id) => id in s.calls && s.calls[id].Accepting?
    case RecordError(id) => At(s, id, Rejecting)
    case FallBack(id, _) => At(s, id, Falling)
    case LowerFlag(i) => i < |s.gate.wakeups| && s.gate.wakeups[i] <= e.now
    case StrayRun(eval) => ScriptReady(s, e.now, eval)
    case Visit(_, cutoff) => cutoff <= RL.Seconds(e.now) - m.p.ttl
  }

  function Move(s: State, id: nat, stage: Stage): State {
    s.(calls := s.calls[id := stage])
  }

  function Evaluate(m: Setup, s: State, e: SW.Eval): State {
    s.(redis := SW.Script(s.redis, e, m.window, m.limit).0,
       members := SW.Added(s.redis, s.members, e, m.window, m.limit))
  }

  function OnStore(m: Setup, s: State, op: TB.Op): State {
    s.(store := TB.Apply(m.p, s.store, op), ops := s.ops + [op])
  }

  function ByTicket(t: Ticket): Grant {
    if !t.allowed then Refused
    else match t
      case Own(_, index, at) => ByScript(index, at)
      case Other(_) => Elsewhere
  }

  /** The fallback's answer on a key at a moment. */
  function FallbackGrant(m: Setup, s: State, key: string, now: nat): Grant {
    if !TB.TakeKey(m.p, TB.Slot(s.store, key), RL.Seconds(now)).1.allowed then Refused
    else if key == m.key then ByFallback(|TB.CallTimes(s.ops, m.key)|, now) else Elsewhere
  }

  function Step(m: Setup, s0: State, e: Event): State
    requires Enabled(m, s0, e)
  {
    var s := s0.(now := e.now);
    match e.action
    case Arrive(id, key) => Move(s.(keys := s.keys[id := key]), id, Arrived)
    case LoadFlag(id) => Move(s, id, if s.gate.fallbackMode then Denied else Asking)
    case AskBreaker(id) =>
      var (cb, granted) := CB.Ask(RL.BREAKER, s.gate.cb, e.now);
      Move(s.(gate := s.gate.(cb := cb)), id, if granted then Evaluating(None) else Denied)
    case ReloadFlag(id) => Move(s, id, if s.gate.fallbackMode then Falling else Raising)
    case RaiseFlag(id) =>
      Move(s.(gate := RL.Gate(s.gate.cb, true, s.gate.wakeups + [e.now + RL.FLAG_HOLD])), id, Falling)
    case RunScript(id, eval) =>
      var allowed := SW.Script(s.redis, eval, m.window, m.limit).1.allowed;
      Move(Evaluate(m, s, eval), id, Evaluating(Some(Own(allowed, |s.members|, e.now))))
    case RunElsewhere(id, allowed) => Move(s, id, Evaluating(Some(Other(allowed))))
    case Answer(id) => Move(s, id, Accepting(s.calls[id].last.value))
    case Break(id) => Move(s, id, Rejecting)
    case RecordOk(id) =>
      Move(s.(gate := s.gate.(cb := CB.Succeed(RL.BREAKER, s.gate.cb))), id,
           Settled(ByTicket(s.calls[id].ticket)))
    case RecordError(id) => Move(s.(gate := s.gate.(cb := CB.Fail(RL.BREAKER, s.gate.cb, e.now))), id, Falling)
    case FallBack(id, cancelled) =>
      if cancelled then Move(s, id, Settled(Refused))
      else
        var key, at := KeyOf(s, id), RL.Seconds(e.now);
        Move(OnStore(m, s, TB.Call(key, at)), id, Settled(FallbackGrant(m, s, key, e.now)))
    case LowerFlag(i) =>
      s.(gate := RL.Gate(s.gate.cb, false, s.gate.wakeups[..i] + s.gate.wakeups[i + 1..]))
    case StrayRun(eval) => Evaluate(m, s, eval)
    case Visit(key, cutoff) => OnStore(m, s, TB.Visit(key, cutoff, RL.Seconds(e.now)))
  }

  ghost predicate Reaches(m: Setup, s: State, events: seq<Event>, end: State)
    decreases |events|
  {
    if events == [] then s == end
    else Enabled(m, s, events[0]) && Reaches(m, Step(m, s, events[0]), events[1..], end)
  }

  // ----- what every step keeps -----

  /** The script's side: Redis matches a log the ideal limiter would have produced. */
  ghost predicate ScriptInv(m: Setup, s: State) {
    && SW.Holds(s.redis, s.members, Millis(s.now), m.window)
    && SW.Admissible(SW.Stamps(s.members), m.window, m.limit)
  }

  /** The bucket's side: the store is what its history of calls and sweeps makes it. */
  ghost predicate StoreInv(m: Setup, s: State) {
    && s.store == TB.End(m.p, map[], s.ops)
    && TB.OnOneClock(m.p, s.ops, 0.0)
    && (forall o :: o in s.ops ==> o.now <= RL.Seconds(s.now))
    && |TB.Answers(m.p, map[], s.ops, m.key)| == |TB.CallTimes(s.ops, m.key)|
  }

  /** The entry of the admission log a call holds, finished or not. */
  function ScriptEntry(stage: Stage): Option<(nat, nat)> {
    match stage
    case Evaluating(Some(t)) => if t.Own? && t.allowed then Some((t.index, t.at)) else None
    case Accepting(t) => if t.Own? && t.allowed then Some((t.index, t.at)) else None
    case Settled(ByScript(i, at)) => Some((i, at))
    case _ => None
  }

  function FallbackEntry(stage: Stage): Option<(nat, nat)> {
    match stage
    case Settled(ByFallback(i, at)) => Some((i, at))
    case _ => None
  }

  /** Every script admission a call holds is its own entry of the log. */
  ghost predicate ScriptBacked(members: seq<SW.Member>, calls: map<nat, Stage>) {
    && (forall id :: id in calls && ScriptEntry(calls[id]).Some? ==>
        var (i, at) := ScriptEntry(calls[id]).value; i < |members| && members[i].ms == Millis(at))
    && (forall id, id' ::
        (id in calls && id' in calls && ScriptEntry(calls[id]).Some? && ScriptEntry(calls[id']).Some?
         && ScriptEntry(calls[id]).value.0 == ScriptEntry(calls[id']).value.0) ==> id == id')
  }

  /** Every fallback admission is its own granted answer of the bucket. */
  ghost predicate FallbackBacked(times: seq<real>, answers: seq<TB.Decision>, calls: map<nat, Stage>)
    requires |times| == |answers|
  {
    && (forall id :: id in calls && FallbackEntry(calls[id]).Some? ==>
        var (i, at) := FallbackEntry(calls[id]).value;
        i < |times| && times[i] == RL.Seconds(at) && answers[i].allowed)
    && (forall id, id' ::
        (id in calls && id' in calls && FallbackEntry(calls[id]).Some? && FallbackEntry(calls[id']).Some?
         && FallbackEntry(calls[id]).value.0 == FallbackEntry(calls[id']).value.0) ==> id == id')
  }

  function Times(m: Setup, s: State): seq<real> {
    TB.CallTimes(s.ops, m.key)
  }

  function Decisions(m: Setup, s: State): seq<TB.Decision> {
    TB.Answers(m.p, map[], s.ops, m.key)
  }

  /** What a call holds from another key. */
  predicate FromElsewhere(stage: Stage) {
    match stage
    case Evaluating(Some(t)) => t.Other?
    case Accepting(t) => t.Other?
    case Settled(grant) => grant.Elsewhere?
    case _ => false
  }

  /** Calls on the followed key hold nothing from another one. */
  predicate KeysKept(m: Setup, s: State) {
    && (forall id :: id in s.keys ==> id in s.calls)
    && (forall id :: id in s.calls && OnKey(m, s, id) ==> !FromElsewhere(s.calls[id]))
  }

  ghost predicate Inv(m: Setup, s: State) {
    ScriptInv(m, s) && StoreInv(m, s) && KeysKept(m, s) && ScriptBacked(s.members, s.calls)
      && FallbackBacked(Times(m, s), Decisions(m, s), s.calls)
  }

  lemma StepKeepsKeys(m: Setup, s: State, e: Event)
    requires KeysKept(m, s) && Enabled(m, s, e)
    ensures KeysKept(m, Step(m, s, e))
  {
  }

  lemma EvaluateKeepsScriptInv(m: Setup, s: State, now: nat, e: SW.Eval)
    requires ScriptInv(m, s) && s.now <= now && ScriptReady(s, now, e)
    ensures ScriptInv(m, Evaluate(m, s.(now := now), e))
  {
    SW.ScriptKeepsHolds(s.redis, s.members, Millis(s.now), m.window, m.limit, e);
    SW.ScriptKeepsAdmissible(s.redis, s.members, Millis(s.now), m.window, m.limit, e);
  }

  lemma StepKeepsScriptInv(m: Setup, s: State, e: Event)
    requires ScriptInv(m, s) && Enabled(m, s, e)
    ensures ScriptInv(m, Step(m, s, e))
  {
    if e.action.RunScript? {
      EvaluateKeepsScriptInv(m, s, e.now, e.action.e);
    } else if e.action.StrayRun? {
      EvaluateKeepsScriptInv(m, s, e.now, e.action.e);
    } else {
      SW.HoldsLater(s.redis, s.members, Millis(s.now), Millis(e.now), m.window);
    }
  }

  lemma OnStoreKeepsStoreInv(m: Setup, s: State, now: nat, op: TB.Op)
    requires StoreInv(m, s) && s.now <= now && op.now == RL.Seconds(now)
    requires op.Visit? ==> op.cutoff <= op.now - m.p.ttl
    ensures StoreInv(m, OnStore(m, s.(now := now), op))
  {
    TB.RunAppend(m.p, map[], s.ops, op, m.key);
    TB.ClockAppend(m.p, s.ops, op, 0.0);
  }

  lemma LaterKeepsStoreInv(m: Setup, s: State, s': State)
    requires StoreInv(m, s) && s.now <= s'.now && s'.store == s.store && s'.ops == s.ops
    ensures StoreInv(m, s')
  {
    assert RL.Seconds(s.now) <= RL.Seconds(s'.now);
  }

  lemma StepKeepsStoreInv(m: Setup, s: State, e: Event)
    requires StoreInv(m, s) && Enabled(m, s, e)
    ensures StoreInv(m, Step(m, s, e))
  {
    if e.action.FallBack? && !e.action.cancelled {
      OnStoreKeepsStoreInv(m, s, e.now, TB.Call(KeyOf(s, e.action.id), RL.Seconds(e.now)));
    } else if e.action.Visit? {
      OnStoreKeepsStoreInv(m, s, e.now, TB.Visit(e.action.key, e.action.cutoff, RL.Seconds(e.now)));
    } else {
      LaterKeepsStoreInv(m, s, Step(m, s, e));
    }
  }

  lemma MoveKeepsScriptBacked(members: seq<SW.Member>, calls: map<nat, Stage>, id: nat, stage: Stage)
    requires ScriptBacked(members, calls)
    requires ScriptEntry(stage).Some? ==> id in calls && ScriptEntry(calls[id]) == ScriptEntry(stage)
    ensures ScriptBacked(members, calls[id := stage])
  {
  }

  lemma TicketKeepsScriptBacked(
      members: seq<SW.Member>, calls: map<nat, Stage>, id: nat, members': seq<SW.Member>, ticket: Ticket)
    requires ScriptBacked(members, calls) && members <= members' && ticket.Own? && ticket.index == |members|
    requires ticket.allowed ==> |members'| == |members| + 1 && members'[|members|].ms == Millis(ticket.at)
    ensures ScriptBacked(members', calls[id := Evaluating(Some(ticket))])
  {
  }

  /** The call a step moves. */
  function Mover(action: Action): Option<nat> {
    match action
    case LowerFlag(_) => None
    case StrayRun(_) => None
    case Visit(_, _) => None
    case _ => Some(action.id)
  }

  /** Steps other than a script run hand out no entry of the log. */
  lemma NoNewScriptEntry(m: Setup, s: State, e: Event, id: nat)
    requires Enabled(m, s, e) && Mover(e.action) == Some(id) && !e.action.RunScript?
    ensures var s' := Step(m, s, e);
            && s'.members == s.members && id in s'.calls && s'.calls == s.calls[id := s'.calls[id]]
            && (ScriptEntry(s'.calls[id]).Some? ==>
                id in s.calls && ScriptEntry(s.calls[id]) == ScriptEntry(s'.calls[id]))
  {
  }

  lemma StepKeepsScriptBacked(m: Setup, s: State, e: Event)
    requires ScriptBacked(s.members, s.calls) && Enabled(m, s, e)
    ensures ScriptBacked(Step(m, s, e).members, Step(m, s, e).calls)
  {
    if e.action.RunScript? {
      var id, eval := e.action.id, e.action.e;
      var allowed := SW.Script(s.redis, eval, m.window, m.limit).1.allowed;
      TicketKeepsScriptBacked(s.members, s.calls, id, Evaluate(m, s, eval).members, Own(allowed, |s.members|, e.now));
    } else if Mover(e.action).Some? {
      var id := Mover(e.action).value;
      NoNewScriptEntry(m, s, e, id);
      MoveKeepsScriptBacked(s.members, s.calls, id, Step(m, s, e).calls[id]);
    }
  }

  lemma MoveKeepsFallbackBacked(
      times: seq<real>, answers: seq<TB.Decision>, calls: map<nat, Stage>, id: nat, stage: Stage)
    requires |times| == |answers| && FallbackBacked(times, answers, calls)
    requires FallbackEntry(stage).None?
    ensures FallbackBacked(times, answers, calls[id := stage])
  {
  }

  lemma AnswerKeepsFallbackBacked(
      times: seq<real>, answers: seq<TB.Decision>, calls: map<nat, Stage>, id: nat, at: nat, d: TB.Decision)
    requires |times| == |answers| && FallbackBacked(times, answers, calls)
    ensures FallbackBacked(times + [RL.Seconds(at)], answers + [d],
                           calls[id := Settled(if d.allowed then ByFallback(|times|, at) else Refused)])
  {
  }

  /** A call on the followed key adds its own answer, one on another key none. */
  lemma FallBackKeepsFallbackBacked(m: Setup, s: State, now: nat, id: nat)
    requires StoreInv(m, s) && FallbackBacked(Times(m, s), Decisions(m, s), s.calls)
    ensures var key := KeyOf(s, id);
            var s' := Move(OnStore(m, s, TB.Call(key, RL.Seconds(now))), id, Settled(FallbackGrant(m, s, key, now)));
            |Times(m, s')| == |Decisions(m, s')| && FallbackBacked(Times(m, s'), Decisions(m, s'), s'.calls)
  {
    var key, at := KeyOf(s, id), RL.Seconds(now);
    var grant := FallbackGrant(m, s, key, now);
    TB.RunAppend(m.p, map[], s.ops, TB.Call(key, at), m.key);
    if key == m.key {
      AnswerKeepsFallbackBacked(Times(m, s), Decisions(m, s), s.calls, id, now,
                                TB.TakeKey(m.p, TB.Slot(s.store, m.key), at).1);
    } else {
      MoveKeepsFallbackBacked(Times(m, s), Decisions(m, s), s.calls, id, Settled(grant));
    }
  }

  /** Steps other than the fallback's own hand out none of its answers. */
  lemma NoNewFallbackEntry(m: Setup, s: State, e: Event, id: nat)
    requires Enabled(m, s, e) && Mover(e.action) == Some(id) && !(e.action.FallBack? && !e.action.cancelled)
    ensures var s' := Step(m, s, e);
            && s'.ops == s.ops && id in s'.calls && s'.calls == s.calls[id := s'.calls[id]]
            && FallbackEntry(s'.calls[id]).None?
  {
  }

  lemma StepKeepsFallbackBacked(m: Setup, s: State, e: Event)
    requires StoreInv(m, s) && FallbackBacked(Times(m, s), Decisions(m, s), s.calls) && Enabled(m, s, e)
    requires StoreInv(m, Step(m, s, e))
    ensures FallbackBacked(Times(m, Step(m, s, e)), Decisions(m, Step(m, s, e)), Step(m, s, e).calls)
  {
    if e.action.FallBack? && !e.action.cancelled {
      FallBackKeepsFallbackBacked(m, s, e.now, e.action.id);
    } else if e.action.Visit? {
      TB.RunAppend(m.p, map[], s.ops, TB.Visit(e.action.key, e.action.cutoff, RL.Seconds(e.now)), m.key);
    } else if Mover(e.action).Some? {
      var id := Mover(e.action).value;
      NoNewFallbackEntry(m, s, e, id);
      MoveKeepsFallbackBacked(Times(m, s), Decisions(m, s), s.calls, id, Step(m, s, e).calls[id]);
    }
  }

  lemma {:induction false} RunKeepsInv(m: Setup, s: State, events: seq<Event>, end: State)
    requires Inv(m, s) && Reaches(m, s, events, end)
    ensures Inv(m, end)
    decreases |events|
  {
    if events != [] {
      var e := events[0];
      StepKeepsKeys(m, s, e);
      StepKeepsScriptInv(m, s, e);
      StepKeepsScriptBacked(m, s, e);
      StepKeepsStoreInv(m, s, e);
      StepKeepsFallbackBacked(m, s, e);
      RunKeepsInv(m, Step(m, s, e), events[1..], end);
    }
  }

  // ----- the bound -----

  /** The window of `len` nanoseconds that starts at `start`. */
  predicate InWindow(at: nat, start: nat, len: nat) {
    start <= at < start + len
  }

  /** The milliseconds a window touches lie within `k` of the script's own windows. */
  predicate Covered(m: Setup, start: nat, len: nat, k: nat) {
    len == 0 || Millis(start + len - 1) < Millis(start) + k * m.window
  }

  /**
   One script window covers any window a millisecond shorter, and one of its own length that starts on
   a whole millisecond; two cover one of its length that starts anywhere.
   */
  lemma WindowsCovered(m: Setup, start: nat, len: nat)
    requires 1 <= m.window
    ensures len <= (m.window - 1) * 1_000_000 + 1 ==> Covered(m, start, len, 1)
    ensures start % 1_000_000 == 0 && len <= m.window * 1_000_000 ==> Covered(m, start, len, 1)
    ensures len <= m.window * 1_000_000 ==> Covered(m, start, len, 2)
  {
    assert 1 * m.window == m.window && 2 * m.window >= m.window + 1;
  }

  ghost function ByScriptIn(s: State, start: nat, len: nat): set<nat> {
    set id | id in s.calls && s.calls[id].Settled? && s.calls[id].grant.ByScript?
               && InWindow(s.calls[id].grant.at, start, len)
  }

  ghost function ByFallbackIn(s: State, start: nat, len: nat): set<nat> {
    set id | id in s.calls && s.calls[id].Settled? && s.calls[id].grant.ByFallback?
               && InWindow(s.calls[id].grant.at, start, len)
  }

  /** When a call was admitted on the followed key. */
  function AdmittedAt(grant: Grant): Option<nat> {
    match grant
    case ByScript(_, at) => Some(at)
    case ByFallback(_, at) => Some(at)
    case _ => None
  }

  /** The key's calls admitted in the window, each at the moment its decision was made. */
  ghost function AdmittedIn(m: Setup, s: State, start: nat, len: nat): set<nat> {
    set id | id in s.calls && OnKey(m, s, id) && s.calls[id].Settled? && AdmittedAt(s.calls[id].grant).Some?
               && InWindow(AdmittedAt(s.calls[id].grant).value, start, len)
  }

  lemma OwnGrant(m: Setup, s: State, id: nat)
    requires KeysKept(m, s) && id in s.calls && OnKey(m, s, id) && s.calls[id].Settled?
    ensures AdmittedAt(s.calls[id].grant).Some? <==> s.calls[id].grant != Refused
  {
    assert !FromElsewhere(s.calls[id]);
  }

  /** In a reachable state these are all of the key's calls that were not refused. */
  lemma AdmittedIsNotRefused(m: Setup, events: seq<Event>, end: State, id: nat)
    requires Reaches(m, INITIAL, events, end) && id in end.calls && OnKey(m, end, id) && end.calls[id].Settled?
    ensures AdmittedAt(end.calls[id].grant).Some? <==> end.calls[id].grant != Refused
  {
    RunKeepsInv(m, INITIAL, events, end);
    OwnGrant(m, end, id);
  }

  /** The log's entries in the script windows from the one the window starts in. */
  ghost function Entries(m: Setup, s: State, start: nat, k: nat): set<nat> {
    SW.LoggedIn(SW.Stamps(s.members), Millis(start) - 1, Millis(start) - 1 + k * m.window)
  }

  lemma WindowEntries(m: Setup, s: State, start: nat, k: nat)
    requires ScriptInv(m, s)
    ensures |Entries(m, s, start, k)| <= k * m.limit
  {
    var lo := Millis(start) - 1;
    SW.CountIsPositions(SW.Stamps(s.members), lo, lo + k * m.window);
    SW.WindowsHoldLimits(SW.Stamps(s.members), m.window, m.limit, lo, k);
  }

  lemma MillisMonotone(a: nat, b: nat)
    requires a <= b
    ensures Millis(a) <= Millis(b)
  {
  }

  /** Script-admitted calls map one to one into the log's entries. */
  lemma ScriptShare(m: Setup, s: State, start: nat, len: nat, k: nat)
    requires ScriptBacked(s.members, s.calls) && Covered(m, start, len, k)
    ensures |ByScriptIn(s, start, len)| <= |Entries(m, s, start, k)|
  {
    var f := map id | id in ByScriptIn(s, start, len) :: s.calls[id].grant.index;
    forall id | id in f
      ensures f[id] in Entries(m, s, start, k)
      ensures ScriptEntry(s.calls[id]).Some? && ScriptEntry(s.calls[id]).value.0 == f[id]
    {
      var (i, at) := ScriptEntry(s.calls[id]).value;
      assert SW.Stamps(s.members)[i] == Millis(at);
      MillisMonotone(start, at);
      MillisMonotone(at, start + len - 1);
    }
    InjectionBoundsCardinality(ByScriptIn(s, start, len), Entries(m, s, start, k), f);
  }

  /** The bucket's admissions to the key over a window. */
  ghost function Drawings(m: Setup, s: State, start: nat, len: nat): set<nat>
    requires |Times(m, s)| == |Decisions(m, s)|
  {
    TB.AdmittedAt(Times(m, s), Decisions(m, s), RL.Seconds(start), RL.Seconds(start + len))
  }

  lemma FallbackEntryIn(m: Setup, s: State, start: nat, len: nat, id: nat)
    requires Inv(m, s) && id in ByFallbackIn(s, start, len)
    ensures s.calls[id].grant.index in Drawings(m, s, start, len)
  {
    assert FallbackEntry(s.calls[id]).Some?;
  }

  /** Fallback-admitted calls map one to one into the bucket's admissions over the window. */
  lemma FallbackEntries(m: Setup, s: State, start: nat, len: nat)
    requires Inv(m, s)
    ensures |ByFallbackIn(s, start, len)| <= |Drawings(m, s, start, len)|
  {
    var f := map id | id in ByFallbackIn(s, start, len) :: s.calls[id].grant.index;
    forall id | id in f ensures f[id] in Drawings(m, s, start, len) {
      FallbackEntryIn(m, s, start, len, id);
    }
    forall id, id' | id in f && id' in f && f[id] == f[id'] ensures id == id' {
      OwnAnswers(m, s, id, id');
    }
    InjectionBoundsCardinality(ByFallbackIn(s, start, len), Drawings(m, s, start, len), f);
  }

  lemma OwnAnswers(m: Setup, s: State, id: nat, id': nat)
    requires Inv(m, s) && id in s.calls && id' in s.calls
    requires FallbackEntry(s.calls[id]).Some? && FallbackEntry(s.calls[id']).Some?
    ensures FallbackEntry(s.calls[id]).value.0 == FallbackEntry(s.calls[id']).value.0 ==> id == id'
  {
  }

  lemma FallbackShare(m: Setup, s: State, start: nat, len: nat)
    requires Inv(m, s) && m.p.ttl > 0.0
    ensures |ByFallbackIn(s, start, len)| as real <= MaxReal(0.0, m.p.burst) + TB.Drawn(m.p, RL.Seconds(len))
  {
    var times, answers := Times(m, s), Decisions(m, s);
    var lo, hi := RL.Seconds(start), RL.Seconds(start + len);
    FallbackEntries(m, s, start, len);
    TB.AdmitsArePositions(times, answers, lo, hi);
    TB.StoreWindowBound(m.p, s.ops, m.key, 0.0, lo, hi);
    assert hi - lo == RL.Seconds(len);
  }

  lemma SharesCoverAdmitted(m: Setup, s: State, start: nat, len: nat)
    ensures |AdmittedIn(m, s, start, len)| <= |ByScriptIn(s, start, len)| + |ByFallbackIn(s, start, len)|
  {
    SubsetCount(AdmittedIn(m, s, start, len), ByScriptIn(s, start, len) + ByFallbackIn(s, start, len));
  }

  /**
   For every interleaving of calls on all keys, every pattern of failures (scripts that ran but timed out, runs
   by other replicas, flag and breaker switches, sweeps), the calls admitted in any window, wherever it
   starts, are at most the limit for each script window that covers it, plus a full bucket, plus
   what the bucket can draw over the window.
   */
  lemma FailoverBound(m: Setup, events: seq<Event>, end: State, start: nat, len: nat, k: nat)
    requires m.p.ttl > 0.0 && Reaches(m, INITIAL, events, end) && Covered(m, start, len, k)
    ensures |AdmittedIn(m, end, start, len)| as real
              <= (k * m.limit) as real + MaxReal(0.0, m.p.burst) + TB.Drawn(m.p, RL.Seconds(len))
  {
    RunKeepsInv(m, INITIAL, events, end);
    WindowEntries(m, end, start, k);
    ScriptShare(m, end, start, len, k);
    FallbackShare(m, end, start, len);
    SharesCoverAdmitted(m, end, start, len);
  }

  /** The limiter as the factory builds it. */
  function SetupOf(built: RateLimitFactory.Built, key: string): Setup
    requires built.Redis? && 0 <= built.windowMs && 0 <= built.limit
  {
    Setup(built.fallback, key, built.windowMs, built.limit)
  }

  /** The limit is at most what the refill yields over the window, and eviction yields no more than the refill. */
  ghost predicate Matched(m: Setup) {
    && 0.0 < m.p.rate && 0.0 < m.p.ttl && 0.0 < m.p.burst <= TB.Refill(m.p, m.p.ttl)
    && m.limit as real <= TB.Refill(m.p, m.window as real / 1000.0)
  }

  lemma BuiltWithinRate(cfg: RateLimitFactory.LimiterConfig, key: string)
    requires cfg.backend == "redis" && RateLimitFactory.NewFromConfig(cfg).Ok?
    requires var p := RateLimitFactory.NewFromConfig(cfg).value.fallback; p.burst <= p.rate * p.ttl
    ensures var built := RateLimitFactory.NewFromConfig(cfg).value;
            built.Redis? && built.windowMs >= 0 && built.limit >= 0 && Matched(SetupOf(built, key))
  {
    RateLimitFactory.LimitMatchesRate(cfg);
  }

  lemma DrawWithinWindow(m: Setup, start: nat, len: nat)
    requires Matched(m) && Covered(m, start, len, 1)
    ensures TB.Drawn(m.p, RL.Seconds(len)) <= TB.Refill(m.p, m.window as real / 1000.0)
  {
    TB.DrawIsRefill(m.p, RL.Seconds(len));
    CoveredIsShort(m, start, len);
    TB.RefillMonotone(m.p, RL.Seconds(len), m.window as real / 1000.0);
  }

  lemma MatchedFailoverBound(m: Setup, events: seq<Event>, end: State, start: nat, len: nat)
    requires Matched(m) && Reaches(m, INITIAL, events, end) && Covered(m, start, len, 1)
    ensures |AdmittedIn(m, end, start, len)| as real
              <= m.p.burst + 2.0 * TB.Refill(m.p, m.window as real / 1000.0)
  {
    FailoverBound(m, events, end, start, len, 1);
    DrawWithinWindow(m, start, len);
  }

  /**
   As the factory builds it, when the capacity refills within the eviction time: at most the
   capacity plus twice the configured rate over the window, for windows one script window covers.
   */
  lemma FactoryFailoverBound(
      cfg: RateLimitFactory.LimiterConfig, key: string, events: seq<Event>, end: State, start: nat, len: nat)
    requires cfg.backend == "redis" && RateLimitFactory.NewFromConfig(cfg).Ok?
    requires var p := RateLimitFactory.NewFromConfig(cfg).value.fallback; p.burst <= p.rate * p.ttl
    requires var built := RateLimitFactory.NewFromConfig(cfg).value;
             built.windowMs >= 0 && built.limit >= 0 && Reaches(SetupOf(built, key), INITIAL, events, end)
             && Covered(SetupOf(built, key), start, len, 1)
    ensures var built := RateLimitFactory.NewFromConfig(cfg).value;
            |AdmittedIn(SetupOf(built, key), end, start, len)| as real
              <= built.fallback.burst + 2.0 * (built.fallback.rate * (built.windowMs as real / 1000.0))
  {
    BuiltWithinRate(cfg, key);
    MatchedFailoverBound(SetupOf(RateLimitFactory.NewFromConfig(cfg).value, key), events, end, start, len);
  }

  lemma CoveredIsShort(m: Setup, start: nat, len: nat)
    requires Covered(m, start, len, 1)
    ensures RL.Seconds(len) <= m.window as real / 1000.0
  {
    assert 1 * m.window == m.window;
    assert len <= m.window * 1_000_000;
  }

  // ----- a call nobody interrupts -----

  lemma Prepend(m: Setup, s: State, e: Event, rest: seq<Event>, end: State)
    requires Enabled(m, s, e) && Reaches(m, Step(m, s, e), rest, end)
    ensures Reaches(m, s, [e] + rest, end)
  {
    assert ([e] + rest)[1..] == rest;
  }

  lemma ThreeSteps(m: Setup, s: State, a: Event, b: Event, c: Event) returns (events: seq<Event>, end: State)
    requires Enabled(m, s, a) && Enabled(m, Step(m, s, a), b) && Enabled(m, Step(m, Step(m, s, a), b), c)
    ensures end == Step(m, Step(m, Step(m, s, a), b), c) && Reaches(m, s, events, end)
  {
    var s1 := Step(m, s, a);
    var s2 := Step(m, s1, b);
    end := Step(m, s2, c);
    events := [];
    Prepend(m, s2, c, events, end);
    events := [c] + events;
    Prepend(m, s1, b, events, end);
    events := [b] + events;
    Prepend(m, s, a, events, end);
    events := [a] + events;
  }

  /** The flag is up: straight to the fallback. */
  lemma FlagUp(m: Setup, s: State, id: nat, now: nat) returns (events: seq<Event>, end: State)
    requires s.now <= now && id !in s.calls && s.gate.fallbackMode
    ensures Reaches(m, s, events, end) && end.gate == s.gate
    ensures end.calls == s.calls[id := Settled(FallbackGrant(m, s, m.key, now))]
  {
    var arrived := Step(m, s, Event(now, Arrive(id, m.key)));
    events, end := ThreeSteps(m, arrived,
      Event(now, LoadFlag(id)), Event(now, ReloadFlag(id)), Event(now, FallBack(id, false)));
    Prepend(m, s, Event(now, Arrive(id, m.key)), events, end);
    events := [Event(now, Arrive(id, m.key))] + events;
  }

  /** The call up to the breaker's answer. */
  function Asked(m: Setup, s: State, id: nat, now: nat): State
    requires s.now <= now && id !in s.calls && !s.gate.fallbackMode
  {
    Step(m, Step(m, Step(m, s, Event(now, Arrive(id, m.key))), Event(now, LoadFlag(id))), Event(now, AskBreaker(id)))
  }

  lemma ThroughBreaker(m: Setup, s: State, id: nat, now: nat, rest: seq<Event>, end: State) returns (events: seq<Event>)
    requires s.now <= now && id !in s.calls && !s.gate.fallbackMode && Reaches(m, Asked(m, s, id, now), rest, end)
    ensures Reaches(m, s, events, end)
  {
    var s1 := Step(m, s, Event(now, Arrive(id, m.key)));
    var s2 := Step(m, s1, Event(now, LoadFlag(id)));
    events := rest;
    Prepend(m, s2, Event(now, AskBreaker(id)), events, end);
    events := [Event(now, AskBreaker(id))] + events;
    Prepend(m, s1, Event(now, LoadFlag(id)), events, end);
    events := [Event(now, LoadFlag(id))] + events;
    Prepend(m, s, Event(now, Arrive(id, m.key)), events, end);
    events := [Event(now, Arrive(id, m.key))] + events;
  }

  predicate Granted(s: State, now: nat) {
    !s.gate.fallbackMode && CB.Ask(RL.BREAKER, s.gate.cb, now).1
  }

  lemma GrantedState(m: Setup, s: State, id: nat, now: nat)
    requires s.now <= now && id !in s.calls && Granted(s, now)
    ensures Asked(m, s, id, now) ==
      s.(now := now, gate := s.gate.(cb := CB.Ask(RL.BREAKER, s.gate.cb, now).0),
         calls := s.calls[id := Evaluating(None)], keys := s.keys[id := m.key])
  {
    assert s.calls[id := Arrived][id := Asking][id := Evaluating(None)] == s.calls[id := Evaluating(None)];
  }

  /** Both moves of the call seen from where it started. */
  lemma Overwritten(calls: map<nat, Stage>, id: nat, first: Stage, last: Stage)
    ensures calls[id := first][id := last] == calls[id := last]
  {
  }

  lemma RefusedState(m: Setup, s: State, id: nat, now: nat)
    requires s.now <= now && id !in s.calls && !s.gate.fallbackMode && !Granted(s, now)
    ensures Asked(m, s, id, now) ==
      s.(now := now, gate := s.gate.(cb := CB.Ask(RL.BREAKER, s.gate.cb, now).0),
         calls := s.calls[id := Denied], keys := s.keys[id := m.key])
  {
    assert s.calls[id := Arrived][id := Asking][id := Denied] == s.calls[id := Denied];
  }

  lemma RefusalSteps(m: Setup, g: State, id: nat) returns (events: seq<Event>, end: State)
    requires id in g.calls && g.calls[id] == Denied && OnKey(m, g, id) && !g.gate.fallbackMode
    ensures Reaches(m, g, events, end)
    ensures end.gate == RL.Gate(g.gate.cb, true, g.gate.wakeups + [g.now + RL.FLAG_HOLD])
    ensures end.calls == g.calls[id := Settled(FallbackGrant(m, g, m.key, g.now))]
  {
    events, end := ThreeSteps(m, g,
      Event(g.now, ReloadFlag(id)), Event(g.now, RaiseFlag(id)), Event(g.now, FallBack(id, false)));
  }

  /** The breaker refuses: the flag goes up and the fallback answers. */
  lemma BreakerRefuses(m: Setup, s: State, id: nat, now: nat) returns (events: seq<Event>, end: State)
    requires s.now <= now && id !in s.calls && !s.gate.fallbackMode && !Granted(s, now)
    ensures Reaches(m, s, events, end) && end.gate == RL.Consult(s.gate, now).0
    ensures end.calls == s.calls[id := Settled(FallbackGrant(m, s, m.key, now))]
  {
    RefusedState(m, s, id, now);
    var g, rest := Asked(m, s, id, now), [];
    rest, end := RefusalSteps(m, g, id);
    Overwritten(s.calls, id, Denied, Settled(FallbackGrant(m, s, m.key, now)));
    events := ThroughBreaker(m, s, id, now, rest, end);
  }

  lemma GrantedDecides(s: State, now: nat, later: nat, outcome: RL.Outcome)
    requires Granted(s, now)
    ensures var cb := CB.Ask(RL.BREAKER, s.gate.cb, now).0;
            RL.Decide(s.gate, now, outcome, later).0 == s.gate.(cb :=
              if outcome.Failed? then CB.Fail(RL.BREAKER, cb, later) else CB.Succeed(RL.BREAKER, cb))
  {
  }

  lemma FailureSteps(m: Setup, g: State, id: nat, later: nat) returns (events: seq<Event>, end: State)
    requires g.now <= later && id in g.calls && g.calls[id] == Evaluating(None) && OnKey(m, g, id)
    ensures Reaches(m, g, events, end) && end.gate == g.gate.(cb := CB.Fail(RL.BREAKER, g.gate.cb, later))
    ensures end.calls == g.calls[id := Settled(FallbackGrant(m, g, m.key, later))]
  {
    events, end := ThreeSteps(m, g,
      Event(later, Break(id)), Event(later, RecordError(id)), Event(later, FallBack(id, false)));
  }

  /** The evaluation fails: the breaker hears of it and the fallback answers. */
  lemma EvaluationFails(m: Setup, s: State, id: nat, now: nat, later: nat) returns (events: seq<Event>, end: State)
    requires s.now <= now <= later && id !in s.calls && Granted(s, now)
    ensures Reaches(m, s, events, end) && end.gate == RL.Decide(s.gate, now, RL.Failed, later).0
    ensures end.calls == s.calls[id := Settled(FallbackGrant(m, s, m.key, later))]
  {
    GrantedState(m, s, id, now);
    var g, rest := Asked(m, s, id, now), [];
    rest, end := FailureSteps(m, g, id, later);
    GrantedDecides(s, now, later, RL.Failed);
    Overwritten(s.calls, id, Evaluating(None), Settled(FallbackGrant(m, s, m.key, later)));
    events := ThroughBreaker(m, s, id, now, rest, end);
  }

  function ScriptGrant(m: Setup, s: State, now: nat, eval: SW.Eval): Grant {
    if SW.Script(s.redis, eval, m.window, m.limit).1.allowed then ByScript(|s.members|, now) else Refused
  }

  lemma ScriptSteps(m: Setup, g: State, id: nat, later: nat, eval: SW.Eval) returns (events: seq<Event>, end: State)
    requires g.now <= later && id in g.calls && g.calls[id] == Evaluating(None) && OnKey(m, g, id)
    requires ScriptReady(g, g.now, eval)
    ensures Reaches(m, g, events, end) && end.gate == g.gate.(cb := CB.Succeed(RL.BREAKER, g.gate.cb))
    ensures end.calls == g.calls[id := Settled(ScriptGrant(m, g, g.now, eval))]
  {
    events, end := ThreeSteps(m, g,
      Event(g.now, RunScript(id, eval)), Event(later, Answer(id)), Event(later, RecordOk(id)));
  }

  /** The script answers: the breaker hears of it and its answer stands. */
  lemma ScriptAnswers(m: Setup, s: State, id: nat, now: nat, later: nat, eval: SW.Eval)
    returns (events: seq<Event>, end: State)
    requires s.now <= now <= later && id !in s.calls && Granted(s, now) && ScriptReady(s, now, eval)
    ensures Reaches(m, s, events, end) && end.gate == RL.Decide(s.gate, now, RL.Replied([]), later).0
    ensures end.calls == s.calls[id := Settled(ScriptGrant(m, s, now, eval))]
  {
    GrantedState(m, s, id, now);
    var g, rest := Asked(m, s, id, now), [];
    rest, end := ScriptSteps(m, g, id, later, eval);
    GrantedDecides(s, now, later, RL.Replied([]));
    Overwritten(s.calls, id, Evaluating(None), Settled(ScriptGrant(m, s, now, eval)));
    events := ThroughBreaker(m, s, id, now, rest, end);
  }

  /** What the script answered, as the client sees it. */
  function ScriptOutcome(m: Setup, s: State, eval: SW.Eval): RL.Outcome {
    var reply := SW.Script(s.redis, eval, m.window, m.limit).1;
    RL.Replied([if reply.allowed then 1 else 0, reply.remaining])
  }

  /** How a call ends by its path: with the fallback's answer when it was skipped or failed, else with the script's. */
  function GrantBy(m: Setup, s: State, path: RL.Path, now: nat, later: nat, eval: SW.Eval): Grant {
    match path
    case Skipped => FallbackGrant(m, s, m.key, now)
    case EvalFailed => FallbackGrant(m, s, m.key, later)
    case EvalOk => ScriptGrant(m, s, now, eval)
  }

  /**
   A call nobody interrupts is the sequential decision: the breaker, the flag and the way taken are
   those of `RedisLimiters.Decide`, and the answer is the bucket's or the script's accordingly.
   */
  lemma UninterruptedCallDecides(m: Setup, s: State, id: nat, now: nat, later: nat, eval: SW.Eval, failed: bool)
    returns (events: seq<Event>, end: State)
    requires s.now <= now <= later && id !in s.calls && ScriptReady(s, now, eval)
    ensures var outcome := if failed then RL.Failed else ScriptOutcome(m, s, eval);
            var (gate, path) := RL.Decide(s.gate, now, outcome, later);
            && Reaches(m, s, events, end) && end.gate == gate
            && end.calls == s.calls[id := Settled(GrantBy(m, s, path, now, later, eval))]
  {
    if s.gate.fallbackMode {
      events, end := FlagUp(m, s, id, now);
    } else if !Granted(s, now) {
      events, end := BreakerRefuses(m, s, id, now);
    } else if failed {
      events, end := EvaluationFails(m, s, id, now, later);
    } else {
      events, end := ScriptAnswers(m, s, id, now, later, eval);
    }
  }
}
