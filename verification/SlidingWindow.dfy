/**
 The Redis sliding-window script (the Lua string in pkg/ratelimit/redis.go) for one rate-limit key.
 Times are the server's clock in milliseconds.
 */
module SlidingWindows {

  /** A sorted-set member "nowMs:seq". */
  datatype Member = Member(ms: nat, seq_: nat)

  /** What the script keeps in Redis: the sorted set, the sequence counter (0 when absent), and both expiry times. */
  datatype Redis = Redis(zset: map<Member, nat>, zsetDeadline: nat, counter: nat, counterDeadline: nat)

  const EMPTY := Redis(map[], 0, 0, 0)

  /** TTL the script adds to the window so that keys expire on their own. */
  const TTL_BUFFER: nat := 1000

  /**
   One evaluation, with the server's freedom to have expired either key: a key is certainly gone
   after its deadline, certainly there before it, and either at the deadline itself.
   */
  datatype Eval = Eval(ms: nat, zsetGone: bool, counterGone: bool)

  predicate ExpiryAllowed(r: Redis, e: Eval) {
    && (e.zsetGone ==> r.zsetDeadline <= e.ms)
    && (r.zsetDeadline < e.ms ==> e.zsetGone)
    && (e.counterGone ==> r.counterDeadline <= e.ms)
    && (r.counterDeadline < e.ms ==> e.counterGone)
  }

  datatype Reply = Reply(allowed: bool, remaining: int)

  /** The sorted set once the script has dropped the scores from 0 to `ms - window`. */
  function Trimmed(r: Redis, e: Eval, window: nat): map<Member, nat> {
    if e.zsetGone then map[]
    else map m | m in r.zset && r.zset[m] > e.ms - window :: r.zset[m]
  }

  /** ZREMRANGEBYSCORE key 0 top. */
  function DropUpTo(zset: map<Member, nat>, top: int): map<Member, nat> {
    map m | m in zset && !(0 <= zset[m] <= top) :: zset[m]
  }

  lemma TrimIsDrop(r: Redis, e: Eval, window: nat)
    ensures DropUpTo(if e.zsetGone then map[] else r.zset, e.ms - window) == Trimmed(r, e, window)
  {
  }

  function NextCounter(r: Redis, e: Eval): nat {
    (if e.counterGone then 0 else r.counter) + 1
  }

  /** The whole script. */
  function Script(r: Redis, e: Eval, window: nat, limit: int): (Redis, Reply) {
    var zset := Trimmed(r, e, window);
    if |zset| < limit then
      var n := NextCounter(r, e);
      var deadline := e.ms + window + TTL_BUFFER;
      (Redis(zset[Member(e.ms, n) := e.ms], deadline, n, deadline), Reply(true, limit - |zset| - 1))
    else
      (Redis(zset, if e.zsetGone then 0 else r.zsetDeadline,
             if e.counterGone then 0 else r.counter, if e.counterGone then 0 else r.counterDeadline),
       Reply(false, 0))
  }

  // ----- the ideal limiter: a log of admission times -----

  /** Admissions logged in (lo, hi]. */
  function CountIn(log: seq<nat>, lo: int, hi: int): nat {
    if log == [] then 0
    else CountIn(log[..|log| - 1], lo, hi) + (if lo < log[|log| - 1] <= hi then 1 else 0)
  }

  lemma CountInAppend(log: seq<nat>, t: nat, lo: int, hi: int)
    ensures CountIn(log + [t], lo, hi) == CountIn(log, lo, hi) + (if lo < t <= hi then 1 else 0)
  {
    assert (log + [t])[..|log|] == log;
  }

  /** Admit iff fewer than `limit` admissions lie in (ms - window, ms]. */
  function Ideal(log: seq<nat>, ms: nat, window: nat, limit: int): (seq<nat>, Reply) {
    var used := CountIn(log, ms - window, ms);
    if used < limit then (log + [ms], Reply(true, limit - used - 1)) else (log, Reply(false, 0))
  }

  // ----- the script refines the ideal limiter -----

  function Stamps(members: seq<Member>): (log: seq<nat>)
    ensures |log| == |members|
    ensures forall i :: 0 <= i < |log| ==> log[i] == members[i].ms
  {
    seq(|members|, i requires 0 <= i < |members| => members[i].ms)
  }

  predicate Distinct(members: seq<Member>) {
    forall i, j :: 0 <= i < j < |members| ==> members[i] != members[j]
  }

  /**
   Every member ever added, in order, against what Redis still holds at time `ms`: members never
   collide, nothing that can still count is missing, and a restarted counter means the old
   members are out of reach.
   */
  ghost predicate Holds(r: Redis, members: seq<Member>, ms: nat, window: nat) {
    && Distinct(members)
    && (forall i, j :: 0 <= i < j < |members| ==> members[i].ms <= members[j].ms)
    && (forall m :: m in r.zset ==> m in members && r.zset[m] == m.ms)
    && (forall m :: m in members && m.ms > ms - window ==> m in r.zset)
    && (members != [] ==> CountersHold(r, members, members[|members| - 1].ms, ms, window))
  }

  ghost predicate CountersHold(r: Redis, members: seq<Member>, newest: nat, ms: nat, window: nat) {
    var deadline := newest + window + TTL_BUFFER;
    && newest <= ms
    && (r.zset != map[] ==> r.zsetDeadline == deadline)
    && (r.counter == 0 ==> deadline <= ms)
    && (r.counter > 0 ==>
        r.counterDeadline == deadline && forall m :: m in members && m.ms == newest ==> m.seq_ <= r.counter)
  }

  lemma OldestFirst(r: Redis, members: seq<Member>, ms: nat, window: nat)
    requires Holds(r, members, ms, window) && members != []
    ensures forall m :: m in members ==> m.ms <= members[|members| - 1].ms
  {
  }

  /** The member a granted evaluation adds is new, even after the counter key has expired and restarted. */
  lemma NoCollision(r: Redis, members: seq<Member>, ms: nat, window: nat, e: Eval)
    requires Holds(r, members, ms, window) && ms <= e.ms && ExpiryAllowed(r, e)
    ensures Member(e.ms, NextCounter(r, e)) !in members
  {
    if members != [] {
      OldestFirst(r, members, ms, window);
    }
  }

  /** After expiry and trimming, the sorted set is exactly the members still inside the window. */
  lemma TrimmedIsWindow(r: Redis, members: seq<Member>, ms: nat, window: nat, e: Eval)
    requires Holds(r, members, ms, window) && ms <= e.ms && ExpiryAllowed(r, e)
    ensures Trimmed(r, e, window).Keys == Recent(members, e.ms - window)
  {
    if members != [] {
      OldestFirst(r, members, ms, window);
    }
  }

  ghost function Recent(members: seq<Member>, lo: int): set<Member> {
    set m | m in members && m.ms > lo
  }

  lemma StampsAppend(members: seq<Member>, m: Member)
    ensures Stamps(members + [m]) == Stamps(members) + [m.ms]
  {
  }

  lemma {:induction false} DistinctMembersCount(members: seq<Member>, lo: int, hi: int)
    requires Distinct(members) && forall m :: m in members ==> m.ms <= hi
    ensures |Recent(members, lo)| == CountIn(Stamps(members), lo, hi)
  {
    if members != [] {
      var init, last := members[..|members| - 1], members[|members| - 1];
      assert members == init + [last];
      StampsAppend(init, last);
      CountInAppend(Stamps(init), last.ms, lo, hi);
      DistinctMembersCount(init, lo, hi);
      assert last !in Recent(init, lo);
      assert Recent(members, lo) == Recent(init, lo) + if last.ms > lo then {last} else {};
    }
  }

  /** The members after an evaluation. */
  function Added(r: Redis, members: seq<Member>, e: Eval, window: nat, limit: int): seq<Member> {
    if |Trimmed(r, e, window)| < limit then members + [Member(e.ms, NextCounter(r, e))] else members
  }

  /** One evaluation answers as the ideal limiter does on the log of admission times. */
  lemma ScriptAnswersIdeal(r: Redis, members: seq<Member>, ms: nat, window: nat, limit: int, e: Eval)
    requires Holds(r, members, ms, window) && ms <= e.ms && ExpiryAllowed(r, e)
    ensures (Stamps(Added(r, members, e, window, limit)), Script(r, e, window, limit).1)
              == Ideal(Stamps(members), e.ms, window, limit)
  {
    ScriptCounts(r, members, ms, window, e);
    StampsAppend(members, Member(e.ms, NextCounter(r, e)));
  }

  lemma ScriptKeepsHolds(r: Redis, members: seq<Member>, ms: nat, window: nat, limit: int, e: Eval)
    requires Holds(r, members, ms, window) && ms <= e.ms && ExpiryAllowed(r, e)
    ensures Holds(Script(r, e, window, limit).0, Added(r, members, e, window, limit), e.ms, window)
  {
    if |Trimmed(r, e, window)| < limit {
      GrantKeepsHolds(r, members, ms, window, limit, e);
    } else {
      RefusalKeepsHolds(r, members, ms, window, limit, e);
    }
  }

  lemma MembersPast(r: Redis, members: seq<Member>, ms: nat, window: nat)
    requires Holds(r, members, ms, window)
    ensures Distinct(members) && forall m :: m in members ==> m.ms <= ms
  {
    if members != [] {
      OldestFirst(r, members, ms, window);
    }
  }

  lemma KeysCount(zset: map<Member, nat>)
    ensures |zset| == |zset.Keys|
  {
  }

  lemma ScriptCounts(r: Redis, members: seq<Member>, ms: nat, window: nat, e: Eval)
    requires Holds(r, members, ms, window) && ms <= e.ms && ExpiryAllowed(r, e)
    ensures |Trimmed(r, e, window)| == CountIn(Stamps(members), e.ms - window, e.ms)
  {
    TrimmedIsWindow(r, members, ms, window, e);
    MembersPast(r, members, ms, window);
    DistinctMembersCount(members, e.ms - window, e.ms);
    KeysCount(Trimmed(r, e, window));
  }

  lemma AddedLast(members: seq<Member>, m: Member)
    requires Distinct(members) && m !in members
    requires forall i, j :: 0 <= i < j < |members| ==> members[i].ms <= members[j].ms
    requires forall m' :: m' in members ==> m'.ms <= m.ms
    ensures Distinct(members + [m])
    ensures forall i, j :: 0 <= i < j < |members + [m]| ==> (members + [m])[i].ms <= (members + [m])[j].ms
    ensures forall m' :: m' in members + [m] <==> m' in members || m' == m
  {
  }

  lemma GrantKeepsHolds(r: Redis, members: seq<Member>, ms: nat, window: nat, limit: int, e: Eval)
    requires Holds(r, members, ms, window) && ms <= e.ms && ExpiryAllowed(r, e)
    requires |Trimmed(r, e, window)| < limit
    ensures Holds(Script(r, e, window, limit).0, members + [Member(e.ms, NextCounter(r, e))], e.ms, window)
  {
    TrimmedIsWindow(r, members, ms, window, e);
    NoCollision(r, members, ms, window, e);
    var m := Member(e.ms, NextCounter(r, e));
    if members != [] {
      OldestFirst(r, members, ms, window);
    }
    AddedLast(members, m);
    GrantHoldsWindow(r, members, window, e, m);
  }

  lemma GrantHoldsWindow(r: Redis, members: seq<Member>, window: nat, e: Eval, m: Member)
    requires Trimmed(r, e, window).Keys == Recent(members, e.ms - window) && m.ms == e.ms
    requires forall m' :: m' in r.zset ==> m' in members && r.zset[m'] == m'.ms
    ensures var zset := Trimmed(r, e, window)[m := e.ms];
            && (forall m' :: m' in zset ==> m' in members + [m] && zset[m'] == m'.ms)
            && (forall m' :: m' in members + [m] && m'.ms > e.ms - window ==> m' in zset)
  {
    var zset := Trimmed(r, e, window)[m := e.ms];
    forall m' | m' in members + [m] && m'.ms > e.ms - window ensures m' in zset {
      if m' != m {
        assert m' in Recent(members, e.ms - window);
      }
    }
  }

  lemma RefusalKeepsHolds(r: Redis, members: seq<Member>, ms: nat, window: nat, limit: int, e: Eval)
    requires Holds(r, members, ms, window) && ms <= e.ms && ExpiryAllowed(r, e)
    requires |Trimmed(r, e, window)| >= limit
    ensures Holds(Script(r, e, window, limit).0, members, e.ms, window)
  {
    TrimmedIsWindow(r, members, ms, window, e);
  }

  /** The admission log stays one the ideal limiter would have produced. */
  lemma ScriptKeepsAdmissible(r: Redis, members: seq<Member>, ms: nat, window: nat, limit: int, e: Eval)
    requires Holds(r, members, ms, window) && ms <= e.ms && ExpiryAllowed(r, e)
    requires Admissible(Stamps(members), window, limit)
    ensures Admissible(Stamps(Added(r, members, e, window, limit)), window, limit)
  {
    ScriptAnswersIdeal(r, members, ms, window, limit, e);
    var log := Stamps(members);
    forall i | 0 <= i < |log| ensures log[i] <= e.ms {
      OldestFirst(r, members, ms, window);
      assert members[i] in members;
    }
    IdealKeepsAdmissible(log, e.ms, window, limit);
  }

  predicate LegalEvals(r: Redis, evals: seq<Eval>, ms: nat, window: nat, limit: int)
    decreases |evals|
  {
    evals == [] ||
    (ms <= evals[0].ms && ExpiryAllowed(r, evals[0]) &&
     LegalEvals(Script(r, evals[0], window, limit).0, evals[1..], evals[0].ms, window, limit))
  }

  function Replies(r: Redis, evals: seq<Eval>, window: nat, limit: int): seq<Reply>
    decreases |evals|
  {
    if evals == [] then []
    else
      var (r', reply) := Script(r, evals[0], window, limit);
      [reply] + Replies(r', evals[1..], window, limit)
  }

  function IdealReplies(log: seq<nat>, evals: seq<Eval>, window: nat, limit: int): seq<Reply>
    decreases |evals|
  {
    if evals == [] then []
    else
      var (log', reply) := Ideal(log, evals[0].ms, window, limit);
      [reply] + IdealReplies(log', evals[1..], window, limit)
  }

  lemma {:induction false} RepliesFrom(
      r: Redis, members: seq<Member>, ms: nat, evals: seq<Eval>, window: nat, limit: int)
    requires Holds(r, members, ms, window) && LegalEvals(r, evals, ms, window, limit)
    ensures Replies(r, evals, window, limit) == IdealReplies(Stamps(members), evals, window, limit)
    decreases |evals|
  {
    if evals != [] {
      var e := evals[0];
      ScriptAnswersIdeal(r, members, ms, window, limit, e);
      ScriptKeepsHolds(r, members, ms, window, limit, e);
      RepliesFrom(Script(r, e, window, limit).0, Added(r, members, e, window, limit), e.ms, evals[1..], window, limit);
    }
  }

  /**
   Exactness: on a nondecreasing server clock, whatever Redis does with expired keys, every
   answer of the script (grant and remaining count) is that of the ideal limiter.
   */
  lemma ScriptRefinesIdeal(evals: seq<Eval>, window: nat, limit: int)
    requires LegalEvals(EMPTY, evals, 0, window, limit)
    ensures Replies(EMPTY, evals, window, limit) == IdealReplies([], evals, window, limit)
  {
    assert Stamps([]) == [];
    RepliesFrom(EMPTY, [], 0, evals, window, limit);
  }

  // ----- no window ever holds more than the limit -----

  /** A log every entry of which the ideal limiter would have admitted. */
  predicate Admissible(log: seq<nat>, window: nat, limit: int) {
    log == [] ||
    (var init, t := log[..|log| - 1], log[|log| - 1];
     && Admissible(init, window, limit)
     && (forall i :: 0 <= i < |init| ==> init[i] <= t)
     && CountIn(init, t - window, t) < limit)
  }

  lemma {:induction false} CountMonotone(log: seq<nat>, lo: int, hi: int, lo': int, hi': int)
    requires forall i :: 0 <= i < |log| && lo < log[i] <= hi ==> lo' < log[i] <= hi'
    ensures CountIn(log, lo, hi) <= CountIn(log, lo', hi')
  {
    if log != [] {
      CountMonotone(log[..|log| - 1], lo, hi, lo', hi');
    }
  }

  /** Every half-open window (lo, lo + window] of an admissible log holds at most `limit` admissions. */
  lemma {:induction false} WindowHoldsLimit(log: seq<nat>, window: nat, limit: int, lo: int)
    requires 0 <= limit && Admissible(log, window, limit)
    ensures CountIn(log, lo, lo + window) <= limit
  {
    if log != [] {
      var init, t := log[..|log| - 1], log[|log| - 1];
      if lo < t <= lo + window {
        CountMonotone(init, lo, lo + window, t - window, t);
      } else {
        WindowHoldsLimit(init, window, limit, lo);
      }
    }
  }

  lemma {:induction false} CountSplits(log: seq<nat>, lo: int, middle: int, hi: int)
    requires lo <= middle <= hi
    ensures CountIn(log, lo, hi) == CountIn(log, lo, middle) + CountIn(log, middle, hi)
  {
    if log != [] {
      CountSplits(log[..|log| - 1], lo, middle, hi);
    }
  }

  /** So `k` windows in a row hold at most `k` times the limit. */
  lemma {:induction false} WindowsHoldLimits(log: seq<nat>, window: nat, limit: int, lo: int, k: nat)
    requires 0 <= limit && Admissible(log, window, limit)
    ensures CountIn(log, lo, lo + k * window) <= k * limit
  {
    if k == 0 {
      EmptyWindow(log, lo);
    } else {
      assert k * window == (k - 1) * window + window && k * limit == (k - 1) * limit + limit;
      ProductNonnegative(k - 1, window);
      WindowsHoldLimits(log, window, limit, lo, k - 1);
      CountSplits(log, lo, lo + (k - 1) * window, lo + k * window);
      WindowHoldsLimit(log, window, limit, lo + (k - 1) * window);
    }
  }

  lemma ProductNonnegative(a: nat, b: nat)
    ensures 0 <= a * b
  {
  }

  lemma {:induction false} EmptyWindow(log: seq<nat>, lo: int)
    ensures CountIn(log, lo, lo) == 0
  {
    if log != [] {
      EmptyWindow(log[..|log| - 1], lo);
    }
  }

  lemma IdealKeepsAdmissible(log: seq<nat>, ms: nat, window: nat, limit: int)
    requires Admissible(log, window, limit) && forall i :: 0 <= i < |log| ==> log[i] <= ms
    ensures Admissible(Ideal(log, ms, window, limit).0, window, limit)
  {
    assert (log + [ms])[..|log|] == log;
  }

  ghost function LoggedIn(log: seq<nat>, lo: int, hi: int): set<nat> {
    set i: nat | i < |log| && lo < log[i] <= hi
  }

  /** Counting logged admissions and counting their positions is the same. */
  lemma {:induction false} CountIsPositions(log: seq<nat>, lo: int, hi: int)
    ensures |LoggedIn(log, lo, hi)| == CountIn(log, lo, hi)
  {
    if log != [] {
      var n := |log| - 1;
      CountIsPositions(log[..n], lo, hi);
      assert LoggedIn(log, lo, hi) == LoggedIn(log[..n], lo, hi) + if lo < log[n] <= hi then {n} else {};
    }
  }

  /** The correspondence survives the passing of time. */
  lemma HoldsLater(r: Redis, members: seq<Member>, ms: nat, later: nat, window: nat)
    requires Holds(r, members, ms, window) && ms <= later
    ensures Holds(r, members, later, window)
  {
  }

  // ----- windows on the server's own clock, which the script reads in whole milliseconds -----

  /** One evaluation at a time in the server's microseconds. */
  datatype Reading = Reading(us: nat, zsetGone: bool, counterGone: bool)

  function AsEval(a: Reading): Eval {
    Eval(a.us / 1000, a.zsetGone, a.counterGone)
  }

  predicate LegalReadings(r: Redis, readings: seq<Reading>, us: nat, window: nat, limit: int)
    decreases |readings|
  {
    readings == [] ||
    (us <= readings[0].us && ExpiryAllowed(r, AsEval(readings[0])) &&
     LegalReadings(Script(r, AsEval(readings[0]), window, limit).0, readings[1..], readings[0].us, window, limit))
  }

  /** Whether a reading is admitted at a time in [lo, hi). */
  function AdmittedThen(r: Redis, a: Reading, window: nat, limit: int, lo: nat, hi: nat): nat {
    if lo <= a.us < hi && Script(r, AsEval(a), window, limit).1.allowed then 1 else 0
  }

  function AdmittedBetween(r: Redis, readings: seq<Reading>, window: nat, limit: int, lo: nat, hi: nat): nat
    decreases |readings|
  {
    if readings == [] then 0
    else
      AdmittedThen(r, readings[0], window, limit, lo, hi)
      + AdmittedBetween(Script(r, AsEval(readings[0]), window, limit).0, readings[1..], window, limit, lo, hi)
  }

  /** The window of microseconds that starts at `from` holds at most the limit in every run. */
  ghost predicate WindowHolds(window: nat, limit: int, from: nat) {
    forall readings :: LegalReadings(EMPTY, readings, 0, window, limit) ==>
      AdmittedBetween(EMPTY, readings, window, limit, from, from + 1000 * window) <= limit
  }

  lemma AddedIsCounted(r: Redis, members: seq<Member>, a: Reading, window: nat, limit: int, q: nat)
    ensures CountIn(Stamps(Added(r, members, AsEval(a), window, limit)), q - 1, q - 1 + window)
            == CountIn(Stamps(members), q - 1, q - 1 + window)
               + AdmittedThen(r, a, window, limit, 1000 * q, 1000 * (q + window))
  {
    var e := AsEval(a);
    StampsAppend(members, Member(e.ms, NextCounter(r, e)));
    CountInAppend(Stamps(members), e.ms, q - 1, q - 1 + window);
    assert 1000 * q <= a.us < 1000 * (q + window) <==> q - 1 < e.ms <= q - 1 + window;
  }

  lemma {:induction false} WholeMilliseconds(
      r: Redis, members: seq<Member>, us: nat, readings: seq<Reading>, window: nat, limit: int, q: nat)
    requires 0 <= limit && Holds(r, members, us / 1000, window) && Admissible(Stamps(members), window, limit)
    requires LegalReadings(r, readings, us, window, limit)
    ensures CountIn(Stamps(members), q - 1, q - 1 + window)
            + AdmittedBetween(r, readings, window, limit, 1000 * q, 1000 * (q + window)) <= limit
    decreases |readings|
  {
    if readings == [] {
      WindowHoldsLimit(Stamps(members), window, limit, q - 1);
    } else {
      var e := AsEval(readings[0]);
      ScriptKeepsHolds(r, members, us / 1000, window, limit, e);
      ScriptKeepsAdmissible(r, members, us / 1000, window, limit, e);
      AddedIsCounted(r, members, readings[0], window, limit, q);
      WholeMilliseconds(Script(r, e, window, limit).0, Added(r, members, e, window, limit), readings[0].us,
                        readings[1..], window, limit, q);
    }
  }

  /** From here some run admits more than the limit in the window, of which it has `had` so far. */
  ghost predicate Overfills(r: Redis, us: nat, window: nat, limit: int, from: nat, had: nat) {
    exists readings :: LegalReadings(r, readings, us, window, limit) &&
      had + AdmittedBetween(r, readings, window, limit, from, from + 1000 * window) > limit
  }

  lemma OverfillsAfter(r: Redis, us: nat, window: nat, limit: int, from: nat, had: nat, a: Reading)
    requires us <= a.us && ExpiryAllowed(r, AsEval(a))
    requires Overfills(Script(r, AsEval(a), window, limit).0, a.us, window, limit, from,
                       had + AdmittedThen(r, a, window, limit, from, from + 1000 * window))
    ensures Overfills(r, us, window, limit, from, had)
  {
    var r' := Script(r, AsEval(a), window, limit).0;
    var had' := had + AdmittedThen(r, a, window, limit, from, from + 1000 * window);
    var readings :| LegalReadings(r', readings, a.us, window, limit) &&
      had' + AdmittedBetween(r', readings, window, limit, from, from + 1000 * window) > limit;
    var all := [a] + readings;
    assert all[1..] == readings;
    assert LegalReadings(r, all, us, window, limit);
  }

  /** A reading with the keys gone exactly when their time is over. */
  function At(r: Redis, us: nat): Reading {
    Reading(us, r.zsetDeadline < us / 1000, r.counterDeadline < us / 1000)
  }

  lemma {:induction false} NothingLater(log: seq<nat>, ms: nat, hi: int)
    requires forall i :: 0 <= i < |log| ==> log[i] <= ms
    ensures CountIn(log, ms, hi) == 0
  {
    if log != [] {
      NothingLater(log[..|log| - 1], ms, hi);
    }
  }

  lemma LastMicrosecond(from: nat, window: nat)
    requires 1 <= window && from % 1000 != 0
    ensures from <= from + 1000 * window - 1 && (from + 1000 * window - 1) / 1000 == from / 1000 + window
  {
  }

  lemma AtIsAllowed(r: Redis, us: nat)
    ensures ExpiryAllowed(r, AsEval(At(r, us)))
  {
  }

  /** Room in the log is room for a grant. */
  lemma RoomIsGrant(r: Redis, members: seq<Member>, ms: nat, window: nat, limit: int, e: Eval)
    requires Holds(r, members, ms, window) && ms <= e.ms && ExpiryAllowed(r, e)
    requires CountIn(Stamps(members), e.ms - window, e.ms) < limit
    ensures Script(r, e, window, limit).1.allowed
    ensures Stamps(Added(r, members, e, window, limit)) == Stamps(members) + [e.ms]
  {
    ScriptCounts(r, members, ms, window, e);
    StampsAppend(members, Member(e.ms, NextCounter(r, e)));
  }

  lemma LogIsPast(r: Redis, members: seq<Member>, ms: nat, window: nat)
    requires Holds(r, members, ms, window)
    ensures CountIn(Stamps(members), ms, ms + window) == 0
  {
    MembersPast(r, members, ms, window);
    forall i | 0 <= i < |members| ensures Stamps(members)[i] <= ms {
      assert members[i] in members;
    }
    NothingLater(Stamps(members), ms, ms + window);
  }

  lemma Returns(r: Redis, members: seq<Member>, us: nat, window: nat, limit: int, from: nat, had: nat)
    requires 1 <= window && limit == had && 1 <= limit && from % 1000 != 0 && us <= from
    requires Holds(r, members, from / 1000, window)
    ensures Overfills(r, us, window, limit, from, had)
  {
    var last := from + 1000 * window - 1;
    var a := At(r, last);
    LastMicrosecond(from, window);
    LogIsPast(r, members, from / 1000, window);
    AtIsAllowed(r, last);
    RoomIsGrant(r, members, from / 1000, window, limit, AsEval(a));
    OverfillsNow(Script(r, AsEval(a), window, limit).0, last, window, limit, from, had + 1);
    OverfillsAfter(r, us, window, limit, from, had, a);
  }

  lemma OverfillsNow(r: Redis, us: nat, window: nat, limit: int, from: nat, had: nat)
    requires had > limit
    ensures Overfills(r, us, window, limit, from, had)
  {
    assert LegalReadings(r, [], us, window, limit);
  }

  /** Fill the window's first millisecond to the limit, then come back just before the window ends. */
  lemma {:induction false} FillAndReturn(
      r: Redis, members: seq<Member>, us: nat, window: nat, limit: int, from: nat, had: nat)
    requires 1 <= window && had <= limit && 1 <= limit && from % 1000 != 0 && us <= from
    requires Holds(r, members, from / 1000, window)
    requires CountIn(Stamps(members), from / 1000 - window, from / 1000) == had
    ensures Overfills(r, us, window, limit, from, had)
    decreases limit - had
  {
    if had < limit {
      var q, a := from / 1000, At(r, from);
      var e := AsEval(a);
      AtIsAllowed(r, from);
      RoomIsGrant(r, members, q, window, limit, e);
      ScriptKeepsHolds(r, members, q, window, limit, e);
      CountInAppend(Stamps(members), q, q - window, q);
      var r', members' := Script(r, e, window, limit).0, Added(r, members, e, window, limit);
      FillAndReturn(r', members', from, window, limit, from, had + 1);
      OverfillsAfter(r, us, window, limit, from, had, a);
    } else {
      Returns(r, members, us, window, limit, from, had);
    }
  }

  /**
   The guarantee is per millisecond: the script floors the server's microseconds, so a window of them
   holds at most the limit in every run exactly when it starts on a whole millisecond.
   */
  lemma WindowsOnTheServerClock(window: nat, limit: int, from: nat)
    requires 1 <= window && 1 <= limit
    ensures WindowHolds(window, limit, from) <==> from % 1000 == 0
  {
    assert Stamps([]) == [];
    if from % 1000 == 0 {
      var q := from / 1000;
      forall readings | LegalReadings(EMPTY, readings, 0, window, limit)
        ensures AdmittedBetween(EMPTY, readings, window, limit, from, from + 1000 * window) <= limit
      {
        WholeMilliseconds(EMPTY, [], 0, readings, window, limit, q);
        assert 1000 * (q + window) == from + 1000 * window;
      }
    } else {
      FillAndReturn(EMPTY, [], 0, window, limit, from, 0);
    }
  }

  // ----- the script as it runs, one Redis call at a time -----

  class RedisKey {
    var zset: map<Member, nat>
    var zsetDeadline: nat
    var counter: nat
    var counterDeadline: nat
    ghost var members: seq<Member>
    ghost var clock: nat

    constructor ()
      ensures State() == EMPTY && members == [] && clock == 0
    {
      zset, zsetDeadline, counter, counterDeadline := map[], 0, 0, 0;
      members, clock := [], 0;
    }

    function State(): Redis
      reads this
    {
      Redis(zset, zsetDeadline, counter, counterDeadline)
    }

    /** The correspondence with the log of all admissions. */
    ghost predicate Valid(window: nat)
      reads this
    {
      Holds(State(), members, clock, window)
    }

    /** The calls of the script in their order. */
    method Execute(e: Eval, window: nat, limit: int) returns (allowed: int, remaining: int)
      modifies `zset, `zsetDeadline, `counter, `counterDeadline
      ensures (State(), Reply(allowed == 1, remaining)) == Script(old(State()), e, window, limit)
      ensures allowed == 0 || allowed == 1
    {
      ghost var before := State();
      if e.zsetGone {
        zset, zsetDeadline := map[], 0;
      }
      if e.counterGone {
        counter, counterDeadline := 0, 0;
      }
      var winStart := e.ms - window;
      zset := DropUpTo(zset, winStart);
      TrimIsDrop(before, e, window);
      assert State() == Redis(Trimmed(before, e, window), if e.zsetGone then 0 else before.zsetDeadline,
                              if e.counterGone then 0 else before.counter,
                              if e.counterGone then 0 else before.counterDeadline);
      var count := |zset|;
      if count < limit {
        counter := counter + 1;
        zset := zset[Member(e.ms, counter) := e.ms];
        zsetDeadline := e.ms + window + TTL_BUFFER;
        counterDeadline := e.ms + window + TTL_BUFFER;
        return 1, limit - count - 1;
      } else {
        return 0, 0;
      }
    }

    /** The script admits exactly when fewer than `limit` admissions lie in (ms - window, ms]. */
    method Run(e: Eval, window: nat, limit: int) returns (allowed: int, remaining: int)
      requires Valid(window) && clock <= e.ms && ExpiryAllowed(State(), e)
      modifies this
      ensures Valid(window) && clock == e.ms
      ensures State() == Script(old(State()), e, window, limit).0
      ensures allowed == 1 ==> zsetDeadline == counterDeadline == e.ms + window + 1000
      ensures (Stamps(members), Reply(allowed == 1, remaining)) == Ideal(Stamps(old(members)), e.ms, window, limit)
    {
      ScriptAnswersIdeal(State(), members, clock, window, limit, e);
      ScriptKeepsHolds(State(), members, clock, window, limit, e);
      ghost var members' := Added(State(), members, e, window, limit);
      allowed, remaining := Execute(e, window, limit);
      members, clock := members', e.ms;
    }
  }
}
