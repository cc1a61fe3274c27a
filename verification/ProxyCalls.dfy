/**
 The retry loop of one proxied call as the sequence of its atomic operations, and what any complete
 call amounts to (internal/proxy/proxy.go, ProxyRequest).
 */
module ProxyCalls {
  import opened Common

  /** Retries after the first attempt. */
  const MAX_RETRIES: nat := 2

  /** 502, 503 and 504 are retried; 500 is not. */
  predicate Retryable(status: int) {
    status == 502 || status == 503 || status == 504
  }

  /** A question to a healthy instance's breaker, each at its own reading of the clock. */
  datatype Question = Question(inst: string, now: int)

  /** The atomic operations of a call, with the clock readings breakers take inside them. */
  datatype Action =
    | AskService(now: int, granted: bool)
    | CheckDeadline(tooLate: bool)
    | Select(asked: seq<Question>, chosen: Option<string>)
    | Upstream(status: int, failed: bool)
    | CallDone(latencyMs: nat, isErr: bool)
    | RecordInstance(now: int, inst: string, ok: bool)
    | RecordService(now: int, ok: bool)
    | Backoff(ms: nat, cancelled: bool)

  datatype Exit =
    | ServiceOpen
    | DeadlineExceeded
    | NoHealthyInstance
    | Succeeded
    | UpstreamFailed(code: int)
    | Cancelled
    | Exhausted

  /** Where a call stands between two operations. */
  datatype Pc =
    | Start
    | Looping(attempt: nat)
    | Choosing(attempt: nat)
    | Unserved                                            // no instance, failure not yet recorded
    | Calling(attempt: nat, inst: string)                 // selected, upstream not yet answered
    | Answered(attempt: nat, inst: string, good: bool, code: int)   // before the done callback
    | Reporting(attempt: nat, inst: string, good: bool, code: int)  // before the instance's breaker
    | Judging(attempt: nat, good: bool, code: int)        // before the service's breaker, or a retry
    | Waiting(attempt: nat)
    | Finished(exit: Exit)

  /** The status a failed call is reported with. */
  function FailureCode(status: int): int {
    if status != 0 then status else 502
  }

  /** The operation a call may perform next, and where it leads; None for any other operation. */
  function Advance(idempotent: bool, pc: Pc, a: Action): Option<Pc> {
    match (pc, a)
    case (Start, AskService(_, granted)) => Some(if granted then Looping(0) else Finished(ServiceOpen))
    case (Looping(n), CheckDeadline(tooLate)) => Some(if tooLate then Finished(DeadlineExceeded) else Choosing(n))
    case (Choosing(n), Select(_, chosen)) => Some(if chosen.None? then Unserved else Calling(n, chosen.value))
    case (Unserved, RecordService(_, ok)) => if ok then None else Some(Finished(NoHealthyInstance))
    case (Calling(n, inst), Upstream(status, failed)) =>
      Some(Answered(n, inst, !failed && !Retryable(status), FailureCode(if failed then 0 else status)))
    case (Answered(n, inst, good, code), CallDone(_, isErr)) =>
      if isErr == !good then Some(Reporting(n, inst, good, code)) else None
    case (Reporting(n, inst, good, code), RecordInstance(_, id, ok)) =>
      if id == inst && ok == good then Some(Judging(n, good, code)) else None
    case (Judging(n, good, code), RecordService(_, ok)) =>
      if good && ok then Some(Finished(Succeeded))
      else if !good && !ok && (!idempotent || n >= MAX_RETRIES) then Some(Finished(UpstreamFailed(code)))
      else None
    case (Judging(n, good, code), Backoff(ms, cancelled)) =>
      if good || !idempotent || n >= MAX_RETRIES || !(100 * n <= ms < 100 * n + 50) then None
      else Some(if cancelled then Finished(Cancelled) else Waiting(n))
    case _ => None
  }

  /** From a finished wait the loop goes on while attempts remain. */
  function Settle(pc: Pc): Pc {
    if pc.Waiting? then (if pc.attempt + 1 <= MAX_RETRIES then Looping(pc.attempt + 1) else Finished(Exhausted)) else pc
  }

  function Follow(idempotent: bool, pc: Pc, trace: seq<Action>): Option<Pc>
    decreases |trace|
  {
    if trace == [] then Some(pc)
    else
      var next := Advance(idempotent, pc, trace[0]);
      if next.None? then None else Follow(idempotent, Settle(next.value), trace[1..])
  }

  lemma {:induction false} FollowAppend(idempotent: bool, pc: Pc, trace: seq<Action>, a: Action)
    requires Follow(idempotent, pc, trace).Some?
    ensures Follow(idempotent, pc, trace + [a]) ==
            var next := Advance(idempotent, Follow(idempotent, pc, trace).value, a);
            if next.None? then None else Some(Settle(next.value))
    decreases |trace|
  {
    if trace == [] {
      assert [a][1..] == [];
    } else {
      assert (trace + [a])[1..] == trace[1..] + [a];
      FollowAppend(idempotent, Settle(Advance(idempotent, pc, trace[0]).value), trace[1..], a);
    }
  }

  lemma {:induction false} FollowPrefix(idempotent: bool, pc: Pc, trace: seq<Action>, a: Action)
    requires Follow(idempotent, pc, trace + [a]).Some?
    ensures Follow(idempotent, pc, trace).Some?
    decreases |trace|
  {
    if trace != [] {
      assert (trace + [a])[1..] == trace[1..] + [a];
      FollowPrefix(idempotent, Settle(Advance(idempotent, pc, trace[0]).value), trace[1..], a);
    }
  }

  // ----- tallies over a trace -----

  function Attempts(trace: seq<Action>): nat {
    if trace == [] then 0 else (if trace[0].Upstream? then 1 else 0) + Attempts(trace[1..])
  }

  function Selections(trace: seq<Action>): nat {
    if trace == [] then 0
    else (if trace[0].Select? && trace[0].chosen.Some? then 1 else 0) + Selections(trace[1..])
  }

  function Dones(trace: seq<Action>): nat {
    if trace == [] then 0 else (if trace[0].CallDone? then 1 else 0) + Dones(trace[1..])
  }

  function InstanceRecords(trace: seq<Action>): nat {
    if trace == [] then 0 else (if trace[0].RecordInstance? then 1 else 0) + InstanceRecords(trace[1..])
  }

  /** The outcomes recorded on the service's breaker, in order. */
  function ServiceOutcomes(trace: seq<Action>): seq<bool> {
    if trace == [] then []
    else (if trace[0].RecordService? then [trace[0].ok] else []) + ServiceOutcomes(trace[1..])
  }

  function BackoffTotal(trace: seq<Action>): nat {
    if trace == [] then 0 else (if trace[0].Backoff? then trace[0].ms else 0) + BackoffTotal(trace[1..])
  }

  /** Positions the loop can really be in: retries happen only to idempotent requests, and twice at most. */
  predicate Sound(idempotent: bool, pc: Pc) {
    match pc
    case Start => true
    case Unserved => true
    case Finished(exit) => exit != Exhausted
    case Waiting(_) => false
    case _ => pc.attempt <= MAX_RETRIES && (pc.attempt > 0 ==> idempotent)
  }

  /** Upstream attempts still possible from a position. */
  function AttemptsLeft(idempotent: bool, pc: Pc): nat
    requires Sound(idempotent, pc)
  {
    match pc
    case Start => if idempotent then 3 else 1
    case Looping(n) => if idempotent then 3 - n else 1
    case Choosing(n) => if idempotent then 3 - n else 1
    case Calling(n, _) => if idempotent then 3 - n else 1
    case Answered(n, _, _, _) => if idempotent then 2 - n else 0
    case Reporting(n, _, _, _) => if idempotent then 2 - n else 0
    case Judging(n, _, _) => if idempotent then 2 - n else 0
    case _ => 0
  }

  /** Milliseconds of backoff still possible: at most 49 before the second attempt and 149 before the third. */
  function BackoffLeft(pc: Pc): nat {
    match pc
    case Start => 198
    case Unserved => 0
    case Finished(_) => 0
    case Waiting(_) => 0
    case _ => if pc.attempt == 0 then 198 else if pc.attempt == 1 then 149 else 0
  }

  /** What the exits owe the service's breaker. */
  function Owed(exit: Exit): seq<bool> {
    match exit
    case Succeeded => [true]
    case NoHealthyInstance => [false]
    case UpstreamFailed(_) => [false]
    case _ => []
  }

  lemma {:induction false} BudgetFrom(idempotent: bool, pc: Pc, trace: seq<Action>, exit: Exit)
    requires Sound(idempotent, pc) && Follow(idempotent, pc, trace) == Some(Finished(exit))
    ensures exit != Exhausted
    ensures Attempts(trace) <= AttemptsLeft(idempotent, pc) && BackoffTotal(trace) <= BackoffLeft(pc)
    decreases |trace|
  {
    if trace != [] {
      BudgetFrom(idempotent, Settle(Advance(idempotent, pc, trace[0]).value), trace[1..], exit);
    }
  }

  lemma {:induction false} OutcomesFrom(idempotent: bool, pc: Pc, trace: seq<Action>, exit: Exit)
    requires Sound(idempotent, pc) && Follow(idempotent, pc, trace) == Some(Finished(exit))
    ensures ServiceOutcomes(trace) == if pc.Finished? then [] else Owed(exit)
    decreases |trace|
  {
    if trace != [] {
      OutcomesFrom(idempotent, Settle(Advance(idempotent, pc, trace[0]).value), trace[1..], exit);
    }
  }

  lemma {:induction false} RecordsFrom(idempotent: bool, pc: Pc, trace: seq<Action>, exit: Exit)
    requires Sound(idempotent, pc) && Follow(idempotent, pc, trace) == Some(Finished(exit))
    ensures Dones(trace) == Selections(trace) + if pc.Calling? || pc.Answered? then 1 else 0
    ensures InstanceRecords(trace) == Selections(trace) + if pc.Calling? || pc.Answered? || pc.Reporting? then 1 else 0
    decreases |trace|
  {
    if trace != [] {
      RecordsFrom(idempotent, Settle(Advance(idempotent, pc, trace[0]).value), trace[1..], exit);
    }
  }

  /**
   Accounting of a complete call: at most three attempts (one unless idempotent), at most 198 ms of
   backoff, one done callback and one outcome on the instance's breaker per selection, exactly the
   outcome its exit owes the service's breaker, and never the return after the loop.
   */
  lemma CallAccounting(idempotent: bool, trace: seq<Action>, exit: Exit)
    requires Follow(idempotent, Start, trace) == Some(Finished(exit))
    ensures Attempts(trace) <= (if idempotent then 3 else 1) && BackoffTotal(trace) <= 198
    ensures Dones(trace) == Selections(trace) == InstanceRecords(trace)
    ensures ServiceOutcomes(trace) == Owed(exit)
    ensures exit != Exhausted
  {
    BudgetFrom(idempotent, Start, trace, exit);
    RecordsFrom(idempotent, Start, trace, exit);
    OutcomesFrom(idempotent, Start, trace, exit);
  }

  // ----- how the answers decide the exit -----

  /** What the upstream answered to one attempt. */
  datatype Answer = Answer(status: int, failed: bool)

  function Answers(trace: seq<Action>): seq<Answer> {
    if trace == [] then []
    else (if trace[0].Upstream? then [Answer(trace[0].status, trace[0].failed)] else []) + Answers(trace[1..])
  }

  lemma {:induction false} AnswersAppend(trace: seq<Action>, a: Action)
    ensures Answers(trace + [a]) == Answers(trace) + if a.Upstream? then [Answer(a.status, a.failed)] else []
  {
    if trace == [] {
      assert [a][1..] == [];
    } else {
      assert (trace + [a])[1..] == trace[1..] + [a] && (trace + [a])[0] == trace[0];
      AnswersAppend(trace[1..], a);
    }
  }

  predicate Fine(a: Answer) {
    !a.failed && a.status !in {502, 503, 504}
  }

  /** How many attempts a request has. */
  function Budget(idempotent: bool): nat {
    if idempotent then 3 else 1
  }

  /**
   Only the last answer can be fine, and then the call succeeds; a call that uses up its attempts
   without one fails with the last answer's status, or 502 when there is none.
   */
  predicate Concludes(idempotent: bool, answers: seq<Answer>, exit: Exit) {
    var n := |answers|;
    && n <= Budget(idempotent)
    && (forall k :: 0 <= k < n - 1 ==> !Fine(answers[k]))
    && (exit == Succeeded <==> n > 0 && Fine(answers[n - 1]))
    && (exit.UpstreamFailed? <==> n == Budget(idempotent) && !Fine(answers[n - 1]))
    && (exit.UpstreamFailed? ==>
        exit.code == if answers[n - 1].failed || answers[n - 1].status == 0 then 502 else answers[n - 1].status)
  }

  predicate NoneFine(answers: seq<Answer>) {
    forall k :: 0 <= k < |answers| ==> !Fine(answers[k])
  }

  /** The last of the answers so far, after n others, is the one being dealt with. */
  predicate Pends(idempotent: bool, answers: seq<Answer>, n: nat, good: bool, code: int) {
    && |answers| == n + 1 <= Budget(idempotent) && NoneFine(answers[..n])
    && (good <==> Fine(answers[n]))
    && code == if answers[n].failed || answers[n].status == 0 then 502 else answers[n].status
  }

  /** The answers so far are those a call at this position has had. */
  predicate Had(idempotent: bool, pc: Pc, answers: seq<Answer>) {
    match pc
    case Start => answers == []
    case Looping(n) => |answers| == n < Budget(idempotent) && NoneFine(answers)
    case Choosing(n) => |answers| == n < Budget(idempotent) && NoneFine(answers)
    case Calling(n, _) => |answers| == n < Budget(idempotent) && NoneFine(answers)
    case Unserved => |answers| < Budget(idempotent) && NoneFine(answers)
    case Answered(n, _, good, code) => Pends(idempotent, answers, n, good, code)
    case Reporting(n, _, good, code) => Pends(idempotent, answers, n, good, code)
    case Judging(n, good, code) => Pends(idempotent, answers, n, good, code)
    case Waiting(_) => false
    case Finished(exit) => Concludes(idempotent, answers, exit)
  }

  lemma UpstreamIsHad(idempotent: bool, pc: Pc, answers: seq<Answer>, a: Action)
    requires Had(idempotent, pc, answers) && pc.Calling? && a.Upstream?
    ensures var next := Advance(idempotent, pc, a);
            next.Some? && Had(idempotent, Settle(next.value), answers + [Answer(a.status, a.failed)])
  {
    assert (answers + [Answer(a.status, a.failed)])[..|answers|] == answers;
  }

  lemma OtherIsHad(idempotent: bool, pc: Pc, answers: seq<Answer>, a: Action)
    requires Had(idempotent, pc, answers) && !a.Upstream? && Advance(idempotent, pc, a).Some?
    ensures Had(idempotent, Settle(Advance(idempotent, pc, a).value), answers)
  {
    if pc.Judging? && !pc.good {
      assert answers == answers[..pc.attempt] + [answers[pc.attempt]];
    }
  }

  lemma {:induction false} AnswersDecideFrom(
      idempotent: bool, pc: Pc, before: seq<Answer>, trace: seq<Action>, exit: Exit)
    requires Had(idempotent, pc, before) && Follow(idempotent, pc, trace) == Some(Finished(exit))
    ensures Concludes(idempotent, before + Answers(trace), exit)
    decreases |trace|
  {
    if trace == [] {
      assert before + [] == before;
    } else {
      var a, next := trace[0], Settle(Advance(idempotent, pc, trace[0]).value);
      if a.Upstream? {
        UpstreamIsHad(idempotent, pc, before, a);
        var answer := Answer(a.status, a.failed);
        AnswersDecideFrom(idempotent, next, before + [answer], trace[1..], exit);
        assert Answers(trace) == [answer] + Answers(trace[1..]);
        assert before + [answer] + Answers(trace[1..]) == before + ([answer] + Answers(trace[1..]));
      } else {
        OtherIsHad(idempotent, pc, before, a);
        AnswersDecideFrom(idempotent, next, before, trace[1..], exit);
        assert Answers(trace) == Answers(trace[1..]);
      }
    }
  }

  /** In every complete call the answers decide whether it succeeds or fails, and with what status. */
  lemma AnswersDecide(idempotent: bool, trace: seq<Action>, exit: Exit)
    requires Follow(idempotent, Start, trace) == Some(Finished(exit))
    ensures Concludes(idempotent, Answers(trace), exit)
  {
    AnswersDecideFrom(idempotent, Start, [], trace, exit);
    assert [] + Answers(trace) == Answers(trace);
  }

  /** The exit an operation forces without an answer. */
  function Forced(a: Action): Option<Exit> {
    match a
    case AskService(_, granted) => if granted then None else Some(ServiceOpen)
    case CheckDeadline(tooLate) => if tooLate then Some(DeadlineExceeded) else None
    case Select(_, chosen) => if chosen.None? then Some(NoHealthyInstance) else None
    case Backoff(_, cancelled) => if cancelled then Some(Cancelled) else None
    case _ => None
  }

  lemma ForcedNow(idempotent: bool, pc: Pc, a: Action)
    requires Sound(idempotent, pc) && Advance(idempotent, pc, a).Some?
    ensures var next := Settle(Advance(idempotent, pc, a).value);
            && (Forced(a).Some? ==> next.Unserved? || next == Finished(Forced(a).value))
            && (next.Unserved? ==> Forced(a) == Some(NoHealthyInstance))
            && (next.Finished? && Forced(a).None? ==>
                pc.Unserved? || next.exit == Succeeded || next.exit.UpstreamFailed?)
  {
  }

  lemma {:induction false} ForcedFrom(idempotent: bool, pc: Pc, trace: seq<Action>, exit: Exit)
    requires Sound(idempotent, pc) && Follow(idempotent, pc, trace) == Some(Finished(exit))
    ensures forall a :: a in trace && Forced(a).Some? ==> Forced(a) == Some(exit)
    ensures exit in {ServiceOpen, DeadlineExceeded, NoHealthyInstance, Cancelled} ==>
      pc.Unserved? || pc.Finished? || exists a :: a in trace && Forced(a) == Some(exit)
    ensures pc.Unserved? ==> exit == NoHealthyInstance
    decreases |trace|
  {
    if trace != [] {
      var next := Settle(Advance(idempotent, pc, trace[0]).value);
      ForcedFrom(idempotent, next, trace[1..], exit);
      if a :| a in trace[1..] && Forced(a) == Some(exit) {
        assert a in trace;
      } else if next.Unserved? || next.Finished? {
        ForcedNow(idempotent, pc, trace[0]);
        assert trace[0] in trace;
      }
      assert trace == [trace[0]] + trace[1..];
    }
  }

  /** Any other exit is forced by a refusal, a deadline, a missing instance or a cancellation, and each forces it. */
  lemma OthersAreForced(idempotent: bool, trace: seq<Action>, exit: Exit)
    requires Follow(idempotent, Start, trace) == Some(Finished(exit))
    ensures forall a :: a in trace && Forced(a).Some? ==> Forced(a) == Some(exit)
    ensures exit != Succeeded && !exit.UpstreamFailed? ==> exists a :: a in trace && Forced(a) == Some(exit)
  {
    ForcedFrom(idempotent, Start, trace, exit);
    CallAccounting(idempotent, trace, exit);
  }

  // ----- methods that may be retried -----

  predicate Idempotent(httpMethod: string, idempotencyKey: string) {
    httpMethod in ["GET", "HEAD", "OPTIONS", "PUT", "DELETE"] ||
    (httpMethod in ["POST", "PATCH"] && idempotencyKey != "")
  }
}
