/**
 Hot reload (internal/runtime/reloader.go, internal/runtime/runtime.go): one reloader builds, swaps and
 retires runtimes while any number of requests hold the runtime they captured.
 */
module Reloading {
  import opened Common
  import opened GatewayConfig
  import RB = RuntimeBuilding

  /** Nanoseconds a retired runtime is left alive (internal/config/loader.go:25). */
  const DRAIN_WINDOW: int := 30_000_000_000

  // ----- the protocol, one atomic step at a time -----

  /** Where the reloader is; the attempt in progress has the number of the version counter. */
  datatype Phase = Idle | Building | Ready | Retiring(outgoing: nat)

  /** A goroutine closing a retired runtime once the window after `since` has passed. */
  datatype Timer = Timer(runtime: nat, since: int, fired: bool)

  /** A request in flight: the runtime it captured and when. */
  datatype Holding = Holding(runtime: nat, got: int)

  /**
   Runtimes are numbered by the reload attempt that built them, the initial one 0. `installed` lists
   those that ever became current, in order; `timers` the goroutines started, in order.
   */
  datatype State = State(
    now: int, attempts: nat, phase: Phase, installed: seq<nat>, timers: seq<Timer>, held: map<nat, Holding>)

  datatype Event =
    | Tick(t: int)
    | Get(request: nat)
    | Finish(request: nat)
    | Begin
    | BuildFails
    | BuildSucceeds
    | Swap
    | Retire
    | Close(timer: nat)

  function Initial(now: int): State {
    State(now, 0, Idle, [0], [], map[])
  }

  function Current(s: State): nat
    requires |s.installed| > 0
  {
    s.installed[|s.installed| - 1]
  }

  predicate Enabled(s: State, e: Event) {
    |s.installed| > 0 &&
    match e
    case Tick(t) => s.now <= t
    case Get(r) => r !in s.held
    case Finish(r) => r in s.held
    case Begin => s.phase.Idle?
    case BuildFails => s.phase.Building?
    case BuildSucceeds => s.phase.Building?
    case Swap => s.phase.Ready?
    case Retire => s.phase.Retiring?
    case Close(k) => k < |s.timers| && !s.timers[k].fired && s.timers[k].since + DRAIN_WINDOW <= s.now
  }

  function Step(s: State, e: Event): State
    requires Enabled(s, e)
  {
    match e
    case Tick(t) => s.(now := t)
    case Get(r) => s.(held := s.held[r := Holding(Current(s), s.now)])
    case Finish(r) => s.(held := s.held - {r})
    case Begin => s.(attempts := s.attempts + 1, phase := Building)
    case BuildFails => s.(phase := Idle)
    case BuildSucceeds => s.(phase := Ready)
    case Swap => s.(installed := s.installed + [s.attempts], phase := Retiring(Current(s)))
    case Retire => s.(timers := s.timers + [Timer(s.phase.outgoing, s.now, false)], phase := Idle)
    case Close(k) => s.(timers := s.timers[k := s.timers[k].(fired := true)])
  }

  predicate Possible(s: State, es: seq<Event>)
    decreases |es|
  {
    es == [] || (Enabled(s, es[0]) && Possible(Step(s, es[0]), es[1..]))
  }

  function After(s: State, es: seq<Event>): State
    requires Possible(s, es)
    decreases |es|
  {
    if es == [] then s else After(Step(s, es[0]), es[1..])
  }

  // ----- what every run keeps -----

  predicate Closed(s: State, runtime: nat) {
    exists k :: 0 <= k < |s.timers| && s.timers[k].fired && s.timers[k].runtime == runtime
  }

  predicate Increasing(xs: seq<nat>) {
    forall i, j :: 0 <= i < j < |xs| ==> xs[i] < xs[j]
  }

  /** Attempts are installed in order; timer k retires the k-th installed runtime, never the current one. */
  predicate Retired(s: State) {
    && |s.installed| > 0 && s.installed[0] == 0 && Increasing(s.installed)
    && Current(s) <= s.attempts && ((s.phase.Building? || s.phase.Ready?) ==> Current(s) < s.attempts)
    && |s.installed| == |s.timers| + (if s.phase.Retiring? then 2 else 1)
    && (s.phase.Retiring? ==> s.phase.outgoing == s.installed[|s.installed| - 2])
    && (forall k :: 0 <= k < |s.timers| ==> s.timers[k].runtime == s.installed[k])
  }

  /** A timer that fired waited out the window, which began after every capture of its runtime. */
  predicate Drained(s: State) {
    && (forall k :: 0 <= k < |s.timers| && s.timers[k].fired ==> s.timers[k].since + DRAIN_WINDOW <= s.now)
    && (forall r :: r in s.held ==> s.held[r].got <= s.now)
    && (forall r, k :: r in s.held && 0 <= k < |s.timers| && s.timers[k].runtime == s.held[r].runtime ==>
        s.held[r].got <= s.timers[k].since)
  }

  lemma CurrentHasNoTimer(s: State, k: nat)
    requires Retired(s) && k < |s.timers|
    ensures s.timers[k].runtime != Current(s)
  {
  }

  lemma StepKeepsRetired(s: State, e: Event)
    requires Retired(s) && Enabled(s, e)
    ensures Retired(Step(s, e))
  {
  }

  lemma StepKeepsDrained(s: State, e: Event)
    requires Retired(s) && Drained(s) && Enabled(s, e)
    ensures Drained(Step(s, e))
  {
    if e.Get? {
      forall k | 0 <= k < |s.timers| ensures s.timers[k].runtime != Current(s) {
        CurrentHasNoTimer(s, k);
      }
    }
  }

  lemma {:induction false} RunKeepsInvariants(s: State, es: seq<Event>)
    requires Retired(s) && Drained(s) && Possible(s, es)
    ensures Retired(After(s, es)) && Drained(After(s, es))
    decreases |es|
  {
    if es != [] {
      StepKeepsRetired(s, es[0]);
      StepKeepsDrained(s, es[0]);
      RunKeepsInvariants(Step(s, es[0]), es[1..]);
    }
  }

  /**
   In every interleaving of requests, reloads and delayed closes: no request younger than the window
   holds a closed runtime, the current runtime is not closed, and no runtime is closed twice.
   */
  lemma DrainingIsSafe(start: int, es: seq<Event>)
    requires Possible(Initial(start), es)
    ensures var s := After(Initial(start), es);
            && (forall r :: r in s.held && s.now < s.held[r].got + 30_000_000_000 ==> !Closed(s, s.held[r].runtime))
            && |s.installed| > 0 && !Closed(s, Current(s))
            && (forall j, k :: 0 <= j < k < |s.timers| ==> s.timers[j].runtime != s.timers[k].runtime)
  {
    RunKeepsInvariants(Initial(start), es);
  }

  lemma Unfold(s: State, e: Event, rest: seq<Event>)
    requires Enabled(s, e) && Possible(Step(s, e), rest)
    ensures Possible(s, [e] + rest) && After(s, [e] + rest) == After(Step(s, e), rest)
  {
    assert ([e] + rest)[1..] == rest;
  }

  // ----- how long requests may live -----

  predicate YoungerThan(s: State, life: int) {
    forall r :: r in s.held ==> s.now - s.held[r].got <= life
  }

  /** At every point of the run, no request in flight is older than `life`. */
  predicate Prompt(s: State, es: seq<Event>, life: int)
    requires Possible(s, es)
    decreases |es|
  {
    YoungerThan(s, life) && (es == [] || Prompt(Step(s, es[0]), es[1..], life))
  }

  predicate NoneHoldsClosed(s: State) {
    forall r :: r in s.held ==> !Closed(s, s.held[r].runtime)
  }

  /** Requests that live at most `life` never hold a closed runtime, whatever the run. */
  ghost predicate SafeFor(life: int) {
    forall start, es :: Possible(Initial(start), es) && Prompt(Initial(start), es, life) ==>
      NoneHoldsClosed(After(Initial(start), es))
  }

  lemma {:induction false} PromptAtTheEnd(s: State, es: seq<Event>, life: int)
    requires Possible(s, es) && Prompt(s, es, life)
    ensures YoungerThan(After(s, es), life)
    decreases |es|
  {
    if es != [] {
      PromptAtTheEnd(Step(s, es[0]), es[1..], life);
    }
  }

  lemma {:induction false} OneMoreEvent(s: State, e: Event, rest: seq<Event>, life: int)
    requires Enabled(s, e) && Possible(Step(s, e), rest) && YoungerThan(s, life) && Prompt(Step(s, e), rest, life)
    ensures Possible(s, [e] + rest) && Prompt(s, [e] + rest, life) && After(s, [e] + rest) == After(Step(s, e), rest)
  {
    Unfold(s, e, rest);
    assert ([e] + rest)[1..] == rest;
  }

  /** A request captures a runtime as it is swapped out and is still there when the window has passed. */
  lemma OutlivedWindow(life: int) returns (es: seq<Event>)
    requires DRAIN_WINDOW <= life
    ensures Possible(Initial(0), es) && Prompt(Initial(0), es, life) && !NoneHoldsClosed(After(Initial(0), es))
  {
    var held := map[0 := Holding(0, 0)];
    var s0, s1 := Initial(0), State(0, 0, Idle, [0], [], held);
    var s2, s3 := State(0, 1, Building, [0], [], held), State(0, 1, Ready, [0], [], held);
    var s4, s5 := State(0, 1, Retiring(0), [0, 1], [], held), State(0, 1, Idle, [0, 1], [Timer(0, 0, false)], held);
    var s6 := State(DRAIN_WINDOW, 1, Idle, [0, 1], [Timer(0, 0, false)], held);
    var s7 := State(DRAIN_WINDOW, 1, Idle, [0, 1], [Timer(0, 0, true)], held);
    assert Step(s0, Get(0)) == s1 && Step(s1, Begin) == s2 && Step(s2, BuildSucceeds) == s3;
    assert Step(s3, Swap) == s4 && Step(s4, Retire) == s5;
    assert Step(s5, Tick(DRAIN_WINDOW)) == s6 && Step(s6, Close(0)) == s7;
    es := [];
    OneMoreEvent(s6, Close(0), es, life);
    es := [Close(0)] + es;
    OneMoreEvent(s5, Tick(DRAIN_WINDOW), es, life);
    es := [Tick(DRAIN_WINDOW)] + es;
    OneMoreEvent(s4, Retire, es, life);
    es := [Retire] + es;
    OneMoreEvent(s3, Swap, es, life);
    es := [Swap] + es;
    OneMoreEvent(s2, BuildSucceeds, es, life);
    es := [BuildSucceeds] + es;
    OneMoreEvent(s1, Begin, es, life);
    es := [Begin] + es;
    OneMoreEvent(s0, Get(0), es, life);
    es := [Get(0)] + es;
    assert s7.timers[0].fired && s7.held[0].runtime == 0;
  }

  /** The window protects requests exactly when they live strictly less: at equality the close may come first. */
  lemma DrainCharacterised(life: int)
    ensures SafeFor(life) <==> life < 30_000_000_000
  {
    if life < DRAIN_WINDOW {
      forall start, es | Possible(Initial(start), es) && Prompt(Initial(start), es, life)
        ensures NoneHoldsClosed(After(Initial(start), es))
      {
        DrainingIsSafe(start, es);
        PromptAtTheEnd(Initial(start), es, life);
      }
    } else {
      var es := OutlivedWindow(life);
    }
  }

  // ----- versions -----

  /** The numbers of the attempts that reached their swap. */
  function Swapped(attempts: nat, es: seq<Event>): seq<nat>
    decreases |es|
  {
    if es == [] then []
    else
      match es[0]
      case Begin => Swapped(attempts + 1, es[1..])
      case Swap => [attempts] + Swapped(attempts, es[1..])
      case _ => Swapped(attempts, es[1..])
  }

  /** What was installed is exactly the attempts that were swapped in; a failed build only uses up its number. */
  lemma {:induction false} InstalledAreSwapped(s: State, es: seq<Event>)
    requires Possible(s, es)
    ensures After(s, es).installed == s.installed + Swapped(s.attempts, es)
    decreases |es|
  {
    if es != [] {
      InstalledAreSwapped(Step(s, es[0]), es[1..]);
    }
  }

  /** Version of a runtime: its attempt number, except that the initial runtime was given its version elsewhere. */
  function Version(first: nat, runtime: nat): nat {
    if runtime == 0 then first else runtime
  }

  predicate VersionsIncrease(first: nat, installed: seq<nat>) {
    forall i, j :: 0 <= i < j < |installed| ==> Version(first, installed[i]) < Version(first, installed[j])
  }

  /** Among reloads the installed version strictly increases in every run. */
  lemma ReloadedVersionsIncrease(start: int, es: seq<Event>, first: nat)
    requires Possible(Initial(start), es)
    ensures var installed := After(Initial(start), es).installed;
            |installed| > 0 && installed[0] == 0 && VersionsIncrease(first, installed[1..])
  {
    RunKeepsInvariants(Initial(start), es);
  }

  lemma FirstReload(start: int)
    ensures Possible(Initial(start), [Begin, BuildSucceeds, Swap])
    ensures After(Initial(start), [Begin, BuildSucceeds, Swap]).installed == [0, 1]
  {
    var s1 := Step(Initial(start), Begin);
    var s2 := Step(s1, BuildSucceeds);
    Unfold(s2, Swap, []);
    Unfold(s1, BuildSucceeds, [Swap] + []);
    Unfold(Initial(start), Begin, [BuildSucceeds] + ([Swap] + []));
    assert [Begin] + ([BuildSucceeds] + ([Swap] + [])) == [Begin, BuildSucceeds, Swap];
  }

  /** Over the initial runtime as well it increases in every run exactly when that one was given version 0. */
  lemma VersionsCharacterised(first: nat)
    ensures (forall start, es ::
               Possible(Initial(start), es) ==> VersionsIncrease(first, After(Initial(start), es).installed))
       <==> first == 0
  {
    if first == 0 {
      forall start, es | Possible(Initial(start), es)
        ensures VersionsIncrease(first, After(Initial(start), es).installed)
      {
        RunKeepsInvariants(Initial(start), es);
      }
    } else {
      FirstReload(0);
      assert !VersionsIncrease(first, [0, 1]) by {
        assert Version(first, [0, 1][0]) >= Version(first, [0, 1][1]);
      }
    }
  }

  // ----- the reloader as it runs -----

  class GatewayRuntime {
    const built: RB.GatewayRuntime
    /** How often each route's chain was torn down. */
    var closes: map<string, nat>

    constructor (built: RB.GatewayRuntime)
      ensures this.built == built && ClosedTimes(0)
    {
      this.built := built;
      closes := map id | id in built.chains :: 0;
    }

    ghost predicate ClosedTimes(n: nat)
      reads this
    {
      closes == map id | id in built.chains :: n
    }

    /** Closes every chain. */
    method Close()
      modifies this
      ensures forall n: nat :: old(ClosedTimes(n)) ==> ClosedTimes(n + 1)
      ensures closes.Keys == old(closes.Keys) && forall id :: id in closes ==> closes[id] == old(closes[id]) + 1
    {
      var pending := closes.Keys;
      while pending != {}
        invariant pending <= closes.Keys == old(closes.Keys)
        invariant forall id :: id in closes ==> closes[id] == old(closes[id]) + if id in pending then 0 else 1
        decreases |pending|
      {
        var id :| id in pending;
        closes := closes[id := closes[id] + 1];
        pending := pending - {id};
      }
    }
  }

  class RuntimeHolder {
    var current: GatewayRuntime

    constructor (initial: GatewayRuntime)
      ensures current == initial
    {
      current := initial;
    }

    method Get() returns (rt: GatewayRuntime)
      ensures rt == current
    {
      rt := current;
    }

    method Swap(rt: GatewayRuntime) returns (outgoing: GatewayRuntime)
      modifies this
      ensures current == rt && outgoing == old(current)
    {
      outgoing := current;
      current := rt;
    }
  }

  /** A goroutine sleeping out the window of a retired runtime. */
  datatype Retirement = Retirement(runtime: GatewayRuntime, since: int, fired: bool)

  /** The steps of one uninterrupted reload. */
  function ReloadSteps(succeeds: bool): seq<Event> {
    if succeeds then [Begin, BuildSucceeds, Swap, Retire] else [Begin, BuildFails]
  }

  function Reloaded(s: State, succeeds: bool): State
    requires |s.installed| > 0
  {
    if succeeds then
      s.(attempts := s.attempts + 1, installed := s.installed + [s.attempts + 1],
         timers := s.timers + [Timer(Current(s), s.now, false)])
    else s.(attempts := s.attempts + 1)
  }

  lemma ReloadIsItsSteps(s: State, succeeds: bool)
    requires s.phase.Idle? && |s.installed| > 0
    ensures Possible(s, ReloadSteps(succeeds)) && After(s, ReloadSteps(succeeds)) == Reloaded(s, succeeds)
  {
    var s1 := Step(s, Begin);
    if succeeds {
      var s2 := Step(s1, BuildSucceeds);
      var s3 := Step(s2, Swap);
      Unfold(s3, Retire, []);
      Unfold(s2, Swap, [Retire] + []);
      Unfold(s1, BuildSucceeds, [Swap] + ([Retire] + []));
      Unfold(s, Begin, [BuildSucceeds] + ([Swap] + ([Retire] + [])));
      assert [Begin] + ([BuildSucceeds] + ([Swap] + ([Retire] + []))) == ReloadSteps(true);
    } else {
      Unfold(s1, BuildFails, []);
      Unfold(s, Begin, [BuildFails] + []);
      assert [Begin] + ([BuildFails] + []) == ReloadSteps(false);
    }
  }

  /** Attempt numbers of runtimes in the order they were installed. */
  ghost function Numbers(installed: seq<GatewayRuntime>): (numbers: seq<nat>)
    ensures |numbers| == |installed|
  {
    seq(|installed|, i requires 0 <= i < |installed| => if i == 0 then 0 else installed[i].built.version)
  }

  ghost function Timers(numbers: seq<nat>, retirements: seq<Retirement>): (timers: seq<Timer>)
    requires |retirements| <= |numbers|
    ensures |timers| == |retirements|
  {
    seq(|retirements|, k requires 0 <= k < |retirements| =>
      Timer(numbers[k], retirements[k].since, retirements[k].fired))
  }

  /** The protocol state that a reloader's fields stand for between two reloads. */
  ghost function StateOf(
      now: int, attempts: nat, installed: seq<GatewayRuntime>, retirements: seq<Retirement>, held: map<nat, Holding>)
        : State
    requires |installed| == |retirements| + 1
  {
    State(now, attempts, Idle, Numbers(installed), Timers(Numbers(installed), retirements), held)
  }

  lemma InstallingIsReloading(
      now: int, attempts: nat, installed: seq<GatewayRuntime>, retirements: seq<Retirement>, held: map<nat, Holding>,
      rt: GatewayRuntime)
    requires |installed| == |retirements| + 1 && rt.built.version == attempts + 1
    ensures var last := Retirement(installed[|retirements|], now, false);
            StateOf(now, attempts + 1, installed + [rt], retirements + [last], held)
            == Reloaded(StateOf(now, attempts, installed, retirements, held), true)
  {
    assert Numbers(installed + [rt]) == Numbers(installed) + [rt.built.version];
  }

  class Reloader {
    const holder: RuntimeHolder
    const registry: RB.Registry
    var versionCount: nat
    var retirements: seq<Retirement>
    ghost var installed: seq<GatewayRuntime>

    constructor (holder: RuntimeHolder, registry: RB.Registry)
      requires holder.current.ClosedTimes(0)
      ensures this.holder == holder && this.registry == registry && Valid()
      ensures forall now :: Protocol(now, map[]) == Initial(now)
    {
      this.holder, this.registry := holder, registry;
      versionCount, retirements, installed := 0, [], [holder.current];
    }

    /** Each runtime's chains were closed once if its goroutine fired and not at all otherwise. */
    ghost predicate Valid()
      reads this, holder, installed
    {
      && |installed| == |retirements| + 1 && holder.current == installed[|retirements|]
      && (forall i, j :: 0 <= i < j < |installed| ==> installed[i] != installed[j])
      && (forall k :: 0 <= k < |retirements| ==>
          retirements[k].runtime == installed[k] && installed[k].ClosedTimes(if retirements[k].fired then 1 else 0))
      && holder.current.ClosedTimes(0)
    }

    /** The protocol state these fields stand for, at a given time and with given requests in flight. */
    ghost function Protocol(now: int, held: map<nat, Holding>): State
      reads this
      requires |installed| == |retirements| + 1
    {
      StateOf(now, versionCount, installed, retirements, held)
    }

    /** The runtime of the current attempt, or the build's error. */
    method Attempt(t: Text, cfg: Config)
      returns (built: Result<GatewayRuntime, RB.BuildError>, ghost rs: seq<RB.Routing.Route>)
      ensures built.Ok? <==> RB.Buildable(t, cfg, RB.CatalogueOf(cfg.plugins, registry.factories))
      ensures built.Ok? ==> fresh(built.value) && built.value.ClosedTimes(0)
      ensures built.Ok? ==> built.value.built.version == versionCount
      ensures built.Ok? ==> RB.RuntimeOf(t, cfg, RB.CatalogueOf(cfg.plugins, registry.factories), rs, built.value.built)
    {
      var value;
      value, rs := RB.Build(t, cfg, registry, versionCount);
      if value.Err? {
        return Err(value.error), rs;
      }
      var rt := new GatewayRuntime(value.value);
      return Ok(rt), rs;
    }

    /** Swaps in the runtime of the current attempt and starts the goroutine that will close the outgoing one. */
    method Install(newRuntime: GatewayRuntime, now: int)
      requires Valid() && newRuntime !in installed && newRuntime.ClosedTimes(0)
      modifies this, holder
      ensures Valid() && holder.current == newRuntime && versionCount == old(versionCount)
      ensures installed == old(installed) + [newRuntime]
      ensures retirements == old(retirements) + [Retirement(old(holder.current), now, false)]
    {
      var outgoing := holder.Swap(newRuntime);
      installed := installed + [newRuntime];
      retirements := retirements + [Retirement(outgoing, now, false)];
    }

    /**
     One reload at time `now`: the protocol's steps, whatever requests are in flight, and the new runtime
     is one built from the configuration; when the build fails the current runtime stays.
     */
    method ApplyReload(t: Text, cfg: Config, now: int, ghost held: map<nat, Holding>)
      returns (succeeded: bool, ghost rs: seq<RB.Routing.Route>)
      requires Valid()
      modifies this, holder
      ensures Valid()
      ensures succeeded <==> RB.Buildable(t, cfg, RB.CatalogueOf(cfg.plugins, registry.factories))
      ensures Protocol(now, held) == Reloaded(old(Protocol(now, held)), succeeded)
      ensures !succeeded ==> holder.current == old(holder.current)
      ensures succeeded ==> fresh(holder.current) && holder.current.built.version == versionCount
      ensures succeeded ==>
        RB.RuntimeOf(t, cfg, RB.CatalogueOf(cfg.plugins, registry.factories), rs, holder.current.built)
    {
      ghost var before, was, timers := versionCount, installed, retirements;
      versionCount := versionCount + 1;
      var built;
      built, rs := Attempt(t, cfg);
      if built.Err? {
        return false, rs;
      }
      InstallingIsReloading(now, before, was, timers, held, built.value);
      Install(built.value, now);
      return true, rs;
    }

    /** A goroutine whose sleep is over closes its runtime. */
    method Wake(k: nat, now: int, ghost held: map<nat, Holding>)
      requires Valid() && k < |retirements| && !retirements[k].fired && retirements[k].since + DRAIN_WINDOW <= now
      modifies this, retirements[k].runtime
      ensures Valid() && holder.current == old(holder.current)
      ensures Enabled(old(Protocol(now, held)), Close(k))
      ensures Protocol(now, held) == Step(old(Protocol(now, held)), Close(k))
    {
      retirements[k].runtime.Close();
      retirements := retirements[k := retirements[k].(fired := true)];
    }
  }
}
