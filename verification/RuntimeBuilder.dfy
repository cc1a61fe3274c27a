/**
 Plugin construction and runtime assembly (internal/plugin/registry.go, internal/runtime/builder.go),
 and what a runtime built from a validated configuration guarantees.
 */
module RuntimeBuilding {
  import opened Common
  import opened GatewayConfig
  import opened Routing
  import Sorting
  import Validation

  /** A constructed plugin, as far as anything here can tell plugins apart. */
  datatype Plugin = Plugin(typeName: string, settings: string)

  /** A factory may refuse its settings. */
  type Factory = string -> Option<Plugin>

  datatype BuildError =
    | PatternError(path: string)
    | NoTypeMapping(plugin: string)
    | NotRegistered(typeName: string)
    | FactoryError(plugin: string)

  datatype GatewayRuntime = GatewayRuntime(version: nat, router: Router, chains: map<string, seq<Plugin>>)

  /** What construction depends on: the type each plugin name stands for, and the factory of each type. */
  datatype Catalogue = Catalogue(types: map<string, string>, factories: map<string, Factory>)

  // ----- one chain -----

  /** Plugin name to type after n definitions; a name defined twice takes its last type. */
  function Types(defs: seq<PluginDef>, n: nat): map<string, string>
    requires n <= |defs|
  {
    if n == 0 then map[] else Types(defs, n - 1)[defs[n - 1].name := defs[n - 1].typeName]
  }

  function CatalogueOf(defs: seq<PluginDef>, factories: map<string, Factory>): Catalogue {
    Catalogue(Types(defs, |defs|), factories)
  }

  function Construct(c: Catalogue, ref: PluginRef): Result<Plugin, BuildError> {
    if ref.name !in c.types then Err(NoTypeMapping(ref.name))
    else if c.types[ref.name] !in c.factories then Err(NotRegistered(c.types[ref.name]))
    else
      var made := c.factories[c.types[ref.name]](ref.settings);
      if made.None? then Err(FactoryError(ref.name)) else Ok(made.value)
  }

  /** Definition i is the last of the first n with the name. */
  predicate LastNamed(defs: seq<PluginDef>, n: nat, name: string, i: nat) {
    i < n <= |defs| && defs[i].name == name && forall j :: i < j < n ==> defs[j].name != name
  }

  /** The type the name was last given. */
  ghost predicate TypeNamed(defs: seq<PluginDef>, n: nat, name: string, ty: string) {
    exists i: nat :: LastNamed(defs, n, name, i) && defs[i].typeName == ty
  }

  lemma {:induction false} TypesHoldLast(defs: seq<PluginDef>, n: nat, name: string, ty: string)
    requires n <= |defs|
    ensures TypeNamed(defs, n, name, ty) <==> name in Types(defs, n) && Types(defs, n)[name] == ty
    ensures name !in Types(defs, n) <==> forall i :: 0 <= i < n ==> defs[i].name != name
  {
    if n > 0 {
      TypesHoldLast(defs, n - 1, name, ty);
      if defs[n - 1].name == name {
        assert LastNamed(defs, n, name, n - 1);
      } else {
        if TypeNamed(defs, n, name, ty) {
          var i: nat :| LastNamed(defs, n, name, i) && defs[i].typeName == ty;
          assert LastNamed(defs, n - 1, name, i);
        }
        if TypeNamed(defs, n - 1, name, ty) {
          var i: nat :| LastNamed(defs, n - 1, name, i) && defs[i].typeName == ty;
          assert LastNamed(defs, n, name, i);
        }
      }
    }
  }

  /** What the factory of the type last defined for the reference's name makes of the reference's settings. */
  ghost predicate Makes(defs: seq<PluginDef>, factories: map<string, Factory>, ref: PluginRef, plugin: Plugin) {
    exists ty :: TypeNamed(defs, |defs|, ref.name, ty) && ty in factories && factories[ty](ref.settings) == Some(plugin)
  }

  /** Why it is refused: no definition, no factory of the type last defined, or settings that factory refuses. */
  ghost predicate Refuses(defs: seq<PluginDef>, factories: map<string, Factory>, ref: PluginRef, error: BuildError) {
    match error
    case NoTypeMapping(plugin) => plugin == ref.name && forall i :: 0 <= i < |defs| ==> defs[i].name != ref.name
    case NotRegistered(ty) => TypeNamed(defs, |defs|, ref.name, ty) && ty !in factories
    case FactoryError(plugin) =>
      plugin == ref.name &&
      exists ty :: TypeNamed(defs, |defs|, ref.name, ty) && ty in factories && factories[ty](ref.settings) == None
    case PatternError(_) => false
  }

  /** Construction makes exactly that plugin, and refuses for exactly that reason. */
  lemma ConstructExact(
      defs: seq<PluginDef>, factories: map<string, Factory>, ref: PluginRef, out: Result<Plugin, BuildError>)
    ensures Construct(CatalogueOf(defs, factories), ref) == out <==>
            if out.Ok? then Makes(defs, factories, ref, out.value) else Refuses(defs, factories, ref, out.error)
  {
    forall ty ensures TypeNamed(defs, |defs|, ref.name, ty) <==>
      ref.name in Types(defs, |defs|) && Types(defs, |defs|)[ref.name] == ty
    {
      TypesHoldLast(defs, |defs|, ref.name, ty);
    }
    TypesHoldLast(defs, |defs|, ref.name, "");
  }

  /** A chain over an order-ascending arrangement of the references, each plugin made from its own reference. */
  ghost predicate MadeInOrder(
      defs: seq<PluginDef>, factories: map<string, Factory>, refs: seq<PluginRef>, sorted: seq<PluginRef>,
      chain: seq<Plugin>) {
    && multiset(sorted) == multiset(refs) && |chain| == |refs| == |sorted|
    && (forall i, j :: 0 <= i < j < |sorted| ==> sorted[i].order <= sorted[j].order)
    && (forall k :: 0 <= k < |sorted| ==> Makes(defs, factories, sorted[k], chain[k]))
  }

  lemma ChainIsMade(
      defs: seq<PluginDef>, factories: map<string, Factory>, refs: seq<PluginRef>, sorted: seq<PluginRef>,
      chain: seq<Plugin>)
    requires Sorting.Arranged(sorted, refs, Order) && ChainInOrder(CatalogueOf(defs, factories), sorted, chain)
    ensures MadeInOrder(defs, factories, refs, sorted, chain)
  {
    Sorting.SameElements(sorted, refs);
    forall k | 0 <= k < |sorted| ensures Makes(defs, factories, sorted[k], chain[k]) {
      ConstructExact(defs, factories, sorted[k], Ok(chain[k]));
    }
    forall i, j | 0 <= i < j < |sorted| ensures sorted[i].order <= sorted[j].order {
      assert Order(sorted[i]) <= Order(sorted[j]);
    }
  }

  predicate Constructible(c: Catalogue, ref: PluginRef) {
    Construct(c, ref).Ok?
  }

  predicate AllConstructible(c: Catalogue, refs: seq<PluginRef>) {
    forall r :: r in refs ==> Constructible(c, r)
  }

  /** The plugins of the references, in the references' order. */
  predicate ChainInOrder(c: Catalogue, refs: seq<PluginRef>, chain: seq<Plugin>) {
    |chain| == |refs| && forall k :: 0 <= k < |refs| ==> Construct(c, refs[k]) == Ok(chain[k])
  }

  /** A chain over some order-ascending arrangement of the references. */
  ghost predicate ChainOf(c: Catalogue, refs: seq<PluginRef>, chain: seq<Plugin>) {
    exists sorted :: Sorting.Arranged(sorted, refs, Order) && ChainInOrder(c, sorted, chain)
  }

  /** The registry of plugin types. */
  class Registry {
    var factories: map<string, Factory>

    constructor ()
      ensures factories == map[]
    {
      factories := map[];
    }

    /** Adds a type; a second registration is refused and replaces nothing. */
    method Register(typeName: string, f: Factory) returns (registered: bool)
      modifies this
      ensures registered <==> typeName !in old(factories)
      ensures factories == if registered then old(factories)[typeName := f] else old(factories)
    {
      if typeName in factories {
        return false;
      }
      factories := factories[typeName := f];
      return true;
    }

    method CollectTypes(defs: seq<PluginDef>) returns (types: map<string, string>)
      ensures types == Types(defs, |defs|)
    {
      types := map[];
      for i := 0 to |defs|
        invariant types == Types(defs, i)
      {
        types := types[defs[i].name := defs[i].typeName];
      }
    }

    /** Resolves, constructs and orders a route's plugins; fails exactly when one of them cannot be constructed. */
    method Build(defs: seq<PluginDef>, refs: seq<PluginRef>) returns (built: Result<seq<Plugin>, BuildError>)
      ensures built.Ok? <==> AllConstructible(CatalogueOf(defs, factories), refs)
      ensures built.Ok? ==> ChainOf(CatalogueOf(defs, factories), refs, built.value)
      ensures built.Err? ==> exists r :: r in refs && Construct(CatalogueOf(defs, factories), r) == Err(built.error)
      ensures built.Ok? ==> exists sorted :: MadeInOrder(defs, factories, refs, sorted, built.value)
      ensures built.Err? ==> exists r :: r in refs && Refuses(defs, factories, r, built.error)
    {
      var types := CollectTypes(defs);
      var sorted := Sorting.SortBy(refs, Order);
      Sorting.SameElements(sorted, refs);
      built := BuildInOrder(Catalogue(types, factories), sorted);
      if built.Ok? {
        ChainIsMade(defs, factories, refs, sorted, built.value);
      } else {
        var r :| r in refs && Construct(CatalogueOf(defs, factories), r) == Err(built.error);
        ConstructExact(defs, factories, r, Err(built.error));
      }
    }
  }

  method BuildInOrder(c: Catalogue, sorted: seq<PluginRef>) returns (built: Result<seq<Plugin>, BuildError>)
    ensures built.Ok? <==> AllConstructible(c, sorted)
    ensures built.Ok? ==> ChainInOrder(c, sorted, built.value)
    ensures built.Err? ==> exists r :: r in sorted && Construct(c, r) == Err(built.error)
  {
    var plugins: seq<Plugin> := [];
    for i := 0 to |sorted|
      invariant |plugins| == i
      invariant forall k :: 0 <= k < i ==> Construct(c, sorted[k]) == Ok(plugins[k])
    {
      var p := Construct(c, sorted[i]);
      if p.Err? {
        assert sorted[i] in sorted;
        return Err(p.error);
      }
      plugins := plugins + [p.value];
    }
    built := Ok(plugins);
  }

  // ----- the runtime -----

  /** No later one of the first n routes carries the id of route i. */
  predicate LastOfItsId(routes: seq<RouteConfig>, n: nat, i: nat)
    requires i < n <= |routes|
  {
    forall j :: i < j < n ==> routes[j].id != routes[i].id
  }

  /** Chains for the ids of the first n routes and no others, each built from the last route that carries the id. */
  ghost predicate ChainsOf(c: Catalogue, routes: seq<RouteConfig>, n: nat, chains: map<string, seq<Plugin>>)
    requires n <= |routes|
  {
    && (forall id :: id in chains ==> exists i :: 0 <= i < n && routes[i].id == id)
    && (forall i :: 0 <= i < n && LastOfItsId(routes, n, i) ==>
        routes[i].id in chains && ChainOf(c, routes[i].plugins, chains[routes[i].id]))
  }

  predicate PluginsConstructible(c: Catalogue, routes: seq<RouteConfig>, n: nat)
    requires n <= |routes|
  {
    forall i :: 0 <= i < n ==> AllConstructible(c, routes[i].plugins)
  }

  predicate Buildable(t: Text, cfg: Config, c: Catalogue) {
    PatternsCompile(t, cfg.routes) && PluginsConstructible(c, cfg.routes, |cfg.routes|)
  }

  /** A runtime assembled from the configuration, whatever the sorts did with equal keys. */
  ghost predicate RuntimeOf(t: Text, cfg: Config, c: Catalogue, rs: seq<Route>, rt: GatewayRuntime) {
    AllBuiltFrom(t, cfg.routes, rs) && RouterOf(rs, rt.router) && ChainsOf(c, cfg.routes, |cfg.routes|, rt.chains)
  }

  lemma ChainOfRearranged(c: Catalogue, refs: seq<PluginRef>, sorted: seq<PluginRef>, chain: seq<Plugin>)
    requires Sorting.Arranged(sorted, refs, Order) && ChainOf(c, sorted, chain)
    ensures ChainOf(c, refs, chain)
  {
    var again :| Sorting.Arranged(again, sorted, Order) && ChainInOrder(c, again, chain);
    assert Sorting.Arranged(again, refs, Order);
  }

  lemma ChainsGrow(c: Catalogue, routes: seq<RouteConfig>, n: nat, chains: map<string, seq<Plugin>>, chain: seq<Plugin>)
    requires n < |routes| && ChainsOf(c, routes, n, chains) && ChainOf(c, routes[n].plugins, chain)
    ensures ChainsOf(c, routes, n + 1, chains[routes[n].id := chain])
  {
    var grown := chains[routes[n].id := chain];
    forall i | 0 <= i < n + 1 && LastOfItsId(routes, n + 1, i)
      ensures routes[i].id in grown && ChainOf(c, routes[i].plugins, grown[routes[i].id])
    {
      if i < n {
        assert LastOfItsId(routes, n, i);
      }
    }
  }

  /** Some configured reference is refused with this error. */
  ghost predicate FailedReference(c: Catalogue, routes: seq<RouteConfig>, error: BuildError) {
    exists i, r :: 0 <= i < |routes| && r in routes[i].plugins && Construct(c, r) == Err(error)
  }

  /** One route's outcome: a chain exactly when every plugin can be constructed, else one reference's error. */
  ghost predicate ChainOutcome(c: Catalogue, refs: seq<PluginRef>, one: Result<seq<Plugin>, BuildError>) {
    && (one.Ok? <==> AllConstructible(c, refs))
    && (one.Ok? ==> ChainOf(c, refs, one.value))
    && (one.Err? ==> exists r :: r in refs && Construct(c, r) == Err(one.error))
  }

  ghost predicate ChainsOutcome(
      c: Catalogue, routes: seq<RouteConfig>, built: Result<map<string, seq<Plugin>>, BuildError>)
  {
    && (built.Ok? <==> PluginsConstructible(c, routes, |routes|))
    && (built.Ok? ==> ChainsOf(c, routes, |routes|, built.value))
    && (built.Err? ==> FailedReference(c, routes, built.error))
  }

  /** Sorts the references, then has the registry build them, which sorts again. */
  method BuildOneChain(defs: seq<PluginDef>, registry: Registry, plugins: seq<PluginRef>)
    returns (one: Result<seq<Plugin>, BuildError>)
    ensures ChainOutcome(CatalogueOf(defs, registry.factories), plugins, one)
  {
    var refs := Sorting.SortBy(plugins, Order);
    Sorting.SameElements(refs, plugins);
    one := registry.Build(defs, refs);
    if one.Ok? {
      ChainOfRearranged(CatalogueOf(defs, registry.factories), plugins, refs, one.value);
    }
  }

  lemma OneChainFails(c: Catalogue, routes: seq<RouteConfig>, n: nat, one: Result<seq<Plugin>, BuildError>)
    requires n < |routes| && ChainOutcome(c, routes[n].plugins, one) && one.Err?
    ensures ChainsOutcome(c, routes, Err(one.error))
  {
    var r :| r in routes[n].plugins && Construct(c, r) == Err(one.error);
    assert !Constructible(c, r);
  }

  lemma OneChainAdded(
      c: Catalogue, routes: seq<RouteConfig>, n: nat,
      chains: map<string, seq<Plugin>>, one: Result<seq<Plugin>, BuildError>)
    requires n < |routes| && ChainOutcome(c, routes[n].plugins, one) && one.Ok?
    requires PluginsConstructible(c, routes, n) && ChainsOf(c, routes, n, chains)
    ensures PluginsConstructible(c, routes, n + 1) && ChainsOf(c, routes, n + 1, chains[routes[n].id := one.value])
  {
    ChainsGrow(c, routes, n, chains, one.value);
  }

  method BuildChains(defs: seq<PluginDef>, registry: Registry, routes: seq<RouteConfig>)
    returns (built: Result<map<string, seq<Plugin>>, BuildError>)
    ensures ChainsOutcome(CatalogueOf(defs, registry.factories), routes, built)
  {
    var chains: map<string, seq<Plugin>> := map[];
    ghost var c := CatalogueOf(defs, registry.factories);
    for i := 0 to |routes|
      invariant ChainsOf(c, routes, i, chains) && PluginsConstructible(c, routes, i)
    {
      var one := BuildOneChain(defs, registry, routes[i].plugins);
      if one.Err? {
        OneChainFails(c, routes, i, one);
        return Err(one.error);
      }
      OneChainAdded(c, routes, i, chains, one);
      chains := chains[routes[i].id := one.value];
    }
    built := Ok(chains);
  }

  /** A runtime for the configuration; refused exactly when a pattern or a plugin cannot be built. */
  method Build(t: Text, cfg: Config, registry: Registry, version: nat)
    returns (built: Result<GatewayRuntime, BuildError>, ghost rs: seq<Route>)
    ensures built.Ok? <==> Buildable(t, cfg, CatalogueOf(cfg.plugins, registry.factories))
    ensures built.Ok? ==>
      built.value.version == version && RuntimeOf(t, cfg, CatalogueOf(cfg.plugins, registry.factories), rs, built.value)
    ensures built.Err? && PatternsCompile(t, cfg.routes) ==>
      FailedReference(CatalogueOf(cfg.plugins, registry.factories), cfg.routes, built.error)
  {
    var router, routes := New(t, cfg.routes);
    rs := routes;
    if router.Err? {
      return Err(PatternError(router.error.path)), rs;
    }
    var chains := BuildChains(cfg.plugins, registry, cfg.routes);
    if chains.Err? {
      return Err(chains.error), rs;
    }
    built := Ok(GatewayRuntime(version, router.value, chains.value));
  }

  // ----- validated configurations -----

  lemma ArrangementsAgree(refs: seq<PluginRef>, a: seq<PluginRef>, b: seq<PluginRef>)
    requires Sorting.DistinctKeys(refs, Order) && Sorting.Arranged(a, refs, Order) && Sorting.Arranged(b, refs, Order)
    ensures a == b
  {
    Sorting.ArrangementStrict(a, refs, Order);
    Sorting.ArrangementUnique(a, b, Order);
  }

  /** Over references with distinct orders a chain is the one chain in ascending order. */
  lemma ChainIsInOrder(c: Catalogue, refs: seq<PluginRef>, sorted: seq<PluginRef>, chain: seq<Plugin>)
    requires Sorting.DistinctKeys(refs, Order) && Sorting.Arranged(sorted, refs, Order) && ChainOf(c, refs, chain)
    ensures ChainInOrder(c, sorted, chain)
  {
    var own :| Sorting.Arranged(own, refs, Order) && ChainInOrder(c, own, chain);
    ArrangementsAgree(refs, own, sorted);
  }

  lemma ValidRoute(t: Text, cfg: Config, i: nat)
    requires Validation.ValidConfig(t, cfg) && i < |cfg.routes|
    ensures Validation.GoodRoute(t, Validation.AllServiceNames(cfg), Validation.AllPluginNames(cfg), cfg.routes[i])
    ensures Sorting.DistinctKeys(cfg.routes[i].plugins, Order)
    ensures LastOfItsId(cfg.routes, |cfg.routes|, i)
  {
    assert Validation.GoodRefs(Validation.AllPluginNames(cfg), cfg.routes[i].plugins, |cfg.routes[i].plugins|);
  }

  lemma MatchHasSource(
      t: Text, configs: seq<RouteConfig>, rs: seq<Route>, router: Router, httpMethod: string, path: string)
    returns (i: nat)
    requires AllBuiltFrom(t, configs, rs) && RouterOf(rs, router) && Lookup(t, router, httpMethod, path).Some?
    ensures i < |configs| && BuiltFrom(t, configs[i], Lookup(t, router, httpMethod, path).value)
  {
    MatchIsConfigured(t, rs, router, httpMethod, path);
    i :| 0 <= i < |rs| && rs[i] == Lookup(t, router, httpMethod, path).value;
  }

  /** What a request gets: a configured service, strictly ascending orders, and that very route's plugins. */
  predicate ConsistentAnswer(cfg: Config, c: Catalogue, route: Route, chains: map<string, seq<Plugin>>) {
    && (exists s :: s in cfg.services && s.name == route.service)
    && (forall i, j :: 0 <= i < j < |route.plugins| ==> route.plugins[i].order < route.plugins[j].order)
    && route.id in chains && ChainInOrder(c, route.plugins, chains[route.id])
  }

  lemma AnswerIsConsistent(t: Text, cfg: Config, c: Catalogue, i: nat, route: Route, chains: map<string, seq<Plugin>>)
    requires Validation.ValidConfig(t, cfg) && i < |cfg.routes| && BuiltFrom(t, cfg.routes[i], route)
    requires ChainsOf(c, cfg.routes, |cfg.routes|, chains)
    ensures ConsistentAnswer(cfg, c, route, chains)
  {
    var rc := cfg.routes[i];
    ValidRoute(t, cfg, i);
    Sorting.ArrangementStrict(route.plugins, rc.plugins, Order);
    ChainIsInOrder(c, rc.plugins, route.plugins, chains[rc.id]);
  }

  /**
   Build on a validated configuration: a matched route names a configured service, its id leads to
   the chain constructed from that same route's plugins, and since no two orders are equal the three
   unstable sorts agree on one strictly ascending arrangement.
   */
  lemma ValidatedRuntimeIsConsistent(
      t: Text, cfg: Config, c: Catalogue, rs: seq<Route>, rt: GatewayRuntime, httpMethod: string, path: string)
    requires Validation.ValidConfig(t, cfg) && RuntimeOf(t, cfg, c, rs, rt)
    requires Lookup(t, rt.router, httpMethod, path).Some?
    ensures ConsistentAnswer(cfg, c, Lookup(t, rt.router, httpMethod, path).value, rt.chains)
    ensures exists rc :: rc in cfg.routes && BuiltFrom(t, rc, Lookup(t, rt.router, httpMethod, path).value)
  {
    var i := MatchHasSource(t, cfg.routes, rs, rt.router, httpMethod, path);
    assert cfg.routes[i] in cfg.routes;
    AnswerIsConsistent(t, cfg, c, i, Lookup(t, rt.router, httpMethod, path).value, rt.chains);
  }

  lemma {:induction false} NamedPluginsHaveTypes(defs: seq<PluginDef>, n: nat, i: nat)
    requires i < n <= |defs|
    ensures defs[i].name in Types(defs, n)
  {
    if i < n - 1 {
      NamedPluginsHaveTypes(defs, n - 1, i);
    }
  }

  /** After validation only an unregistered type or a factory's refusal is left, never a pattern or a name. */
  lemma ValidatedBuildFailures(t: Text, cfg: Config, factories: map<string, Factory>, error: BuildError)
    requires Validation.ValidConfig(t, cfg)
    ensures PatternsCompile(t, cfg.routes)
    ensures FailedReference(CatalogueOf(cfg.plugins, factories), cfg.routes, error) ==>
      error.NotRegistered? || error.FactoryError?
  {
    forall i | 0 <= i < |cfg.routes| && TypeOf(cfg.routes[i].matchType) == MatchRegex
      ensures t.compiles(cfg.routes[i].path)
    {
      ValidRoute(t, cfg, i);
    }
    var c := CatalogueOf(cfg.plugins, factories);
    if FailedReference(c, cfg.routes, error) {
      var i, r :| 0 <= i < |cfg.routes| && r in cfg.routes[i].plugins && Construct(c, r) == Err(error);
      ValidRoute(t, cfg, i);
      assert Validation.GoodRef(Validation.AllPluginNames(cfg), r);
      var k :| 0 <= k < |cfg.plugins| && cfg.plugins[k].name == r.name;
      NamedPluginsHaveTypes(cfg.plugins, |cfg.plugins|, k);
    }
  }

  lemma DefaultedRoute(t: Text, services: set<string>, plugins: set<string>, rc: RouteConfig)
    requires Validation.GoodRoute(t, services, plugins, rc)
    ensures Validation.GoodRoute(t, services, plugins, Validation.Defaulted(rc))
  {
  }

  /** The configuration with the defaults validation wrote, which the runtime is built from, is valid too. */
  lemma DefaultsStayValid(t: Text, cfg: Config, written: Config)
    requires Validation.ValidConfig(t, cfg) && Validation.DefaultsOf(cfg, written)
    ensures Validation.ValidConfig(t, written)
  {
    assert Validation.RegexRoutes(written.routes) == Validation.RegexRoutes(cfg.routes);
    var services, plugins := Validation.AllServiceNames(cfg), Validation.AllPluginNames(cfg);
    forall i | 0 <= i < |written.routes| ensures Validation.GoodRoute(t, services, plugins, written.routes[i]) {
      ValidRoute(t, cfg, i);
      DefaultedRoute(t, services, plugins, cfg.routes[i]);
    }
  }

  /** Defaults change nothing the router reads: an absent match type already meant prefix. */
  lemma DefaultsKeepRoutes(t: Text, rc: RouteConfig, r: Route)
    ensures BuiltFrom(t, Validation.Defaulted(rc), r) <==> BuiltFrom(t, rc, r)
  {
  }
}
