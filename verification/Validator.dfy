/** Configuration validation (internal/config/validator.go). */
module Validation {
  import opened GatewayConfig

  datatype Problem =
    | PortRequired
    | ServiceNameRequired(service: nat)
    | DuplicateService(name: string)
    | UnsupportedStrategy(name: string)
    | NoInstances(name: string)
    | PluginNameRequired(plugin: nat)
    | RouteIdRequired(route: nat)
    | DuplicateRoute(id: string)
    | PathRequired(route: nat)
    | InvalidMatchType(route: nat)
    | InvalidPattern(route: nat)
    | UnknownService(route: nat)
    | EmptyPluginReference(route: nat)
    | UnknownPlugin(route: nat, name: string)
    | SameOrder(route: nat, order: int)
    | TooManyPatterns(count: nat)

  /** The problems accumulated so far, the latest outermost. */
  datatype Log = Clean | Reported(earlier: Log, problem: Problem)

  const MAX_REGEX_ROUTES: nat := 20

  function When(log: Log, condition: bool, p: Problem): Log {
    if condition then Reported(log, p) else log
  }

  // ----- what each loop remembers and has reported after its first n entries -----

  function ServiceNames(services: seq<ServiceConfig>, n: nat): set<string>
    requires n <= |services|
  {
    if n == 0 then {}
    else ServiceNames(services, n - 1) + if |services[n - 1].name| == 0 then {} else {services[n - 1].name}
  }

  function OneService(log: Log, earlier: set<string>, s: ServiceConfig, n: nat): Log {
    if |s.name| == 0 then Reported(log, ServiceNameRequired(n))
    else
      When(When(When(log,
        s.name in earlier, DuplicateService(s.name)),
        s.lbStrategy.OtherStrategy?, UnsupportedStrategy(s.name)),
        |s.instances| == 0, NoInstances(s.name))
  }

  function ServiceLog(log: Log, services: seq<ServiceConfig>, n: nat): Log
    requires n <= |services|
  {
    if n == 0 then log
    else OneService(ServiceLog(log, services, n - 1), ServiceNames(services, n - 1), services[n - 1], n - 1)
  }

  function PluginNames(defs: seq<PluginDef>, n: nat): set<string>
    requires n <= |defs|
  {
    if n == 0 then {} else PluginNames(defs, n - 1) + if |defs[n - 1].name| == 0 then {} else {defs[n - 1].name}
  }

  function PluginLog(log: Log, defs: seq<PluginDef>, n: nat): Log
    requires n <= |defs|
  {
    if n == 0 then log else When(PluginLog(log, defs, n - 1), |defs[n - 1].name| == 0, PluginNameRequired(n - 1))
  }

  /** Orders taken by references that have a name. */
  function OrdersSeen(refs: seq<PluginRef>, n: nat): set<int>
    requires n <= |refs|
  {
    if n == 0 then {} else OrdersSeen(refs, n - 1) + if |refs[n - 1].name| == 0 then {} else {refs[n - 1].order}
  }

  function OneRef(log: Log, known: set<string>, orders: set<int>, r: PluginRef, route: nat): Log {
    if |r.name| == 0 then Reported(log, EmptyPluginReference(route))
    else
      When(When(log,
        r.name !in known, UnknownPlugin(route, r.name)),
        r.order in orders, SameOrder(route, r.order))
  }

  function RefLog(log: Log, known: set<string>, refs: seq<PluginRef>, n: nat, route: nat): Log
    requires n <= |refs|
  {
    if n == 0 then log
    else OneRef(RefLog(log, known, refs, n - 1, route), known, OrdersSeen(refs, n - 1), refs[n - 1], route)
  }

  function RouteIds(routes: seq<RouteConfig>, n: nat): set<string>
    requires n <= |routes|
  {
    if n == 0 then {} else RouteIds(routes, n - 1) + if |routes[n - 1].id| == 0 then {} else {routes[n - 1].id}
  }

  function IdLog(log: Log, earlier: set<string>, r: RouteConfig, n: nat): Log {
    if |r.id| == 0 then Reported(log, RouteIdRequired(n)) else When(log, r.id in earlier, DuplicateRoute(r.id))
  }

  function SettingLog(log: Log, t: Text, services: set<string>, r: RouteConfig, n: nat): Log {
    When(When(When(When(log,
      |r.path| == 0, PathRequired(n)),
      r.matchType.OtherMatch?, InvalidMatchType(n)),
      r.matchType.Regex? && !t.compiles(r.path), InvalidPattern(n)),
      r.service !in services, UnknownService(n))
  }

  function RouteLog(
      log: Log, t: Text, services: set<string>, plugins: set<string>, routes: seq<RouteConfig>, n: nat): Log
    requires n <= |routes|
  {
    if n == 0 then log
    else
      var r := routes[n - 1];
      var before := IdLog(RouteLog(log, t, services, plugins, routes, n - 1), RouteIds(routes, n - 1), r, n - 1);
      RefLog(SettingLog(before, t, services, r, n - 1), plugins, r.plugins, |r.plugins|, n - 1)
  }

  function PatternCount(routes: seq<RouteConfig>, n: nat): nat
    requires n <= |routes|
  {
    if n == 0 then 0 else PatternCount(routes, n - 1) + if routes[n - 1].matchType.Regex? then 1 else 0
  }

  function Problems(t: Text, cfg: Config): Log {
    var patterns := PatternCount(cfg.routes, |cfg.routes|);
    var services := ServiceLog(When(Clean, cfg.port == 0, PortRequired), cfg.services, |cfg.services|);
    var plugins := PluginLog(services, cfg.plugins, |cfg.plugins|);
    var routes := RouteLog(plugins, t, ServiceNames(cfg.services, |cfg.services|),
                           PluginNames(cfg.plugins, |cfg.plugins|), cfg.routes, |cfg.routes|);
    When(routes, patterns > MAX_REGEX_ROUTES, TooManyPatterns(patterns))
  }

  function Defaulted(r: RouteConfig): RouteConfig {
    if r.matchType.NoMatch? then r.(matchType := Prefix) else r
  }

  /** The safe defaults written into the configuration, valid or not. */
  predicate DefaultsOf(cfg: Config, written: Config) {
    && written == cfg.(maxConcurrent := if cfg.maxConcurrent == 0 then 1000 else cfg.maxConcurrent,
                       routes := written.routes)
    && |written.routes| == |cfg.routes|
    && forall k :: 0 <= k < |cfg.routes| ==> written.routes[k] == Defaulted(cfg.routes[k])
  }

  // ----- what a valid configuration is -----

  function AllServiceNames(cfg: Config): set<string> {
    set s | s in cfg.services && |s.name| > 0 :: s.name
  }

  function AllPluginNames(cfg: Config): set<string> {
    set d | d in cfg.plugins && |d.name| > 0 :: d.name
  }

  function RegexRoutes(routes: seq<RouteConfig>): set<nat> {
    set i: nat | i < |routes| && routes[i].matchType == Regex
  }

  predicate GoodService(s: ServiceConfig) {
    |s.name| > 0 && !s.lbStrategy.OtherStrategy? && |s.instances| > 0
  }

  /** The first n services are well formed and pairwise named apart. */
  predicate GoodServices(services: seq<ServiceConfig>, n: nat)
    requires n <= |services|
  {
    && (forall i :: 0 <= i < n ==> GoodService(services[i]))
    && (forall i, j :: 0 <= i < j < n ==> services[i].name != services[j].name)
  }

  predicate GoodRef(known: set<string>, r: PluginRef) {
    |r.name| > 0 && r.name in known
  }

  predicate GoodRefs(known: set<string>, refs: seq<PluginRef>, n: nat)
    requires n <= |refs|
  {
    && (forall i :: 0 <= i < n ==> GoodRef(known, refs[i]))
    && (forall i, j :: 0 <= i < j < n ==> refs[i].order != refs[j].order)
  }

  predicate GoodRoute(t: Text, services: set<string>, plugins: set<string>, r: RouteConfig) {
    && |r.id| > 0 && |r.path| > 0 && r.service in services && !r.matchType.OtherMatch?
    && (r.matchType.Regex? ==> t.compiles(r.path))
    && GoodRefs(plugins, r.plugins, |r.plugins|)
  }

  predicate GoodRoutes(t: Text, services: set<string>, plugins: set<string>, routes: seq<RouteConfig>, n: nat)
    requires n <= |routes|
  {
    && (forall i :: 0 <= i < n ==> GoodRoute(t, services, plugins, routes[i]))
    && (forall i, j :: 0 <= i < j < n ==> routes[i].id != routes[j].id)
  }

  predicate ValidConfig(t: Text, cfg: Config) {
    && cfg.port != 0
    && GoodServices(cfg.services, |cfg.services|)
    && (forall i :: 0 <= i < |cfg.plugins| ==> |cfg.plugins[i].name| > 0)
    && GoodRoutes(t, AllServiceNames(cfg), AllPluginNames(cfg), cfg.routes, |cfg.routes|)
    && |RegexRoutes(cfg.routes)| <= 20
  }

  lemma {:induction false} ServiceNameListed(services: seq<ServiceConfig>, n: nat, name: string)
    requires n <= |services|
    ensures name in ServiceNames(services, n) <==> |name| > 0 && exists i :: 0 <= i < n && services[i].name == name
  {
    if n > 0 {
      ServiceNameListed(services, n - 1, name);
    }
  }

  lemma {:induction false} PluginNameListed(defs: seq<PluginDef>, n: nat, name: string)
    requires n <= |defs|
    ensures name in PluginNames(defs, n) <==> |name| > 0 && exists i :: 0 <= i < n && defs[i].name == name
  {
    if n > 0 {
      PluginNameListed(defs, n - 1, name);
    }
  }

  /** What the loops remember is every name there is. */
  lemma NamesCollected(cfg: Config)
    ensures ServiceNames(cfg.services, |cfg.services|) == AllServiceNames(cfg)
    ensures PluginNames(cfg.plugins, |cfg.plugins|) == AllPluginNames(cfg)
  {
    forall name ensures name in ServiceNames(cfg.services, |cfg.services|) <==> name in AllServiceNames(cfg) {
      ServiceNameListed(cfg.services, |cfg.services|, name);
    }
    forall name ensures name in PluginNames(cfg.plugins, |cfg.plugins|) <==> name in AllPluginNames(cfg) {
      PluginNameListed(cfg.plugins, |cfg.plugins|, name);
    }
  }

  lemma {:induction false} PatternsCounted(routes: seq<RouteConfig>, n: nat)
    requires n <= |routes|
    ensures PatternCount(routes, n) == |RegexRoutes(routes[..n])|
  {
    if n == 0 {
      assert RegexRoutes(routes[..0]) == {};
    } else {
      PatternsCounted(routes, n - 1);
      var before := RegexRoutes(routes[..n - 1]);
      assert RegexRoutes(routes[..n]) == before + if routes[n - 1].matchType == Regex then {n - 1} else {};
    }
  }

  lemma {:induction false} OrderSeen(refs: seq<PluginRef>, n: nat, order: int)
    requires n <= |refs|
    ensures order in OrdersSeen(refs, n) <==> exists i :: 0 <= i < n && |refs[i].name| > 0 && refs[i].order == order
  {
    if n > 0 {
      OrderSeen(refs, n - 1, order);
    }
  }

  lemma {:induction false} RouteIdListed(routes: seq<RouteConfig>, n: nat, id: string)
    requires n <= |routes|
    ensures id in RouteIds(routes, n) <==> |id| > 0 && exists i :: 0 <= i < n && routes[i].id == id
  {
    if n > 0 {
      RouteIdListed(routes, n - 1, id);
    }
  }

  lemma {:induction false} ServicesExact(log: Log, services: seq<ServiceConfig>, n: nat)
    requires n <= |services|
    ensures ServiceLog(log, services, n).Clean? <==> log.Clean? && GoodServices(services, n)
  {
    if n > 0 {
      ServicesExact(log, services, n - 1);
      ServiceNameListed(services, n - 1, services[n - 1].name);
    }
  }

  lemma {:induction false} PluginsExact(log: Log, defs: seq<PluginDef>, n: nat)
    requires n <= |defs|
    ensures PluginLog(log, defs, n).Clean? <==> log.Clean? && forall i :: 0 <= i < n ==> |defs[i].name| > 0
  {
    if n > 0 {
      PluginsExact(log, defs, n - 1);
    }
  }

  lemma {:induction false} RefsExact(log: Log, known: set<string>, refs: seq<PluginRef>, n: nat, route: nat)
    requires n <= |refs|
    ensures RefLog(log, known, refs, n, route).Clean? <==> log.Clean? && GoodRefs(known, refs, n)
  {
    if n > 0 {
      RefsExact(log, known, refs, n - 1, route);
      OrderSeen(refs, n - 1, refs[n - 1].order);
    }
  }

  lemma {:induction false} RoutesExact(
      log: Log, t: Text, services: set<string>, plugins: set<string>, routes: seq<RouteConfig>, n: nat)
    requires n <= |routes|
    ensures RouteLog(log, t, services, plugins, routes, n).Clean?
       <==> log.Clean? && GoodRoutes(t, services, plugins, routes, n)
  {
    if n > 0 {
      var r := routes[n - 1];
      RoutesExact(log, t, services, plugins, routes, n - 1);
      RouteIdListed(routes, n - 1, r.id);
      var before := IdLog(RouteLog(log, t, services, plugins, routes, n - 1), RouteIds(routes, n - 1), r, n - 1);
      RefsExact(SettingLog(before, t, services, r, n - 1), plugins, r.plugins, |r.plugins|, n - 1);
    }
  }

  /** Validation reports nothing exactly for the valid configurations. */
  lemma ValidationExact(t: Text, cfg: Config)
    ensures Problems(t, cfg).Clean? <==> ValidConfig(t, cfg)
  {
    var services := ServiceLog(When(Clean, cfg.port == 0, PortRequired), cfg.services, |cfg.services|);
    var plugins := PluginLog(services, cfg.plugins, |cfg.plugins|);
    ServicesExact(When(Clean, cfg.port == 0, PortRequired), cfg.services, |cfg.services|);
    PluginsExact(services, cfg.plugins, |cfg.plugins|);
    NamesCollected(cfg);
    RoutesExact(plugins, t, AllServiceNames(cfg), AllPluginNames(cfg), cfg.routes, |cfg.routes|);
    AllPatternsCounted(cfg.routes);
  }

  lemma AllPatternsCounted(routes: seq<RouteConfig>)
    ensures PatternCount(routes, |routes|) == |RegexRoutes(routes)|
  {
    PatternsCounted(routes, |routes|);
    assert routes[..|routes|] == routes;
  }

  // ----- what is reported -----

  predicate Mentions(log: Log, p: Problem) {
    log.Reported? && (log.problem == p || Mentions(log.earlier, p))
  }

  /** What is wrong with the first n services. */
  ghost predicate ServiceProblem(services: seq<ServiceConfig>, n: nat, p: Problem)
    requires n <= |services|
  {
    match p
    case ServiceNameRequired(i) => i < n && |services[i].name| == 0
    case DuplicateService(name) =>
      |name| > 0 && exists i, j :: 0 <= i < j < n && services[i].name == name && services[j].name == name
    case UnsupportedStrategy(name) =>
      |name| > 0 && exists i :: 0 <= i < n && services[i].name == name && services[i].lbStrategy.OtherStrategy?
    case NoInstances(name) =>
      |name| > 0 && exists i :: 0 <= i < n && services[i].name == name && |services[i].instances| == 0
    case _ => false
  }

  /** What is wrong with the first n plugin references of a route. */
  ghost predicate RefProblem(known: set<string>, refs: seq<PluginRef>, n: nat, route: nat, p: Problem)
    requires n <= |refs|
  {
    match p
    case EmptyPluginReference(i) => i == route && exists k :: 0 <= k < n && |refs[k].name| == 0
    case UnknownPlugin(i, name) =>
      i == route && |name| > 0 && name !in known && exists k :: 0 <= k < n && refs[k].name == name
    case SameOrder(i, order) =>
      i == route && exists j, k :: 0 <= j < k < n && |refs[j].name| > 0 && |refs[k].name| > 0
                                   && refs[j].order == order && refs[k].order == order
    case _ => false
  }

  predicate SettingProblem(t: Text, services: set<string>, r: RouteConfig, route: nat, p: Problem) {
    match p
    case RouteIdRequired(i) => i == route && |r.id| == 0
    case PathRequired(i) => i == route && |r.path| == 0
    case InvalidMatchType(i) => i == route && r.matchType.OtherMatch?
    case InvalidPattern(i) => i == route && r.matchType == Regex && !t.compiles(r.path)
    case UnknownService(i) => i == route && r.service !in services
    case _ => false
  }

  /** What is wrong with the first n routes. */
  ghost predicate RouteProblem(
      t: Text, services: set<string>, plugins: set<string>, routes: seq<RouteConfig>, n: nat, p: Problem)
    requires n <= |routes|
  {
    || (p.DuplicateRoute? && |p.id| > 0 &&
        exists i, j :: 0 <= i < j < n && routes[i].id == p.id && routes[j].id == p.id)
    || (exists i :: 0 <= i < n && RouteFault(t, services, plugins, routes[i], i, p))
  }

  ghost predicate RouteFault(
      t: Text, services: set<string>, plugins: set<string>, r: RouteConfig, i: nat, p: Problem)
  {
    SettingProblem(t, services, r, i, p) || RefProblem(plugins, r.plugins, |r.plugins|, i, p)
  }

  /** The problem is there. */
  ghost predicate Applies(t: Text, cfg: Config, p: Problem) {
    || (p == PortRequired && cfg.port == 0)
    || ServiceProblem(cfg.services, |cfg.services|, p)
    || (p.PluginNameRequired? && p.plugin < |cfg.plugins| && |cfg.plugins[p.plugin].name| == 0)
    || RouteProblem(t, AllServiceNames(cfg), AllPluginNames(cfg), cfg.routes, |cfg.routes|, p)
    || (p == TooManyPatterns(|RegexRoutes(cfg.routes)|) && |RegexRoutes(cfg.routes)| > 20)
  }

  /** What the loop reports of one service. */
  predicate OneServiceProblem(earlier: set<string>, s: ServiceConfig, n: nat, p: Problem) {
    match p
    case ServiceNameRequired(i) => i == n && |s.name| == 0
    case DuplicateService(name) => |name| > 0 && s.name == name && name in earlier
    case UnsupportedStrategy(name) => |name| > 0 && s.name == name && s.lbStrategy.OtherStrategy?
    case NoInstances(name) => |name| > 0 && s.name == name && |s.instances| == 0
    case _ => false
  }

  lemma ServiceProblemGrows(services: seq<ServiceConfig>, n: nat, p: Problem)
    requires 0 < n <= |services|
    ensures ServiceProblem(services, n, p) <==>
            ServiceProblem(services, n - 1, p) ||
            OneServiceProblem(ServiceNames(services, n - 1), services[n - 1], n - 1, p)
  {
    if p.DuplicateService? {
      ServiceNameListed(services, n - 1, p.name);
    }
  }

  lemma MentionsWhen(log: Log, condition: bool, added: Problem, p: Problem)
    ensures Mentions(When(log, condition, added), p) <==> Mentions(log, p) || (condition && added == p)
  {
  }

  lemma OneServiceReported(log: Log, earlier: set<string>, s: ServiceConfig, n: nat, p: Problem)
    ensures Mentions(OneService(log, earlier, s, n), p) <==> Mentions(log, p) || OneServiceProblem(earlier, s, n, p)
  {
    var named := When(log, s.name in earlier, DuplicateService(s.name));
    MentionsWhen(log, s.name in earlier, DuplicateService(s.name), p);
    MentionsWhen(named, s.lbStrategy.OtherStrategy?, UnsupportedStrategy(s.name), p);
  }

  lemma {:induction false} ServicesReported(log: Log, services: seq<ServiceConfig>, n: nat, p: Problem)
    requires n <= |services|
    ensures Mentions(ServiceLog(log, services, n), p) <==> Mentions(log, p) || ServiceProblem(services, n, p)
  {
    if n > 0 {
      ServicesReported(log, services, n - 1, p);
      ServiceProblemGrows(services, n, p);
      OneServiceReported(ServiceLog(log, services, n - 1), ServiceNames(services, n - 1), services[n - 1], n - 1, p);
    }
  }

  lemma {:induction false} PluginsReported(log: Log, defs: seq<PluginDef>, n: nat, p: Problem)
    requires n <= |defs|
    ensures Mentions(PluginLog(log, defs, n), p) <==>
            Mentions(log, p) || (p.PluginNameRequired? && p.plugin < n && |defs[p.plugin].name| == 0)
  {
    if n > 0 {
      PluginsReported(log, defs, n - 1, p);
    }
  }

  lemma {:induction false} RefsReported(
      log: Log, known: set<string>, refs: seq<PluginRef>, n: nat, route: nat, p: Problem)
    requires n <= |refs|
    ensures Mentions(RefLog(log, known, refs, n, route), p) <==>
            Mentions(log, p) || RefProblem(known, refs, n, route, p)
  {
    if n > 0 {
      RefsReported(log, known, refs, n - 1, route, p);
      OrderSeen(refs, n - 1, refs[n - 1].order);
    }
  }

  lemma RouteProblemGrows(
      t: Text, services: set<string>, plugins: set<string>, routes: seq<RouteConfig>, n: nat, p: Problem)
    requires 0 < n <= |routes|
    ensures RouteProblem(t, services, plugins, routes, n, p) <==>
            RouteProblem(t, services, plugins, routes, n - 1, p) ||
            RouteFault(t, services, plugins, routes[n - 1], n - 1, p) ||
            (p.DuplicateRoute? && |p.id| > 0 && routes[n - 1].id == p.id && p.id in RouteIds(routes, n - 1))
  {
    if p.DuplicateRoute? {
      RouteIdListed(routes, n - 1, p.id);
    }
  }

  lemma SettingsReported(
      log: Log, t: Text, services: set<string>, earlier: set<string>, r: RouteConfig, n: nat, p: Problem)
    ensures Mentions(SettingLog(IdLog(log, earlier, r, n), t, services, r, n), p) <==>
            Mentions(log, p) || SettingProblem(t, services, r, n, p) ||
            (p.DuplicateRoute? && |p.id| > 0 && r.id == p.id && p.id in earlier)
  {
    var named := IdLog(log, earlier, r, n);
    var pathed := When(named, |r.path| == 0, PathRequired(n));
    var typed := When(pathed, r.matchType.OtherMatch?, InvalidMatchType(n));
    MentionsWhen(named, |r.path| == 0, PathRequired(n), p);
    MentionsWhen(pathed, r.matchType.OtherMatch?, InvalidMatchType(n), p);
    MentionsWhen(typed, r.matchType.Regex? && !t.compiles(r.path), InvalidPattern(n), p);
  }

  lemma OneRouteReported(
      log: Log, t: Text, services: set<string>, plugins: set<string>, earlier: set<string>,
      r: RouteConfig, n: nat, p: Problem)
    ensures var before := SettingLog(IdLog(log, earlier, r, n), t, services, r, n);
            Mentions(RefLog(before, plugins, r.plugins, |r.plugins|, n), p) <==>
            Mentions(log, p) || RouteFault(t, services, plugins, r, n, p) ||
            (p.DuplicateRoute? && |p.id| > 0 && r.id == p.id && p.id in earlier)
  {
    SettingsReported(log, t, services, earlier, r, n, p);
    var before := SettingLog(IdLog(log, earlier, r, n), t, services, r, n);
    RefsReported(before, plugins, r.plugins, |r.plugins|, n, p);
  }

  lemma {:induction false} RoutesReported(
      log: Log, t: Text, services: set<string>, plugins: set<string>, routes: seq<RouteConfig>, n: nat, p: Problem)
    requires n <= |routes|
    ensures Mentions(RouteLog(log, t, services, plugins, routes, n), p) <==>
            Mentions(log, p) || RouteProblem(t, services, plugins, routes, n, p)
  {
    if n > 0 {
      var earlier := RouteLog(log, t, services, plugins, routes, n - 1);
      RoutesReported(log, t, services, plugins, routes, n - 1, p);
      OneRouteReported(earlier, t, services, plugins, RouteIds(routes, n - 1), routes[n - 1], n - 1, p);
      RouteProblemGrows(t, services, plugins, routes, n, p);
    }
  }

  lemma RoutesAllReported(log: Log, t: Text, cfg: Config, p: Problem)
    ensures var log' := RouteLog(log, t, ServiceNames(cfg.services, |cfg.services|),
                                 PluginNames(cfg.plugins, |cfg.plugins|), cfg.routes, |cfg.routes|);
            Mentions(log', p) <==>
            Mentions(log, p) || RouteProblem(t, AllServiceNames(cfg), AllPluginNames(cfg), cfg.routes, |cfg.routes|, p)
  {
    NamesCollected(cfg);
    RoutesReported(log, t, AllServiceNames(cfg), AllPluginNames(cfg), cfg.routes, |cfg.routes|, p);
  }

  /** A problem is reported exactly when it is there. */
  lemma ProblemsExact(t: Text, cfg: Config, p: Problem)
    ensures Mentions(Problems(t, cfg), p) <==> Applies(t, cfg, p)
  {
    var port := When(Clean, cfg.port == 0, PortRequired);
    var services := ServiceLog(port, cfg.services, |cfg.services|);
    var plugins := PluginLog(services, cfg.plugins, |cfg.plugins|);
    ServicesReported(port, cfg.services, |cfg.services|, p);
    PluginsReported(services, cfg.plugins, |cfg.plugins|, p);
    RoutesAllReported(plugins, t, cfg, p);
    AllPatternsCounted(cfg.routes);
  }

  // ----- validation as it runs -----

  method CheckServices(log: Log, services: seq<ServiceConfig>) returns (errs: Log, names: set<string>)
    ensures errs == ServiceLog(log, services, |services|) && names == ServiceNames(services, |services|)
  {
    errs, names := log, {};
    for i := 0 to |services|
      invariant errs == ServiceLog(log, services, i) && names == ServiceNames(services, i)
    {
      var svc := services[i];
      if |svc.name| == 0 {
        errs := Reported(errs, ServiceNameRequired(i));
        continue;
      }
      if svc.name in names {
        errs := Reported(errs, DuplicateService(svc.name));
      }
      names := names + {svc.name};
      if svc.lbStrategy.OtherStrategy? {
        errs := Reported(errs, UnsupportedStrategy(svc.name));
      }
      if |svc.instances| == 0 {
        errs := Reported(errs, NoInstances(svc.name));
      }
    }
  }

  method CheckPlugins(log: Log, defs: seq<PluginDef>) returns (errs: Log, names: set<string>)
    ensures errs == PluginLog(log, defs, |defs|) && names == PluginNames(defs, |defs|)
  {
    errs, names := log, {};
    for i := 0 to |defs|
      invariant errs == PluginLog(log, defs, i) && names == PluginNames(defs, i)
    {
      if |defs[i].name| == 0 {
        errs := Reported(errs, PluginNameRequired(i));
        continue;
      }
      names := names + {defs[i].name};
    }
  }

  method CheckRefs(log: Log, known: set<string>, refs: seq<PluginRef>, route: nat) returns (errs: Log)
    ensures errs == RefLog(log, known, refs, |refs|, route)
  {
    errs := log;
    var seen: set<int> := {};
    for i := 0 to |refs|
      invariant errs == RefLog(log, known, refs, i, route) && seen == OrdersSeen(refs, i)
    {
      var r := refs[i];
      if |r.name| == 0 {
        errs := Reported(errs, EmptyPluginReference(route));
        continue;
      }
      if r.name !in known {
        errs := Reported(errs, UnknownPlugin(route, r.name));
      }
      if r.order in seen {
        errs := Reported(errs, SameOrder(route, r.order));
      }
      seen := seen + {r.order};
    }
  }

  method CheckSettings(log: Log, t: Text, services: set<string>, r: RouteConfig, n: nat)
    returns (errs: Log, defaulted: RouteConfig, patterns: nat)
    ensures errs == SettingLog(log, t, services, r, n) && defaulted == Defaulted(r)
    ensures patterns == if r.matchType.Regex? then 1 else 0
  {
    errs, defaulted, patterns := log, r, 0;
    if |r.path| == 0 {
      errs := Reported(errs, PathRequired(n));
    }
    if r.matchType.NoMatch? {
      defaulted := r.(matchType := Prefix);
    } else if r.matchType.OtherMatch? {
      errs := Reported(errs, InvalidMatchType(n));
    }
    if r.matchType.Regex? {
      patterns := 1;
      if !t.compiles(r.path) {
        errs := Reported(errs, InvalidPattern(n));
      }
    }
    if r.service !in services {
      errs := Reported(errs, UnknownService(n));
    }
  }

  method CheckRoutes(log: Log, t: Text, services: set<string>, plugins: set<string>, routes: seq<RouteConfig>)
    returns (errs: Log, written: seq<RouteConfig>, patterns: nat)
    ensures errs == RouteLog(log, t, services, plugins, routes, |routes|) && patterns == PatternCount(routes, |routes|)
    ensures |written| == |routes| && forall k :: 0 <= k < |routes| ==> written[k] == Defaulted(routes[k])
  {
    errs, written, patterns := log, [], 0;
    var ids: set<string> := {};
    for i := 0 to |routes|
      invariant errs == RouteLog(log, t, services, plugins, routes, i)
      invariant ids == RouteIds(routes, i) && patterns == PatternCount(routes, i)
      invariant |written| == i && forall k :: 0 <= k < i ==> written[k] == Defaulted(routes[k])
    {
      var r := routes[i];
      if |r.id| == 0 {
        errs := Reported(errs, RouteIdRequired(i));
      } else if r.id in ids {
        errs := Reported(errs, DuplicateRoute(r.id));
      } else {
        ids := ids + {r.id};
      }
      var defaulted, more;
      errs, defaulted, more := CheckSettings(errs, t, services, r, i);
      errs := CheckRefs(errs, plugins, r.plugins, i);
      written, patterns := written + [defaulted], patterns + more;
    }
  }

  /** All problems, accumulated in one pass, and the configuration with its defaults; none exactly when it is valid. */
  method Validate(t: Text, cfg: Config) returns (errs: Log, written: Config)
    ensures errs == Problems(t, cfg) && DefaultsOf(cfg, written)
    ensures errs.Clean? <==> ValidConfig(t, cfg)
    ensures forall k :: 0 <= k < |cfg.routes| ==>
      written.routes[k].matchType == if cfg.routes[k].matchType == NoMatch then Prefix else cfg.routes[k].matchType
  {
    var maxConcurrent := if cfg.maxConcurrent == 0 then 1000 else cfg.maxConcurrent;
    var services, plugins, routes, patterns;
    errs := When(Clean, cfg.port == 0, PortRequired);
    errs, services := CheckServices(errs, cfg.services);
    errs, plugins := CheckPlugins(errs, cfg.plugins);
    errs, routes, patterns := CheckRoutes(errs, t, services, plugins, cfg.routes);
    errs := When(errs, patterns > MAX_REGEX_ROUTES, TooManyPatterns(patterns));
    written := cfg.(maxConcurrent := maxConcurrent, routes := routes);
    ValidationExact(t, cfg);
  }
}
