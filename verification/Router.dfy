/** Route building and matching (internal/router/router.go). */
module Routing {
  import opened Common
  import opened GatewayConfig
  import Sorting

  datatype MatchType = MatchExact | MatchPrefix | MatchRegex

  /** A resolved route; an empty method set allows every method. */
  datatype Route = Route(
    id: string, methods: set<string>, matchType: MatchType, path: string, service: string, plugins: seq<PluginRef>)

  datatype Router = Router(exact: map<string, Route>, prefix: seq<Route>, regexes: seq<Route>)

  datatype RouteError = BadPattern(path: string)

  // ----- one route -----

  function TypeOf(matchType: MatchSetting): MatchType {
    if matchType == Exact then MatchExact else if matchType == Regex then MatchRegex else MatchPrefix
  }

  function Methods(t: Text, rc: RouteConfig): set<string> {
    set m | m in rc.methods :: t.upper(m)
  }

  /** The route a configuration stands for; its plugins are in some order-ascending arrangement. */
  ghost predicate BuiltFrom(t: Text, rc: RouteConfig, r: Route) {
    && r == Route(rc.id, Methods(t, rc), TypeOf(rc.matchType), rc.path, rc.service, r.plugins)
    && Sorting.Arranged(r.plugins, rc.plugins, Order)
    && (r.matchType == MatchRegex ==> t.compiles(rc.path))
  }

  ghost predicate AllBuiltFrom(t: Text, configs: seq<RouteConfig>, rs: seq<Route>) {
    |rs| == |configs| && forall i :: 0 <= i < |rs| ==> BuiltFrom(t, configs[i], rs[i])
  }

  predicate MethodAllowed(r: Route, httpMethod: string) {
    r.methods == {} || httpMethod in r.methods
  }

  // ----- the two lookup structures -----

  /** The key of a method and path; the empty method is the wildcard's. */
  function Key(name: string, path: string): string {
    name + ":" + path
  }

  function Names(r: Route): set<string> {
    if r.methods == {} then {""} else r.methods
  }

  function EnteredKeys(route: Route, names: set<string>): set<string> {
    set m | m in names :: Key(m, route.path)
  }

  function Keys(r: Route): set<string> {
    EnteredKeys(r, Names(r))
  }

  function Overlay(exact: map<string, Route>, keys: set<string>, r: Route): map<string, Route> {
    exact + map k | k in keys :: r
  }

  function Enter(exact: map<string, Route>, r: Route): map<string, Route> {
    Overlay(exact, Keys(r), r)
  }

  /** The exact map after the routes were entered in order, later ones overwriting. */
  function ExactMap(rs: seq<Route>): map<string, Route> {
    if rs == [] then map[]
    else
      var m, r := ExactMap(rs[..|rs| - 1]), rs[|rs| - 1];
      if r.matchType == MatchExact then Enter(m, r) else m
  }

  function OfType(rs: seq<Route>, k: MatchType): seq<Route> {
    if rs == [] then []
    else OfType(rs[..|rs| - 1], k) + if rs[|rs| - 1].matchType == k then [rs[|rs| - 1]] else []
  }

  /** Longer paths sort first. */
  function Shortness(r: Route): int {
    -|r.path|
  }

  /** A router built from the routes, whatever the sort did with equally long prefixes. */
  ghost predicate RouterOf(rs: seq<Route>, router: Router) {
    && router.exact == ExactMap(rs)
    && Sorting.Arranged(router.prefix, OfType(rs, MatchPrefix), Shortness)
    && router.regexes == OfType(rs, MatchRegex)
  }

  // ----- matching -----

  predicate PrefixMatches(r: Route, httpMethod: string, path: string) {
    r.path <= path && MethodAllowed(r, httpMethod)
  }

  predicate RegexMatches(t: Text, r: Route, httpMethod: string, path: string) {
    t.matches(r.path, path) && MethodAllowed(r, httpMethod)
  }

  function ExactHit(router: Router, key: string, httpMethod: string): Option<Route> {
    if key in router.exact && MethodAllowed(router.exact[key], httpMethod) then Some(router.exact[key]) else None
  }

  function FirstPrefix(rs: seq<Route>, httpMethod: string, path: string): Option<Route> {
    if rs == [] then None
    else if PrefixMatches(rs[0], httpMethod, path) then Some(rs[0])
    else FirstPrefix(rs[1..], httpMethod, path)
  }

  function FirstRegex(t: Text, rs: seq<Route>, httpMethod: string, path: string): Option<Route> {
    if rs == [] then None
    else if RegexMatches(t, rs[0], httpMethod, path) then Some(rs[0])
    else FirstRegex(t, rs[1..], httpMethod, path)
  }

  function Lookup(t: Text, router: Router, httpMethod: string, path: string): Option<Route> {
    var own, any := ExactHit(router, Key(httpMethod, path), httpMethod), ExactHit(router, Key("", path), httpMethod);
    var pre := FirstPrefix(router.prefix, httpMethod, path);
    if own.Some? then own else if any.Some? then any else if pre.Some? then pre
    else FirstRegex(t, router.regexes, httpMethod, path)
  }

  // ----- the reference: a scan of the routes in declaration order -----

  /** An exact route declared for this name (the empty name: for any method) and path. */
  predicate Serves(r: Route, name: string, path: string) {
    r.matchType == MatchExact && r.path == path && if name == "" then r.methods == {} else name in r.methods
  }

  function LastServing(rs: seq<Route>, name: string, path: string): Option<Route> {
    if rs == [] then None
    else if Serves(rs[|rs| - 1], name, path) then Some(rs[|rs| - 1])
    else LastServing(rs[..|rs| - 1], name, path)
  }

  /** The route's methods, when it has any, name the request's, and its path or pattern fits the request's path. */
  predicate Admits(t: Text, r: Route, httpMethod: string, path: string) {
    && (r.methods == {} || httpMethod in r.methods)
    && match r.matchType
       case MatchExact => r.path == path
       case MatchPrefix => r.path <= path
       case MatchRegex => t.matches(r.path, path)
  }

  predicate LongestPrefix(t: Text, rs: seq<Route>, httpMethod: string, path: string, r: Route) {
    && r in rs && r.matchType == MatchPrefix && Admits(t, r, httpMethod, path)
    && forall c :: c in rs && c.matchType == MatchPrefix && Admits(t, c, httpMethod, path) ==> |c.path| <= |r.path|
  }

  predicate SomePrefix(t: Text, rs: seq<Route>, httpMethod: string, path: string) {
    exists r :: r in rs && r.matchType == MatchPrefix && Admits(t, r, httpMethod, path)
  }

  predicate PatternAdmits(t: Text, r: Route, httpMethod: string, path: string) {
    r.matchType == MatchRegex && Admits(t, r, httpMethod, path)
  }

  /** The first admitting pattern in declaration order, if there is one. */
  predicate FirstPattern(t: Text, rs: seq<Route>, httpMethod: string, path: string, out: Option<Route>) {
    if out.None? then forall i :: 0 <= i < |rs| ==> !PatternAdmits(t, rs[i], httpMethod, path)
    else exists i :: 0 <= i < |rs| && rs[i] == out.value && PatternAdmits(t, rs[i], httpMethod, path) &&
                     forall j :: 0 <= j < i ==> !PatternAdmits(t, rs[j], httpMethod, path)
  }

  /**
   The documented priority: the last exact route for the method, then the last for any method, then
   a longest allowed prefix, then the first allowed pattern.
   */
  ghost predicate Wins(t: Text, rs: seq<Route>, httpMethod: string, path: string, out: Option<Route>) {
    var own := if httpMethod == "" then None else LastServing(rs, httpMethod, path);
    var any := LastServing(rs, "", path);
    if own.Some? then out == own
    else if any.Some? then out == any
    else if SomePrefix(t, rs, httpMethod, path) then out.Some? && LongestPrefix(t, rs, httpMethod, path, out.value)
    else FirstPattern(t, rs, httpMethod, path, out)
  }

  // ----- when the string keys stand for their method and path -----

  predicate ColonFree(name: string) {
    ':' !in name
  }

  /** The characters of an HTTP token: letters, digits and some punctuation, no separator among it. */
  predicate TokenChar(c: char) {
    || 'a' <= c <= 'z' || 'A' <= c <= 'Z' || '0' <= c <= '9'
    || c == '!' || c == '#' || c == '$' || c == '%' || c == '&' || c == '\'' || c == '*' || c == '+'
    || c == '-' || c == '.' || c == '^' || c == '_' || c == '`' || c == '|' || c == '~'
  }

  /** A method an HTTP request can have. */
  predicate Token(name: string) {
    name != "" && forall c :: c in name ==> TokenChar(c)
  }

  /** What the router looks a key up for: a request's method, or the empty name of the wildcard. */
  predicate LookedUp(name: string) {
    name == "" || Token(name)
  }

  lemma LookedUpIsColonFree(name: string)
    requires LookedUp(name)
    ensures ColonFree(name)
  {
    assert !TokenChar(':');
  }

  /** A request HTTP allows. */
  predicate Request(httpMethod: string, path: string) {
    Token(httpMethod) && Requested(path)
  }

  /** A path an HTTP request can have: from the root, or empty, or the asterisk. */
  predicate Requested(path: string) {
    path == "" || path == "*" || path[0] == '/'
  }

  /** `longer` is `name`, a colon, and anything. */
  predicate ColonExtends(longer: string, name: string) {
    |name| < |longer| && longer[..|name|] == name && longer[|name|] == ':'
  }

  /** And what follows the colon starts like a path. */
  predicate PathExtends(longer: string, name: string) {
    ColonExtends(longer, name) && |name| + 1 < |longer| && longer[|name| + 1] == '/'
  }

  /**
   Method names the key scheme can tell apart: none is empty, and none goes on with a colon and a slash
   at once or after another one that a request can have.
   */
  predicate Separable(names: set<string>) {
    && "" !in names
    && forall n, m :: n in names + {""} && LookedUp(n) && m in names ==> !PathExtends(m, n)
  }

  lemma ColonFreeNamesSeparable(names: set<string>)
    requires "" !in names && forall n :: n in names ==> ColonFree(n)
    ensures Separable(names)
  {
  }

  /** Two names with the same key are equal, or one colon-extends the other. */
  lemma KeysCollide(n: string, p: string, m: string, q: string)
    requires Key(n, p) == Key(m, q)
    ensures (n == m && p == q) || ColonExtends(m, n) || ColonExtends(n, m)
  {
    var k := Key(n, p);
    assert k[..|n|] == n && k[|n|] == ':' && k[|n| + 1..] == p;
    assert k[..|m|] == m && k[|m|] == ':' && k[|m| + 1..] == q;
    if |n| < |m| {
      assert m[..|n|] == k[..|n|] && m[|n|] == k[|n|];
    } else if |m| < |n| {
      assert n[..|m|] == k[..|m|] && n[|m|] == k[|m|];
    }
  }

  /** For a name looked up and a requested path, only a name that goes on like a path has the same key. */
  lemma RequestedKeysCollide(n: string, p: string, m: string, q: string)
    requires Key(n, p) == Key(m, q) && LookedUp(n) && Requested(p)
    ensures (n == m && p == q) || PathExtends(m, n)
  {
    KeysCollide(n, p, m, q);
    LookedUpIsColonFree(n);
    if ColonExtends(m, n) {
      var k := Key(n, p);
      assert k[|n| + 1..] == p && k[|m|] == ':' && k[..|m|] == m;
      assert k[|m|] == p[|m| - |n| - 1];
      assert |n| + 1 < |m| ==> p[0] == m[|n| + 1];
    }
  }

  /** The names configured on exact routes. */
  ghost predicate NamesWithin(rs: seq<Route>, names: set<string>) {
    forall r :: r in rs && r.matchType == MatchExact ==> r.methods <= names
  }

  /** An exact route holds a looked-up name's key only by serving it, or by a name colon-extending it. */
  lemma KeyMeansServes(r: Route, names: set<string>, name: string, path: string)
    requires r.matchType == MatchExact && r.methods <= names && Separable(names) && LookedUp(name) && Requested(path)
    ensures Serves(r, name, path) ==> Key(name, path) in Keys(r)
    ensures Key(name, path) in Keys(r) ==>
              Serves(r, name, path) || (name !in names + {""} && !MethodAllowed(r, name))
  {
    if Serves(r, name, path) {
      assert name in Names(r);
    }
    if Key(name, path) in Keys(r) {
      var m :| m in Names(r) && Key(m, r.path) == Key(name, path);
      RequestedKeysCollide(name, path, m, r.path);
    }
  }

  function LastWithKey(rs: seq<Route>, key: string): Option<Route> {
    if rs == [] then None
    else if rs[|rs| - 1].matchType == MatchExact && key in Keys(rs[|rs| - 1]) then Some(rs[|rs| - 1])
    else LastWithKey(rs[..|rs| - 1], key)
  }

  lemma {:induction false} ExactMapHoldsLast(rs: seq<Route>, key: string)
    ensures key in ExactMap(rs) <==> LastWithKey(rs, key).Some?
    ensures key in ExactMap(rs) ==> ExactMap(rs)[key] == LastWithKey(rs, key).value
  {
    if rs != [] {
      ExactMapHoldsLast(rs[..|rs| - 1], key);
    }
  }

  /** Looking up a name's key and checking the method finds the last route declared for it. */
  lemma {:induction false} LastWithKeyServes(rs: seq<Route>, names: set<string>, name: string, path: string)
    requires Separable(names) && NamesWithin(rs, names) && LookedUp(name) && Requested(path)
    ensures if name in names + {""} then LastWithKey(rs, Key(name, path)) == LastServing(rs, name, path)
            else LastServing(rs, name, path).None? &&
                 (LastWithKey(rs, Key(name, path)).Some? ==>
                    !MethodAllowed(LastWithKey(rs, Key(name, path)).value, name))
  {
    if rs != [] {
      var r := rs[|rs| - 1];
      assert r in rs;
      if r.matchType == MatchExact {
        KeyMeansServes(r, names, name, path);
      }
      LastWithKeyServes(rs[..|rs| - 1], names, name, path);
    }
  }

  lemma {:induction false} LastServingServes(rs: seq<Route>, name: string, path: string)
    ensures var last := LastServing(rs, name, path);
            if last.Some? then last.value in rs && Serves(last.value, name, path)
            else forall r :: r in rs ==> !Serves(r, name, path)
  {
    if rs != [] {
      LastServingServes(rs[..|rs| - 1], name, path);
      assert rs == rs[..|rs| - 1] + [rs[|rs| - 1]];
    }
  }

  lemma {:induction false} OfTypeElements(rs: seq<Route>, k: MatchType)
    ensures forall r :: r in OfType(rs, k) <==> r in rs && r.matchType == k
  {
    if rs != [] {
      OfTypeElements(rs[..|rs| - 1], k);
      assert rs == rs[..|rs| - 1] + [rs[|rs| - 1]];
    }
  }

  lemma HeadIsLongest(rs: seq<Route>, c: Route)
    requires Sorting.SortedBy(rs, Shortness) && c in rs
    ensures |c.path| <= |rs[0].path|
  {
    var i :| 0 <= i < |rs| && rs[i] == c;
    assert Shortness(rs[0]) <= Shortness(rs[i]);
  }

  /** In a list with longer paths first, the first match is a longest one. */
  lemma {:induction false} FirstPrefixIsLongest(rs: seq<Route>, httpMethod: string, path: string)
    requires Sorting.SortedBy(rs, Shortness)
    ensures var out := FirstPrefix(rs, httpMethod, path);
            if out.Some? then
              out.value in rs && PrefixMatches(out.value, httpMethod, path) &&
              forall c :: c in rs && PrefixMatches(c, httpMethod, path) ==> |c.path| <= |out.value.path|
            else forall c :: c in rs ==> !PrefixMatches(c, httpMethod, path)
  {
    if rs != [] {
      if PrefixMatches(rs[0], httpMethod, path) {
        forall c | c in rs ensures |c.path| <= |rs[0].path| {
          HeadIsLongest(rs, c);
        }
      } else {
        FirstPrefixIsLongest(rs[1..], httpMethod, path);
        forall c | c in rs && PrefixMatches(c, httpMethod, path) ensures c in rs[1..] {
        }
      }
    }
  }

  lemma PrefixFollowsPriority(t: Text, rs: seq<Route>, router: Router, httpMethod: string, path: string)
    requires RouterOf(rs, router)
    ensures var out := FirstPrefix(router.prefix, httpMethod, path);
            && (out.Some? <==> SomePrefix(t, rs, httpMethod, path))
            && (out.Some? ==> LongestPrefix(t, rs, httpMethod, path, out.value))
  {
    Sorting.SameElements(router.prefix, OfType(rs, MatchPrefix));
    OfTypeElements(rs, MatchPrefix);
    FirstPrefixIsLongest(router.prefix, httpMethod, path);
  }

  lemma {:induction false} FirstRegexAppend(t: Text, rs: seq<Route>, r: Route, httpMethod: string, path: string)
    ensures var out := FirstRegex(t, rs, httpMethod, path);
            FirstRegex(t, rs + [r], httpMethod, path) ==
            if out.Some? then out else if RegexMatches(t, r, httpMethod, path) then Some(r) else None
  {
    if rs == [] {
      assert [r][1..] == [];
    } else {
      assert (rs + [r])[1..] == rs[1..] + [r];
      FirstRegexAppend(t, rs[1..], r, httpMethod, path);
    }
  }

  lemma {:induction false} RegexFollowsPriority(t: Text, rs: seq<Route>, httpMethod: string, path: string)
    ensures FirstPattern(t, rs, httpMethod, path, FirstRegex(t, OfType(rs, MatchRegex), httpMethod, path))
  {
    if rs != [] {
      var init, r := rs[..|rs| - 1], rs[|rs| - 1];
      RegexFollowsPriority(t, init, httpMethod, path);
      FirstRegexAppend(t, OfType(init, MatchRegex), r, httpMethod, path);
      assert OfType(init, MatchRegex) + [] == OfType(init, MatchRegex);
      assert rs == init + [r];
      FirstPatternAppend(t, init, r, httpMethod, path, FirstRegex(t, OfType(init, MatchRegex), httpMethod, path));
    }
  }

  lemma FirstPatternAppend(
      t: Text, rs: seq<Route>, r: Route, httpMethod: string, path: string, out: Option<Route>)
    requires FirstPattern(t, rs, httpMethod, path, out)
    ensures FirstPattern(t, rs + [r], httpMethod, path,
                         if out.None? && PatternAdmits(t, r, httpMethod, path) then Some(r) else out)
  {
    var longer := rs + [r];
    assert forall i :: 0 <= i < |rs| ==> longer[i] == rs[i];
    assert longer[|rs|] == r;
    if out.Some? {
      var i :| 0 <= i < |rs| && rs[i] == out.value && PatternAdmits(t, rs[i], httpMethod, path) &&
               forall j :: 0 <= j < i ==> !PatternAdmits(t, rs[j], httpMethod, path);
      assert longer[i] == out.value;
    }
  }

  lemma ExactFollowsPriority(
      rs: seq<Route>, router: Router, names: set<string>, name: string, httpMethod: string, path: string)
    requires Separable(names) && NamesWithin(rs, names) && router.exact == ExactMap(rs)
    requires LookedUp(name) && Requested(path) && (name == "" || name == httpMethod)
    ensures ExactHit(router, Key(name, path), httpMethod) == LastServing(rs, name, path)
  {
    ExactMapHoldsLast(rs, Key(name, path));
    LastWithKeyServes(rs, names, name, path);
    LastServingServes(rs, name, path);
  }

  /**
   For separable method names, whatever the sort did with ties, matching on the map and the sorted
   list follows the priority order of the declaration-order scan.
   */
  lemma MatchFollowsPriority(
      t: Text, rs: seq<Route>, router: Router, names: set<string>, httpMethod: string, path: string)
    requires Separable(names) && NamesWithin(rs, names) && RouterOf(rs, router) && Request(httpMethod, path)
    ensures Wins(t, rs, httpMethod, path, Lookup(t, router, httpMethod, path))
  {
    ExactFollowsPriority(rs, router, names, httpMethod, httpMethod, path);
    ExactFollowsPriority(rs, router, names, "", httpMethod, path);
    PrefixFollowsPriority(t, rs, router, httpMethod, path);
    RegexFollowsPriority(t, rs, httpMethod, path);
  }

  /** The method names of a configuration's exact routes are among some names. */
  predicate Written(configs: seq<RouteConfig>, configured: set<string>) {
    forall i, m :: 0 <= i < |configs| && configs[i].matchType == Exact && m in configs[i].methods ==> m in configured
  }

  /** Method names as the routes have them, in upper case. */
  function Uppered(t: Text, configured: set<string>): set<string> {
    set m | m in configured :: t.upper(m)
  }

  lemma WrittenNames(t: Text, configs: seq<RouteConfig>, rs: seq<Route>, configured: set<string>)
    requires Written(configs, configured) && AllBuiltFrom(t, configs, rs)
    ensures NamesWithin(rs, Uppered(t, configured))
  {
    forall r, m | r in rs && r.matchType == MatchExact && m in r.methods ensures m in Uppered(t, configured) {
      var i :| 0 <= i < |rs| && rs[i] == r;
      var w :| w in configs[i].methods && t.upper(w) == m;
    }
  }

  /**
   Names for which every configuration whose exact routes write no others is matched in priority order, for every
   request HTTP allows.
   */
  ghost predicate KeepsPriority(t: Text, configured: set<string>) {
    forall configs, rs, router, httpMethod, path ::
      (Written(configs, configured) && AllBuiltFrom(t, configs, rs) && RouterOf(rs, router)
       && Request(httpMethod, path)) ==>
        Wins(t, rs, httpMethod, path, Lookup(t, router, httpMethod, path))
  }

  function ExactConfig(id: string, methods: seq<string>, path: string): RouteConfig {
    RouteConfig(id, methods, path, Exact, "", [])
  }

  /** The route built from it. */
  function ExactRoute(t: Text, id: string, methods: seq<string>, path: string): (r: Route)
    ensures BuiltFrom(t, ExactConfig(id, methods, path), r) && r.matchType == MatchExact
  {
    Route(id, Methods(t, ExactConfig(id, methods, path)), MatchExact, path, "", [])
  }

  lemma {:induction false} NoneOfType(rs: seq<Route>, k: MatchType)
    requires forall r :: r in rs ==> r.matchType != k
    ensures OfType(rs, k) == []
  {
    if rs != [] {
      assert forall r :: r in rs[..|rs| - 1] ==> r in rs;
      NoneOfType(rs[..|rs| - 1], k);
    }
  }

  lemma RouterOfTwo(first: Route, second: Route)
    requires first.matchType == second.matchType == MatchExact
    ensures RouterOf([first, second], Router(Enter(Enter(map[], first), second), [], []))
  {
    var rs := [first, second];
    assert rs[..1] == [first] && [first][..0] == [];
    assert ExactMap([first]) == Enter(map[], first);
    NoneOfType(rs, MatchPrefix);
    NoneOfType(rs, MatchRegex);
  }

  lemma LastServingOfTwo(first: Route, second: Route, name: string, path: string)
    ensures LastServing([first, second], name, path) ==
            if Serves(second, name, path) then Some(second) else if Serves(first, name, path) then Some(first) else None
  {
    var rs := [first, second];
    assert rs[..1] == [first] && [first][..0] == [];
    assert LastServing([first], name, path) == if Serves(first, name, path) then Some(first) else None;
  }

  /** With two routes entered, a key finds nothing when its owner, the second route if it can, refuses the method. */
  lemma HitOfTwo(first: Route, second: Route, key: string, httpMethod: string)
    requires key in Keys(second) || key !in Keys(first)
    requires key in Keys(second) ==> !MethodAllowed(second, httpMethod)
    ensures ExactHit(Router(Enter(Enter(map[], first), second), [], []), key, httpMethod) == None
  {
    var inner := Enter(map[], first);
    assert key in inner ==> key in Keys(first);
    assert key in Enter(inner, second) ==> key in Keys(second);
  }

  lemma PriorityBroken(
      t: Text, configured: set<string>, configs: seq<RouteConfig>, rs: seq<Route>, router: Router,
      httpMethod: string, path: string)
    requires Written(configs, configured) && AllBuiltFrom(t, configs, rs)
    requires RouterOf(rs, router) && Request(httpMethod, path)
    requires !Wins(t, rs, httpMethod, path, Lookup(t, router, httpMethod, path))
    ensures !KeepsPriority(t, configured)
  {
  }

  lemma LookupOfTwo(t: Text, router: Router, httpMethod: string, path: string)
    requires router.prefix == [] && router.regexes == []
    requires ExactHit(router, Key(httpMethod, path), httpMethod) == None
    requires ExactHit(router, Key("", path), httpMethod) == None
    ensures Lookup(t, router, httpMethod, path) == None
  {
  }

  /** Finding nothing does not follow the priority when an exact route serves the request. */
  lemma WinnerMissed(t: Text, rs: seq<Route>, name: string, httpMethod: string, path: string)
    requires httpMethod != "" && LastServing(rs, name, path).Some?
    requires name == httpMethod || (name == "" && LastServing(rs, httpMethod, path).None?)
    ensures !Wins(t, rs, httpMethod, path, None)
  {
  }

  /** A later route whose name and path spell the same key takes an earlier one's place and answers nothing. */
  lemma ClobberedRoute(
      t: Text, configured: set<string>, configs: seq<RouteConfig>, first: Route, second: Route,
      name: string, httpMethod: string)
    requires Written(configs, configured) && AllBuiltFrom(t, configs, [first, second])
    requires first.matchType == second.matchType == MatchExact && Request(httpMethod, first.path)
    requires Serves(first, name, first.path) && (name == "" || name == httpMethod)
    requires Key(name, first.path) in Keys(second) && !Serves(second, name, first.path)
    requires !Serves(first, httpMethod, first.path) || name == httpMethod
    requires !Serves(second, httpMethod, first.path) && !MethodAllowed(second, httpMethod)
    requires Key(httpMethod, first.path) in Keys(first) ==> name == httpMethod
    requires name != "" ==> Key("", first.path) !in Keys(first)
    ensures !KeepsPriority(t, configured)
  {
    var path, router := first.path, Router(Enter(Enter(map[], first), second), [], []);
    RouterOfTwo(first, second);
    LastServingOfTwo(first, second, name, path);
    LastServingOfTwo(first, second, httpMethod, path);
    HitOfTwo(first, second, Key(httpMethod, path), httpMethod);
    HitOfTwo(first, second, Key("", path), httpMethod);
    LookupOfTwo(t, router, httpMethod, path);
    WinnerMissed(t, [first, second], name, httpMethod, path);
    PriorityBroken(t, configured, configs, [first, second], router, httpMethod, path);
  }

  lemma EmptyNameBreaks(t: Text, configured: set<string>, empty: string)
    requires empty in configured && t.upper(empty) == ""
    ensures !KeepsPriority(t, configured)
  {
    var configs := [ExactConfig("any", [], "/x"), ExactConfig("empty", [empty], "/x")];
    var first, second := ExactRoute(t, "any", [], "/x"), ExactRoute(t, "empty", [empty], "/x");
    assert second.methods == {""};
    ClobberedRoute(t, configured, configs, first, second, "", "Z");
  }

  /** A name that goes on like a path at once takes the key of a route for any method. */
  lemma WildcardExtensionBreaks(t: Text, configured: set<string>, written: string)
    requires written in configured && PathExtends(t.upper(written), "")
    ensures !KeepsPriority(t, configured)
  {
    var m := t.upper(written);
    var path := m[1..] + ":/x";
    var configs := [ExactConfig("any", [], path), ExactConfig("late", [written], "/x")];
    var first, second := ExactRoute(t, "any", [], path), ExactRoute(t, "late", [written], "/x");
    assert m == ":" + m[1..] && second.methods == {m};
    assert Key("", path) == Key(m, "/x") && path[0] == '/';
    ClobberedRoute(t, configured, configs, first, second, "", "Z");
  }

  /** A name that goes on like a path after another one takes the key of a route for that one. */
  lemma ExtensionBreaks(t: Text, configured: set<string>, own: string, late: string)
    requires own in configured && late in configured
    requires Token(t.upper(own)) && PathExtends(t.upper(late), t.upper(own))
    ensures !KeepsPriority(t, configured)
  {
    var n, m := t.upper(own), t.upper(late);
    var rest := m[|n| + 1..];
    var path := rest + ":/x";
    var configs := [ExactConfig("own", [own], path), ExactConfig("late", [late], "/x")];
    var first, second := ExactRoute(t, "own", [own], path), ExactRoute(t, "late", [late], "/x");
    assert m == n + ":" + rest && first.methods == {n} && second.methods == {m};
    assert Key(n, path) == Key(m, "/x") && path[0] == '/';
    ClobberedRoute(t, configured, configs, first, second, n, n);
  }

  /**
   The priority order holds for all configurations over some method names exactly when these, in upper
   case, are separable.
   */
  lemma PriorityCharacterised(t: Text, configured: set<string>)
    ensures KeepsPriority(t, configured) <==> Separable(Uppered(t, configured))
  {
    var names := Uppered(t, configured);
    if Separable(names) {
      forall configs, rs, router, httpMethod, path
        | Written(configs, configured) && AllBuiltFrom(t, configs, rs) && RouterOf(rs, router)
          && Request(httpMethod, path)
        ensures Wins(t, rs, httpMethod, path, Lookup(t, router, httpMethod, path))
      {
        WrittenNames(t, configs, rs, configured);
        MatchFollowsPriority(t, rs, router, names, httpMethod, path);
      }
    } else if "" in names {
      var empty :| empty in configured && t.upper(empty) == "";
      EmptyNameBreaks(t, configured, empty);
    } else {
      var n, m :| n in names + {""} && LookedUp(n) && m in names && PathExtends(m, n);
      var late :| late in configured && t.upper(late) == m;
      if n == "" {
        WildcardExtensionBreaks(t, configured, late);
      } else {
        var own :| own in configured && t.upper(own) == n;
        ExtensionBreaks(t, configured, own, late);
      }
    }
  }

  lemma {:induction false} FirstRegexFinds(t: Text, rs: seq<Route>, httpMethod: string, path: string)
    ensures var out := FirstRegex(t, rs, httpMethod, path);
            if out.Some? then out.value in rs && RegexMatches(t, out.value, httpMethod, path)
            else forall r :: r in rs ==> !RegexMatches(t, r, httpMethod, path)
  {
    if rs != [] {
      FirstRegexFinds(t, rs[1..], httpMethod, path);
      assert rs == [rs[0]] + rs[1..];
    }
  }

  /** A route is found exactly when some configured route admits the request, and then it is one that does. */
  lemma FoundIffAdmitted(
      t: Text, rs: seq<Route>, router: Router, names: set<string>, httpMethod: string, path: string)
    requires Separable(names) && NamesWithin(rs, names) && RouterOf(rs, router) && Request(httpMethod, path)
    ensures var out := Lookup(t, router, httpMethod, path);
            && (out.Some? <==> exists r :: r in rs && Admits(t, r, httpMethod, path))
            && (out.Some? ==> out.value in rs && Admits(t, out.value, httpMethod, path))
  {
    MatchFollowsPriority(t, rs, router, names, httpMethod, path);
    LastServingServes(rs, httpMethod, path);
    LastServingServes(rs, "", path);
    var out := Lookup(t, router, httpMethod, path);
    if r :| r in rs && Admits(t, r, httpMethod, path) {
      if r.matchType == MatchExact {
        assert Serves(r, "", path) || Serves(r, httpMethod, path);
      } else if r.matchType == MatchRegex {
        var i :| 0 <= i < |rs| && rs[i] == r;
        assert PatternAdmits(t, rs[i], httpMethod, path);
      }
    }
  }

  /** The request fits the route as configured: methods in upper case, and any other match type means prefix. */
  predicate ConfigAdmits(t: Text, rc: RouteConfig, httpMethod: string, path: string) {
    && (rc.methods == [] || exists m :: m in rc.methods && t.upper(m) == httpMethod)
    && match rc.matchType
       case Exact => path == rc.path
       case Regex => t.matches(rc.path, path)
       case _ => rc.path <= path
  }

  lemma BuiltAdmits(t: Text, rc: RouteConfig, r: Route, httpMethod: string, path: string)
    requires BuiltFrom(t, rc, r)
    ensures Admits(t, r, httpMethod, path) <==> ConfigAdmits(t, rc, httpMethod, path)
  {
    assert rc.methods != [] ==> rc.methods[0] in rc.methods && t.upper(rc.methods[0]) in r.methods;
  }

  /** From configuration to answer: a request finds a route exactly when it fits one, and then one it fits. */
  lemma FoundIffConfigured(
      t: Text, configs: seq<RouteConfig>, rs: seq<Route>, router: Router, configured: set<string>,
      httpMethod: string, path: string)
    requires Separable(Uppered(t, configured)) && Written(configs, configured)
    requires AllBuiltFrom(t, configs, rs) && RouterOf(rs, router) && Request(httpMethod, path)
    ensures var out := Lookup(t, router, httpMethod, path);
            && (out.Some? <==> exists rc :: rc in configs && ConfigAdmits(t, rc, httpMethod, path))
            && (out.Some? ==>
                exists i :: 0 <= i < |configs| && rs[i] == out.value && ConfigAdmits(t, configs[i], httpMethod, path))
  {
    WrittenNames(t, configs, rs, configured);
    FoundIffAdmitted(t, rs, router, Uppered(t, configured), httpMethod, path);
    forall i | 0 <= i < |configs|
      ensures Admits(t, rs[i], httpMethod, path) <==> ConfigAdmits(t, configs[i], httpMethod, path)
    {
      BuiltAdmits(t, configs[i], rs[i], httpMethod, path);
    }
    if rc :| rc in configs && ConfigAdmits(t, rc, httpMethod, path) {
      var i :| 0 <= i < |configs| && configs[i] == rc;
      assert rs[i] in rs;
    }
    var out := Lookup(t, router, httpMethod, path);
    if out.Some? {
      var i :| 0 <= i < |rs| && rs[i] == out.value;
      assert configs[i] in configs;
    }
  }

  lemma {:induction false} ExactMapValues(rs: seq<Route>, key: string)
    ensures key in ExactMap(rs) ==> ExactMap(rs)[key] in rs
  {
    if rs != [] {
      ExactMapValues(rs[..|rs| - 1], key);
    }
  }

  /** Whatever the names, a match is one of the configured routes. */
  lemma MatchIsConfigured(t: Text, rs: seq<Route>, router: Router, httpMethod: string, path: string)
    requires RouterOf(rs, router)
    ensures var out := Lookup(t, router, httpMethod, path); out.Some? ==> out.value in rs
  {
    ExactMapValues(rs, Key(httpMethod, path));
    ExactMapValues(rs, Key("", path));
    PrefixFollowsPriority(t, rs, router, httpMethod, path);
    OfTypeElements(rs, MatchRegex);
    FirstRegexFinds(t, OfType(rs, MatchRegex), httpMethod, path);
  }

  /** Two longest prefixes have the same path. */
  lemma PrefixTiesShareThePath(t: Text, rs: seq<Route>, httpMethod: string, path: string, a: Route, b: Route)
    requires LongestPrefix(t, rs, httpMethod, path, a) && LongestPrefix(t, rs, httpMethod, path, b)
    ensures a.path == b.path
  {
    assert a.path == path[..|a.path|] && b.path == path[..|b.path|];
  }

  // ----- building and matching as they run -----

  /** One route: its method set, match type, pattern check and sorted plugins. */
  method BuildRoute(t: Text, rc: RouteConfig) returns (built: Result<Route, RouteError>)
    ensures if TypeOf(rc.matchType) == MatchRegex && !t.compiles(rc.path) then built == Err(BadPattern(rc.path))
            else built.Ok? && BuiltFrom(t, rc, built.value)
    ensures built.Err? <==> rc.matchType == Regex && !t.compiles(rc.path)
    ensures built.Ok? ==> (built.value.matchType == MatchExact <==> rc.matchType == Exact)
    ensures built.Ok? ==> (built.value.matchType == MatchRegex <==> rc.matchType == Regex)
  {
    var methods: set<string> := {};
    for k := 0 to |rc.methods|
      invariant methods == set m | m in rc.methods[..k] :: t.upper(m)
    {
      assert rc.methods[..k + 1] == rc.methods[..k] + [rc.methods[k]];
      methods := methods + {t.upper(rc.methods[k])};
    }
    assert rc.methods[..|rc.methods|] == rc.methods;
    var matchType;
    match rc.matchType {
      case Exact =>
        matchType := MatchExact;
      case Regex =>
        matchType := MatchRegex;
        if !t.compiles(rc.path) {
          return Err(BadPattern(rc.path));
        }
      case _ =>
        matchType := MatchPrefix;
    }
    var plugins := Sorting.SortBy(rc.plugins, Order);
    built := Ok(Route(rc.id, methods, matchType, rc.path, rc.service, plugins));
  }

  lemma WildcardKey(path: string)
    ensures Key("", path) == ":" + path
  {
  }

  lemma OverlayGrows(exact: map<string, Route>, keys: set<string>, key: string, r: Route)
    ensures Overlay(exact, keys, r)[key := r] == Overlay(exact, keys + {key}, r)
  {
  }

  lemma KeysGrow(route: Route, names: set<string>, m: string)
    ensures EnteredKeys(route, names + {m}) == EnteredKeys(route, names) + {Key(m, route.path)}
  {
  }

  lemma EnterOneMore(exact: map<string, Route>, route: Route, names: set<string>, m: string)
    ensures Overlay(exact, EnteredKeys(route, names), route)[Key(m, route.path) := route]
              == Overlay(exact, EnteredKeys(route, names + {m}), route)
  {
    KeysGrow(route, names, m);
    OverlayGrows(exact, EnteredKeys(route, names), Key(m, route.path), route);
  }

  lemma NothingEntered(exact: map<string, Route>, route: Route)
    ensures Overlay(exact, EnteredKeys(route, {}), route) == exact
  {
    assert EnteredKeys(route, {}) == {};
  }

  /** Enters an exact route under each of its methods, or under the wildcard. */
  method EnterExact(exact: map<string, Route>, route: Route) returns (out: map<string, Route>)
    ensures out == Enter(exact, route)
  {
    out := exact;
    var pending := route.methods;
    ghost var entered: set<string> := {};
    NothingEntered(exact, route);
    while pending != {}
      invariant entered + pending == route.methods
      invariant out == Overlay(exact, EnteredKeys(route, entered), route)
      decreases |pending|
    {
      var m :| m in pending;
      EnterOneMore(exact, route, entered, m);
      out := out[Key(m, route.path) := route];
      pending, entered := pending - {m}, entered + {m};
    }
    assert entered == route.methods;
    if |route.methods| == 0 {
      EnterOneMore(exact, route, {}, "");
      WildcardKey(route.path);
      assert {} + {""} == Names(route);
      out := out[Key("", route.path) := route];
    }
  }

  predicate PatternsCompile(t: Text, configs: seq<RouteConfig>) {
    forall i :: 0 <= i < |configs| && TypeOf(configs[i].matchType) == MatchRegex ==> t.compiles(configs[i].path)
  }

  lemma ListsGrow(rs: seq<Route>, r: Route)
    ensures ExactMap(rs + [r]) == if r.matchType == MatchExact then Enter(ExactMap(rs), r) else ExactMap(rs)
    ensures forall k :: OfType(rs + [r], k) == OfType(rs, k) + if r.matchType == k then [r] else []
  {
    assert (rs + [r])[..|rs|] == rs;
  }

  lemma BuiltGrows(t: Text, configs: seq<RouteConfig>, k: nat, rs: seq<Route>, r: Route)
    requires k < |configs| && AllBuiltFrom(t, configs[..k], rs) && PatternsCompile(t, configs[..k])
    requires BuiltFrom(t, configs[k], r)
    ensures AllBuiltFrom(t, configs[..k + 1], rs + [r]) && PatternsCompile(t, configs[..k + 1])
  {
  }

  /** The router over all configured routes, or the first pattern that does not compile. */
  method New(t: Text, configs: seq<RouteConfig>) returns (built: Result<Router, RouteError>, ghost rs: seq<Route>)
    ensures built.Ok? <==> PatternsCompile(t, configs)
    ensures built.Ok? ==> AllBuiltFrom(t, configs, rs) && RouterOf(rs, built.value)
  {
    rs := [];
    var exact: map<string, Route> := map[];
    var prefix: seq<Route> := [];
    var regexes: seq<Route> := [];
    for k := 0 to |configs|
      invariant AllBuiltFrom(t, configs[..k], rs)
      invariant exact == ExactMap(rs) && prefix == OfType(rs, MatchPrefix) && regexes == OfType(rs, MatchRegex)
      invariant PatternsCompile(t, configs[..k])
    {
      var one := BuildRoute(t, configs[k]);
      if one.Err? {
        return Err(one.error), rs;
      }
      var route := one.value;
      ListsGrow(rs, route);
      BuiltGrows(t, configs, k, rs, route);
      rs := rs + [route];
      match route.matchType {
        case MatchExact => exact := EnterExact(exact, route);
        case MatchPrefix => prefix := prefix + [route];
        case MatchRegex => regexes := regexes + [route];
      }
    }
    assert configs[..|configs|] == configs;
    prefix := Sorting.SortBy(prefix, Shortness);
    built := Ok(Router(exact, prefix, regexes));
  }

  lemma {:induction false} FirstPrefixSkips(rs: seq<Route>, n: nat, httpMethod: string, path: string)
    requires n <= |rs| && forall i :: 0 <= i < n ==> !PrefixMatches(rs[i], httpMethod, path)
    ensures FirstPrefix(rs, httpMethod, path) == FirstPrefix(rs[n..], httpMethod, path)
  {
    if n > 0 {
      FirstPrefixSkips(rs[1..], n - 1, httpMethod, path);
      assert rs[1..][n - 1..] == rs[n..];
    }
  }

  lemma {:induction false} FirstRegexSkips(t: Text, rs: seq<Route>, n: nat, httpMethod: string, path: string)
    requires n <= |rs| && forall i :: 0 <= i < n ==> !RegexMatches(t, rs[i], httpMethod, path)
    ensures FirstRegex(t, rs, httpMethod, path) == FirstRegex(t, rs[n..], httpMethod, path)
  {
    if n > 0 {
      FirstRegexSkips(t, rs[1..], n - 1, httpMethod, path);
      assert rs[1..][n - 1..] == rs[n..];
    }
  }

  /** Two map lookups and two scans; what they find is `Lookup`, and for separable names the route that wins. */
  method Match(t: Text, router: Router, httpMethod: string, path: string) returns (found: Option<Route>)
    ensures found == Lookup(t, router, httpMethod, path)
    ensures forall rs, names ::
      (Separable(names) && NamesWithin(rs, names) && RouterOf(rs, router) && Request(httpMethod, path)) ==>
        Wins(t, rs, httpMethod, path, found)
  {
    forall rs, names | Separable(names) && NamesWithin(rs, names) && RouterOf(rs, router) && Request(httpMethod, path)
      ensures Wins(t, rs, httpMethod, path, Lookup(t, router, httpMethod, path))
    {
      MatchFollowsPriority(t, rs, router, names, httpMethod, path);
    }
    if httpMethod + ":" + path in router.exact {
      var route := router.exact[httpMethod + ":" + path];
      if MethodAllowed(route, httpMethod) {
        return Some(route);
      }
    }
    assert Key("", path) == ":" + path;
    if ":" + path in router.exact {
      var route := router.exact[":" + path];
      if MethodAllowed(route, httpMethod) {
        return Some(route);
      }
    }
    for i := 0 to |router.prefix|
      invariant forall k :: 0 <= k < i ==> !PrefixMatches(router.prefix[k], httpMethod, path)
    {
      FirstPrefixSkips(router.prefix, i, httpMethod, path);
      if router.prefix[i].path <= path && MethodAllowed(router.prefix[i], httpMethod) {
        return Some(router.prefix[i]);
      }
    }
    FirstPrefixSkips(router.prefix, |router.prefix|, httpMethod, path);
    for i := 0 to |router.regexes|
      invariant forall k :: 0 <= k < i ==> !RegexMatches(t, router.regexes[k], httpMethod, path)
    {
      FirstRegexSkips(t, router.regexes, i, httpMethod, path);
      if t.matches(router.regexes[i].path, path) && MethodAllowed(router.regexes[i], httpMethod) {
        return Some(router.regexes[i]);
      }
    }
    FirstRegexSkips(t, router.regexes, |router.regexes|, httpMethod, path);
    return None;
  }
}
