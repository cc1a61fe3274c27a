/** The typed configuration (internal/config/config.go), without the settings nothing here depends on. */
module GatewayConfig {

  /** A route's reference to a plugin; `settings` stands for the untyped configuration map. */
  datatype PluginRef = PluginRef(name: string, order: int, settings: string)

  datatype PluginDef = PluginDef(name: string, typeName: string)

  /** A load-balancing strategy as written: absent, one of the known names, or some other text. */
  datatype Strategy = NoStrategy | RoundRobin | Random | Smart | OtherStrategy(text: string)

  datatype ServiceConfig = ServiceConfig(name: string, lbStrategy: Strategy, instances: seq<string>)

  /** A match type as written. */
  datatype MatchSetting = NoMatch | Exact | Prefix | Regex | OtherMatch(text: string)

  datatype RouteConfig = RouteConfig(
    id: string, methods: seq<string>, path: string, matchType: MatchSetting, service: string, plugins: seq<PluginRef>)

  datatype Config = Config(
    port: int, maxConcurrent: int,
    services: seq<ServiceConfig>, routes: seq<RouteConfig>, plugins: seq<PluginDef>)

  function Order(r: PluginRef): int {
    r.order
  }

  /**
   What the standard library contributes: upper-casing, whether a pattern compiles, and whether a
   compiled pattern matches a path.
   */
  datatype Text = Text(upper: string -> string, compiles: string -> bool, matches: (string, string) -> bool)
}
