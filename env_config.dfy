/**
 * The frontend's URL configuration (frontend/src/config/env.js): default backend and
 * WebSocket URLs derived from the page location, the build-time environment overrides,
 * and the URL helpers. The browser's `window.location` and Vite's `import.meta.env` are
 * parameters.
 */
module EnvConfig {
  import opened Wrappers

  /** `window.location`, as far as the defaults read it */
  datatype Location = Location(hostname: string, protocol: string, port: string)

  datatype Urls = Urls(backend: string, ws: string)

  /** The `VITE_*` variables and Vite's `MODE`; `None` is an unset variable */
  datatype ImportEnv = ImportEnv(
    viteBackendUrl: Option<string>,
    viteWsUrl: Option<string>,
    viteNodeEnv: Option<string>,
    mode: Option<string>)

  datatype Config = Config(
    backendUrl: string,
    wsUrl: string,
    nodeEnv: string,
    apiBase: string,
    apiRooms: string,
    apiHealth: string,
    wsBase: string)

  const FALLBACK_BACKEND := "http://localhost:8000"
  const FALLBACK_WS := "ws://localhost:8000"
  const ROOMS_ENDPOINT := "/api/rooms/create"
  const HEALTH_ENDPOINT := "/api/health"

  /** `':' + port` unless the port is empty or one of the default ports 80 and 443 */
  function PortSuffix(port: string): (s: string)
    ensures s == "" <==> port == "" || port == "80" || port == "443"
    ensures s != "" ==> s == ":" + port
  {
    if port != "" && port != "80" && port != "443" then ":" + port else ""
  }

  /** The page is the development server on localhost:3000 */
  predicate IsDevServer(loc: Location) {
    loc.hostname == "localhost" && loc.port == "3000"
  }

  /** `getDefaultUrls()`; `window` is `None` when there is no browser window */
  function GetDefaultUrls(window: Option<Location>): (u: Urls)
    ensures u.backend == "" <==> window.Some? && IsDevServer(window.value)
    ensures |u.ws| >= 4 && (u.ws[..4] == "wss:" <==> window.Some? && window.value.protocol == "https:")
  {
    match window
    case None =>
      assert FALLBACK_WS[2] == ':' && "wss:"[2] == 's';
      Urls(FALLBACK_BACKEND, FALLBACK_WS)
    case Some(loc) =>
      var isSecure := loc.protocol == "https:";
      if IsDevServer(loc) then
        // As written: the conditional binds looser than `+`, so the secure case is just "wss:"
        var ws := if isSecure then "wss:" else "ws:" + "//" + loc.hostname + ":8000";
        assert !isSecure ==> ws[2] == ':';
        Urls("", ws)
      else
        var scheme := if isSecure then "wss:" else "ws:";
        var ws := scheme + ("//" + loc.hostname + PortSuffix(loc.port));
        assert ws[..|scheme|] == scheme && ws[2] == scheme[2];
        Urls(loc.protocol + "//" + loc.hostname + PortSuffix(loc.port), ws)
  }

  /** `a || fallback` for a string variable: an unset or empty value falls back */
  function OrElse(v: Option<string>, fallback: string): (r: string)
    ensures v.Some? && v.value != "" ==> r == v.value
    ensures v.None? || v.value == "" ==> r == fallback
  {
    if v.Some? && v.value != "" then v.value else fallback
  }

  /** The `config` object built at module load from the environment and the page location */
  function MakeConfig(env: ImportEnv, window: Option<Location>): (c: Config)
    ensures c.nodeEnv != "" && c.apiBase != "" && c.wsBase != ""
    ensures c.nodeEnv == OrElse(env.viteNodeEnv, OrElse(env.mode, "development"))
    ensures c.backendUrl == OrElse(env.viteBackendUrl, GetDefaultUrls(window).backend)
    ensures c.wsUrl == OrElse(env.viteWsUrl, GetDefaultUrls(window).ws)
    ensures c.apiBase == OrElse(env.viteBackendUrl, FALLBACK_BACKEND)
    ensures c.wsBase == OrElse(env.viteWsUrl, FALLBACK_WS)
    ensures c.apiRooms == ROOMS_ENDPOINT && c.apiHealth == HEALTH_ENDPOINT
  {
    var defaults := GetDefaultUrls(window);
    Config(
      backendUrl := OrElse(env.viteBackendUrl, defaults.backend),
      wsUrl := OrElse(env.viteWsUrl, defaults.ws),
      nodeEnv := OrElse(env.viteNodeEnv, OrElse(env.mode, "development")),
      apiBase := OrElse(env.viteBackendUrl, FALLBACK_BACKEND),
      apiRooms := ROOMS_ENDPOINT,
      apiHealth := HEALTH_ENDPOINT,
      wsBase := OrElse(env.viteWsUrl, FALLBACK_WS))
  }

  predicate IsDevelopment(c: Config) {
    c.nodeEnv == "development"
  }

  predicate IsProduction(c: Config) {
    c.nodeEnv == "production"
  }

  /** `getApiUrl(endpoint)` */
  function GetApiUrl(c: Config, endpoint: string): (url: string)
    ensures |url| == |c.apiBase| + |endpoint|
    ensures url[..|c.apiBase|] == c.apiBase && url[|c.apiBase|..] == endpoint
  {
    c.apiBase + endpoint
  }

  /** `getWsUrl(endpoint)` */
  function GetWsUrl(c: Config, endpoint: string): (url: string)
    ensures |url| == |c.wsBase| + |endpoint|
    ensures url[..|c.wsBase|] == c.wsBase && url[|c.wsBase|..] == endpoint
  {
    c.wsBase + endpoint
  }

  // Properties of the defaults

  /** On the development server the backend is relative and plain http gets port 8000 for ws */
  lemma DevServerDefaults(loc: Location)
    requires IsDevServer(loc)
    ensures GetDefaultUrls(Some(loc)).backend == ""
    ensures loc.protocol != "https:" ==> GetDefaultUrls(Some(loc)).ws == "ws://localhost:8000"
  {
  }

  /** On the development server over https the default ws is only the scheme "wss:" */
  lemma DevServerSecureWsIsSchemeOnly(loc: Location)
    requires IsDevServer(loc) && loc.protocol == "https:"
    ensures GetDefaultUrls(Some(loc)).ws == "wss:"
  {
  }

  /**
   * Anywhere else the backend is the page's own origin (default ports dropped) and the ws
   * URL is the same origin under the ws scheme that matches the page's security.
   */
  lemma OriginDefaults(loc: Location)
    requires !IsDevServer(loc)
    ensures var u := GetDefaultUrls(Some(loc));
      var authority := "//" + loc.hostname + PortSuffix(loc.port);
      && u.backend == loc.protocol + authority
      && u.ws == (if loc.protocol == "https:" then "wss:" else "ws:") + authority
      && u.ws[|u.ws| - |authority|..] == u.backend[|loc.protocol|..]
  {
  }

  /** Without a window the defaults are the localhost:8000 literals */
  lemma NoWindowDefaults()
    ensures GetDefaultUrls(None) == Urls("http://localhost:8000", "ws://localhost:8000")
  {
  }

  /** `API.BASE` and `WS.BASE` never depend on the page location */
  lemma BasesIgnoreLocation(env: ImportEnv, w1: Option<Location>, w2: Option<Location>)
    ensures MakeConfig(env, w1).apiBase == MakeConfig(env, w2).apiBase
    ensures MakeConfig(env, w1).wsBase == MakeConfig(env, w2).wsBase
  {
  }

  /** `NODE_ENV` takes `VITE_NODE_ENV`, then `MODE`, then "development" */
  lemma NodeEnvFallback(env: ImportEnv, window: Option<Location>)
    ensures var c := MakeConfig(env, window);
      && (env.viteNodeEnv.Some? && env.viteNodeEnv.value != "" ==> c.nodeEnv == env.viteNodeEnv.value)
      && (OrElse(env.viteNodeEnv, "") == "" && env.mode.Some? && env.mode.value != "" ==> c.nodeEnv == env.mode.value)
      && (OrElse(env.viteNodeEnv, "") == "" && OrElse(env.mode, "") == "" ==> IsDevelopment(c))
  {
  }

  /**
   * Which environment the helpers report, from the inputs alone: the first of `VITE_NODE_ENV`
   * and `MODE` that is set and non-empty decides, and with neither the build is development.
   * The two never hold together.
   */
  lemma EnvironmentFromInputs(env: ImportEnv, window: Option<Location>)
    ensures var c := MakeConfig(env, window);
      IsDevelopment(c) <==>
        if OrElse(env.viteNodeEnv, "") != "" then env.viteNodeEnv.value == "development"
        else OrElse(env.mode, "") == "" || env.mode.value == "development"
    ensures var c := MakeConfig(env, window);
      IsProduction(c) <==>
        if OrElse(env.viteNodeEnv, "") != "" then env.viteNodeEnv.value == "production"
        else OrElse(env.mode, "") != "" && env.mode.value == "production"
    ensures !(IsDevelopment(MakeConfig(env, window)) && IsProduction(MakeConfig(env, window)))
  {
  }
}
