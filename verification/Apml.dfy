/** Plan configuration: the entities of an APML file and their validation. */
module Apml {
  import opened Wrappers

  datatype QuotaDetail = QuotaDetail(mode: string, daily: int, monthly: int)

  datatype UsageConfig = UsageConfig(inputTokens: string, outputTokens: string)

  datatype EventConfig = EventConfig(chunkType: string, inputTokens: string, outputTokens: string)

  datatype StreamingConfig = StreamingConfig(
    mode: string, inputTokens: string, outputTokens: string,
    input: Option<EventConfig>, output: Option<EventConfig>)

  /** Pointers that may be nil are options. */
  datatype ProviderConfig = ProviderConfig(
    host: string, apiKeyPrefix: string, inputMessage: string,
    usage: Option<UsageConfig>, streaming: Option<StreamingConfig>)

  datatype RouteConfig = RouteConfig(provider: string, quota: string)

  datatype Config = Config(
    title: string, baseUri: string, version: string, planVersion: string,
    quotas: map<string, QuotaDetail>, providers: map<string, ProviderConfig>, routes: map<string, RouteConfig>)

  predicate Letter(c: char) { 'a' <= c <= 'z' || 'A' <= c <= 'Z' }

  predicate LetterOrDigit(c: char) { Letter(c) || '0' <= c <= '9' }

  /** ^[a-zA-Z][a-zA-Z0-9_-]*$ */
  predicate IsName(s: string) {
    s != [] && Letter(s[0]) && forall i :: 1 <= i < |s| ==> LetterOrDigit(s[i]) || s[i] == '_' || s[i] == '-'
  }

  /** ^[a-zA-Z0-9][a-zA-Z0-9-]*$ */
  predicate IsPlanVersion(s: string) {
    s != [] && LetterOrDigit(s[0]) && forall i :: 1 <= i < |s| ==> LetterOrDigit(s[i]) || s[i] == '-'
  }

  /** The two patterns, character by character. */
  lemma NamesGrow(s: string, c: char)
    ensures !IsName("") && !IsPlanVersion("")
    ensures IsName([c]) <==> 'a' <= c <= 'z' || 'A' <= c <= 'Z'
    ensures IsPlanVersion([c]) <==> 'a' <= c <= 'z' || 'A' <= c <= 'Z' || '0' <= c <= '9'
    ensures s != "" ==>
              (IsName(s + [c]) <==>
               IsName(s) && ('a' <= c <= 'z' || 'A' <= c <= 'Z' || '0' <= c <= '9' || c == '_' || c == '-'))
    ensures s != "" ==>
              (IsPlanVersion(s + [c]) <==>
               IsPlanVersion(s) && ('a' <= c <= 'z' || 'A' <= c <= 'Z' || '0' <= c <= '9' || c == '-'))
  {
    var t := s + [c];
    assert t[|s|] == c && forall i :: 0 <= i < |s| ==> t[i] == s[i];
  }

  // ---- well-formedness, declaratively ----

  predicate Unlimited(q: QuotaDetail) { q.daily == 0 && q.monthly == 0 }

  predicate GoodQuota(q: QuotaDetail) {
    q.daily >= 0 && q.monthly >= 0 && (Unlimited(q) || q.mode in {"per_key", "shared"})
  }

  predicate GoodStreaming(s: StreamingConfig) {
    || (s.mode == "last" && s.inputTokens != "" && s.outputTokens != "" && s.input.None? && s.output.None?)
    || (&& s.mode == "split" && s.inputTokens == "" && s.outputTokens == ""
        && s.input.Some? && s.input.value.chunkType != "" && s.input.value.inputTokens != ""
        && s.output.Some? && s.output.value.chunkType != "" && s.output.value.outputTokens != "")
  }

  predicate GoodProvider(p: ProviderConfig) {
    && p.host != ""
    && p.usage.Some? && p.usage.value.inputTokens != "" && p.usage.value.outputTokens != ""
    && p.streaming.Some? && GoodStreaming(p.streaming.value)
  }

  predicate GoodRoute(c: Config, r: RouteConfig) {
    r.provider in c.providers && r.provider != "" && (r.quota == "" || r.quota in c.quotas)
  }

  predicate GoodQuotas(c: Config) {
    forall n :: n in c.quotas ==> IsName(n) && GoodQuota(c.quotas[n])
  }

  predicate GoodProviders(c: Config) {
    forall n :: n in c.providers ==> IsName(n) && GoodProvider(c.providers[n])
  }

  predicate GoodRoutes(c: Config) {
    forall p :: p in c.routes ==> GoodRoute(c, c.routes[p])
  }

  predicate WellFormed(c: Config) {
    && c.title != "" && c.baseUri != "" && c.version != "" && IsPlanVersion(c.planVersion)
    && c.routes != map[]
    && GoodQuotas(c) && GoodProviders(c) && GoodRoutes(c)
  }

  // ---- validate ----

  /** The checks on one quota, in the order the parser makes them; `None` is no error. */
  function CheckQuota(name: string, q: QuotaDetail): (err: Option<string>)
    ensures err.None? <==> IsName(name) && GoodQuota(q)
  {
    if !IsName(name) then Some("invalid quota name")
    else if q.daily < 0 || q.monthly < 0 then Some("quota cannot have negative limits")
    else if q.daily == 0 && q.monthly == 0 then None
    else if q.mode != "per_key" && q.mode != "shared" then Some("quota has invalid mode")
    else None
  }

  function CheckLast(s: StreamingConfig): (err: Option<string>)
    requires s.mode == "last"
    ensures err.None? <==> GoodStreaming(s)
  {
    if s.inputTokens == "" then Some("streaming.input_tokens is required for last mode")
    else if s.outputTokens == "" then Some("streaming.output_tokens is required for last mode")
    else if s.input.Some? || s.output.Some? then Some("input and output blocks must be omitted when mode is 'last'")
    else None
  }

  function CheckSplit(s: StreamingConfig): (err: Option<string>)
    requires s.mode == "split"
    ensures err.None? <==> GoodStreaming(s)
  {
    if s.input.None? || s.output.None? then Some("split mode needs both blocks")
    else if s.input.value.chunkType == "" || s.input.value.inputTokens == "" then
      Some("incomplete input block")
    else if s.output.value.chunkType == "" || s.output.value.outputTokens == "" then
      Some("incomplete output block")
    else if s.inputTokens != "" || s.outputTokens != "" then
      Some("split mode forbids token paths")
    else None
  }

  function CheckStreaming(s: StreamingConfig): (err: Option<string>)
    ensures err.None? <==> GoodStreaming(s)
  {
    if s.mode != "split" && s.mode != "last" then Some("unknown streaming mode")
    else if s.mode == "last" then CheckLast(s)
    else CheckSplit(s)
  }

  function CheckProvider(name: string, p: ProviderConfig): (err: Option<string>)
    ensures err.None? <==> IsName(name) && GoodProvider(p)
  {
    if !IsName(name) then Some("invalid provider name")
    else if p.host == "" then Some("host is required")
    else if p.usage.None? then Some("usage config of providers is nil")
    else if p.usage.value.inputTokens == "" then Some("usage.input_tokens is required")
    else if p.usage.value.outputTokens == "" then Some("usage.output_tokens is required")
    else if p.streaming.None? then Some("streaming config of providers is nil")
    else CheckStreaming(p.streaming.value)
  }

  function CheckRoute(c: Config, r: RouteConfig): (err: Option<string>)
    ensures err.None? <==> GoodRoute(c, r)
  {
    if r.provider == "" then Some("provider is required")
    else if r.provider !in c.providers then Some("provider is not defined in providers")
    else if r.quota != "" && r.quota !in c.quotas then Some("quota is not defined in quotas")
    else None
  }

  method ValidateQuotas(c: Config) returns (err: Option<string>)
    ensures err.None? <==> GoodQuotas(c)
  {
    hide IsName, GoodQuota;
    var todo := c.quotas.Keys;
    while todo != {}
      invariant todo <= c.quotas.Keys
      invariant forall n :: n in c.quotas && n !in todo ==> IsName(n) && GoodQuota(c.quotas[n])
      decreases |todo|
    {
      var n :| n in todo;
      err := CheckQuota(n, c.quotas[n]);
      if err.Some? { return; }
      todo := todo - {n};
    }
    err := None;
  }

  method ValidateProviders(c: Config) returns (err: Option<string>)
    ensures err.None? <==> GoodProviders(c)
  {
    hide IsName, GoodProvider;
    var todo := c.providers.Keys;
    while todo != {}
      invariant todo <= c.providers.Keys
      invariant forall n :: n in c.providers && n !in todo ==> IsName(n) && GoodProvider(c.providers[n])
      decreases |todo|
    {
      var n :| n in todo;
      err := CheckProvider(n, c.providers[n]);
      if err.Some? { return; }
      todo := todo - {n};
    }
    err := None;
  }

  method ValidateRoutes(c: Config) returns (err: Option<string>)
    ensures err.None? <==> GoodRoutes(c)
  {
    hide GoodRoute;
    var todo := c.routes.Keys;
    while todo != {}
      invariant todo <= c.routes.Keys
      invariant forall p :: p in c.routes && p !in todo ==> GoodRoute(c, c.routes[p])
      decreases |todo|
    {
      var p :| p in todo;
      err := CheckRoute(c, c.routes[p]);
      if err.Some? { return; }
      todo := todo - {p};
    }
    err := None;
  }

  /**
   validate, with its three map loops in any enumeration order and its early returns.
   Which error is reported may depend on the order; whether one is reported does not.
   */
  method Validate(c: Config) returns (err: Option<string>)
    ensures err.None? <==> WellFormed(c)
  {
    if c.title == "" { return Some("title is required"); }
    if c.baseUri == "" { return Some("baseUri is required"); }
    if c.version == "" { return Some("version is required"); }
    if c.planVersion == "" { return Some("plan_version is required"); }
    if !IsPlanVersion(c.planVersion) { return Some("invalid plan_version name"); }
    if |c.routes| == 0 { return Some("at least one route is required"); }
    err := ValidateQuotas(c);
    if err.Some? { return; }
    err := ValidateProviders(c);
    if err.Some? { return; }
    err := ValidateRoutes(c);
  }

  /** ResolveQuota: the quota bound to a route, if any. */
  function ResolveQuota(c: Config, path: string): Option<QuotaDetail> {
    if path !in c.routes || c.routes[path].quota == "" then None
    else if c.routes[path].quota in c.quotas then Some(c.quotas[c.routes[path].quota])
    else None
  }

  /** authInterceptor's own lookup: a missing map entry reads as the zero quota. */
  function QuotaAtDoor(c: Config, path: string): Option<QuotaDetail>
    requires path in c.routes
  {
    var name := c.routes[path].quota;
    if name == "" then None
    else if name in c.quotas then Some(c.quotas[name])
    else Some(QuotaDetail("", 0, 0))
  }

  /**
   What validation guarantees to the data plane: on every configured route the provider
   exists and its usage and streaming blocks can be read; the door's quota lookup never
   falls back to a zero quota but gives the quota the route names; and a quota that is
   enforced is in one of the two modes.
   */
  lemma ValidationSuffices(c: Config, path: string)
    requires WellFormed(c) && path in c.routes
    ensures c.routes[path].provider in c.providers
    ensures var p := c.providers[c.routes[path].provider];
            p.usage.Some? && p.streaming.Some? && GoodStreaming(p.streaming.value)
    ensures QuotaAtDoor(c, path) == ResolveQuota(c, path)
    ensures QuotaAtDoor(c, path).None? <==> c.routes[path].quota == ""
    ensures var name := c.routes[path].quota;
            name != "" ==> name in c.quotas && QuotaAtDoor(c, path) == Some(c.quotas[name])
    ensures var q := QuotaAtDoor(c, path);
            q.Some? ==>
              && GoodQuota(q.value)
              && (!Unlimited(q.value) && q.value.mode != "shared" ==> q.value.mode == "per_key")
  {
  }
}
