/** The CORS policy provider that decorates the framework's default provider.
    For the configured policy name it decides, per request, whether the
    request's origin gets a permissive policy; any other name is handed to the
    inner provider. The configuration snapshot and the inner provider are
    parameters; logging is not modelled. */
module CorsPolicyProvider {
  import opened Wrappers
  import opened Models

  /** What the decision reads of an HTTP request: the values of its `Origin`
      header in order, its scheme, its host as `HostString` prints it (with the
      port when there is one) and its path (which is only logged). */
  datatype HttpRequest = HttpRequest(Origin: seq<string>, Scheme: string, Host: string, Path: string)

  /** The "any" marker the policy builder stores for origins, headers and
      methods. */
  const Wildcard: string := "*"

  /** The parts of a framework CORS policy this provider sets. */
  datatype CorsPolicy = CorsPolicy(
    Origins: seq<string>,
    Headers: seq<string>,
    Methods: seq<string>,
    SupportsCredentials: bool,
    PreflightMaxAge: Option<TimeSpan>)
  {
    predicate AllowsAnyOrigin() { Origins == [Wildcard] }
    predicate AllowsAnyHeader() { Headers == [Wildcard] }
    predicate AllowsAnyMethod() { Methods == [Wildcard] }
  }

  /** The exceptions the policy builder throws: a negative preflight max-age
      (`ArgumentOutOfRangeException`), and a wildcard origin together with
      credentials, which `Build` refuses (`InvalidOperationException`). */
  datatype PolicyError = NegativePreflightMaxAge | InsecureConfiguration

  /** The framework's fluent policy builder, one step per call. */
  datatype CorsPolicyBuilder = CorsPolicyBuilder(policy: CorsPolicy)
  {
    function WithOrigins(origin: string): CorsPolicyBuilder
    {
      this.(policy := policy.(Origins := policy.Origins + [origin]))
    }

    function AllowAnyHeader(): CorsPolicyBuilder
    {
      this.(policy := policy.(Headers := [Wildcard]))
    }

    function AllowAnyMethod(): CorsPolicyBuilder
    {
      this.(policy := policy.(Methods := [Wildcard]))
    }

    function AllowCredentials(): CorsPolicyBuilder
    {
      this.(policy := policy.(SupportsCredentials := true))
    }

    function SetPreflightMaxAge(maxAge: TimeSpan): Result<CorsPolicyBuilder, PolicyError>
    {
      if maxAge.ticks < 0 then Failure(NegativePreflightMaxAge)
      else Success(this.(policy := policy.(PreflightMaxAge := Some(maxAge))))
    }

    function Build(): Result<CorsPolicy, PolicyError>
    {
      if policy.AllowsAnyOrigin() && policy.SupportsCredentials then Failure(InsecureConfiguration)
      else Success(policy)
    }
  }

  function NewCorsPolicyBuilder(): CorsPolicyBuilder
  {
    CorsPolicyBuilder(CorsPolicy([], [], [], false, None))
  }

  /** The request's own origin, `Scheme + "://" + Host`. */
  function ThisOrigin(request: HttpRequest): string
  {
    request.Scheme + "://" + request.Host
  }

  /** The origin that makes this a cross-origin request: the first `Origin`
      header value, unless there is none or it names the server itself (some
      browsers send `Origin` on same-origin POSTs). */
  function GetCorsOrigin(request: HttpRequest): (origin: Option<string>)
    ensures origin.Some? <==> |request.Origin| > 0 && request.Origin[0] != ThisOrigin(request)
    ensures origin.Some? ==> origin.value == request.Origin[0]
  {
    var first := if |request.Origin| == 0 then None else Some(request.Origin[0]);
    if first.Some? && first.value != ThisOrigin(request) then first else None
  }

  /** `AllowedOrigins.Any(x => x == origin)`: ordinal string equality with some
      element of the list. */
  function AnyEquals(origins: seq<string>, origin: string): (found: bool)
    ensures found <==> exists i :: 0 <= i < |origins| && origins[i] == origin
  {
    if origins == [] then false
    else origins[0] == origin || AnyEquals(origins[1..], origin)
  }

  /** An absent or empty allow-list lets every origin through. */
  predicate AllowsAnyOrigin(configuration: CorsConfiguration)
  {
    configuration.AllowedOrigins.None? || |configuration.AllowedOrigins.value| == 0
  }

  /** The request carries a cross-origin indicator that the allow-list admits. */
  predicate Admits(request: HttpRequest, configuration: CorsConfiguration)
  {
    GetCorsOrigin(request).Some? &&
    (AllowsAnyOrigin(configuration) || GetCorsOrigin(request).value in configuration.AllowedOrigins.value)
  }

  predicate HasNegativePreflight(configuration: CorsConfiguration)
  {
    configuration.PreflightCacheDuration.Some? && configuration.PreflightCacheDuration.value.ticks < 0
  }

  /** The permissive policy for one accepted origin, or the exception the
      builder throws on the way: first for a negative preflight duration, then
      for the origin "*", which with credentials is refused. */
  function Allow(origin: string, configuration: CorsConfiguration): (policy: Result<CorsPolicy, PolicyError>)
    ensures policy.Failure? <==> HasNegativePreflight(configuration) || origin == Wildcard
    ensures policy.Failure? ==>
      policy.error == if HasNegativePreflight(configuration) then NegativePreflightMaxAge else InsecureConfiguration
    ensures policy.Success? ==>
      policy.value.Origins == [origin] && !policy.value.AllowsAnyOrigin() &&
      policy.value.AllowsAnyHeader() && policy.value.AllowsAnyMethod() && policy.value.SupportsCredentials
    ensures policy.Success? ==>
      (policy.value.PreflightMaxAge.Some? <==> configuration.PreflightCacheDuration.Some?) &&
      (policy.value.PreflightMaxAge.Some? ==>
         policy.value.PreflightMaxAge.value == configuration.PreflightCacheDuration.value)
  {
    var builder := NewCorsPolicyBuilder().WithOrigins(origin).AllowAnyHeader().AllowAnyMethod().AllowCredentials();
    var withMaxAge :=
      if configuration.PreflightCacheDuration.Some?
      then builder.SetPreflightMaxAge(configuration.PreflightCacheDuration.value)
      else Success(builder);
    match withMaxAge
    case Failure(e) => Failure(e)
    case Success(b) =>
      assert b.policy.Origins == [origin] && b.policy.SupportsCredentials;
      assert b.policy.AllowsAnyOrigin() <==> origin == Wildcard;
      b.Build()
  }

  /** The decision for the configured policy name: no policy for a request
      without a cross-origin indicator, the built policy (or the builder's
      exception) for an origin the allow-list admits, and no policy (the same
      answer as without an indicator) for an origin it rejects. */
  function Process(request: HttpRequest, configuration: CorsConfiguration)
    : (policy: Result<Option<CorsPolicy>, PolicyError>)
    ensures !Admits(request, configuration) ==> policy == Success(None)
    ensures Admits(request, configuration) ==>
      var allowed := Allow(GetCorsOrigin(request).value, configuration);
      (policy.Success? <==> allowed.Success?) &&
      (policy.Success? ==> policy.value == Some(allowed.value)) &&
      (policy.Failure? ==> policy.error == allowed.error)
  {
    var origin := GetCorsOrigin(request);
    if origin.Some? then
      if AllowsAnyOrigin(configuration) || AnyEquals(configuration.AllowedOrigins.value, origin.value) then
        match Allow(origin.value, configuration)
        case Failure(e) => Failure(e)
        case Success(p) => Success(Some(p))
      else Success(None)
    else Success(None)
  }

  /** `GetPolicyAsync`: the configured name is decided here; every other name
      goes to the inner (framework) provider unchanged. A failure is the
      faulted task the middleware awaits. */
  function GetPolicy(
    configuration: CorsConfiguration,
    inner: (HttpRequest, string) -> Option<CorsPolicy>,
    request: HttpRequest,
    policyName: string): (policy: Result<Option<CorsPolicy>, PolicyError>)
    ensures configuration.CorsPolicyName != policyName ==> policy == Success(inner(request, policyName))
    ensures configuration.CorsPolicyName == policyName && policy.Success? && policy.value.Some? ==>
      |request.Origin| > 0 && policy.value.value.Origins == [request.Origin[0]] &&
      request.Origin[0] != ThisOrigin(request) && request.Origin[0] != Wildcard
    ensures configuration.CorsPolicyName == policyName && policy.Failure? ==>
      |request.Origin| > 0 && request.Origin[0] != ThisOrigin(request) &&
      (HasNegativePreflight(configuration) || request.Origin[0] == Wildcard)
  {
    if configuration.CorsPolicyName == policyName then Process(request, configuration)
    else Success(inner(request, policyName))
  }

  /** The whole decision as one table over the request and the configuration. */
  lemma PolicyDecision(
    configuration: CorsConfiguration,
    inner: (HttpRequest, string) -> Option<CorsPolicy>,
    request: HttpRequest,
    policyName: string)
    ensures GetPolicy(configuration, inner, request, policyName) ==
      if configuration.CorsPolicyName != policyName then Success(inner(request, policyName))
      else if |request.Origin| == 0 || request.Origin[0] == ThisOrigin(request) then Success(None)
      else if !(AllowsAnyOrigin(configuration) || request.Origin[0] in configuration.AllowedOrigins.value)
      then Success(None)
      else if HasNegativePreflight(configuration) then Failure(NegativePreflightMaxAge)
      else if request.Origin[0] == Wildcard then Failure(InsecureConfiguration)
      else Success(Some(CorsPolicy([request.Origin[0]], [Wildcard], [Wildcard], true,
                                   configuration.PreflightCacheDuration)))
  {
  }

  /** A name other than the configured one never reads the allow-list, the
      preflight duration or the request: two configurations with the same
      policy name give the inner provider's answer. */
  lemma DelegationIgnoresCorsSettings(
    c1: CorsConfiguration,
    c2: CorsConfiguration,
    inner: (HttpRequest, string) -> Option<CorsPolicy>,
    request: HttpRequest,
    policyName: string)
    requires c1.CorsPolicyName == c2.CorsPolicyName != policyName
    ensures GetPolicy(c1, inner, request, policyName) == GetPolicy(c2, inner, request, policyName)
  {
  }

  /** A missing allow-list and an empty one decide alike. */
  lemma AbsentAllowListIsEmptyAllowList(configuration: CorsConfiguration, request: HttpRequest)
    ensures Process(request, configuration.(AllowedOrigins := None))
         == Process(request, configuration.(AllowedOrigins := Some([])))
  {
  }

  /** Adding entries to a non-empty allow-list never changes the answer for an
      origin it already admitted. */
  lemma AllowListGrowthKeepsPolicies(configuration: CorsConfiguration, request: HttpRequest, more: seq<string>)
    requires configuration.AllowedOrigins.Some? && |configuration.AllowedOrigins.value| > 0
    requires Admits(request, configuration)
    ensures Process(request, configuration.(AllowedOrigins := Some(configuration.AllowedOrigins.value + more)))
         == Process(request, configuration)
  {
  }

  /** ASCII letters folded to lower case, everything else kept. */
  function AsciiLower(s: string): string
  {
    seq(|s|, i requires 0 <= i < |s| => if 'A' <= s[i] <= 'Z' then (s[i] as int + 32) as char else s[i])
  }

  /** Origins are matched by ordinal equality: an origin that is not itself in
      the allow-list is rejected even when it equals an entry up to letter
      case. The case-folding hypothesis only names the inputs of interest;
      the proof rests on ordinal membership alone, so folding plays no part
      in the decision. */
  lemma OriginMatchIsCaseSensitive(configuration: CorsConfiguration, request: HttpRequest, entry: string)
    requires configuration.AllowedOrigins.Some? && entry in configuration.AllowedOrigins.value
    requires GetCorsOrigin(request).Some? && GetCorsOrigin(request).value !in configuration.AllowedOrigins.value
    requires AsciiLower(GetCorsOrigin(request).value) == AsciiLower(entry)
    ensures Process(request, configuration) == Success(None)
  {
  }

  /** With the default configuration the policy "MicroAutomation" grants
      every cross-origin request a policy for its origin with a ten-minute
      preflight cache, except the literal origin "*", for which the builder
      refuses to combine a wildcard with credentials; same-origin requests
      get none. */
  lemma DefaultConfigurationDecision(
    inner: (HttpRequest, string) -> Option<CorsPolicy>,
    request: HttpRequest)
    ensures GetPolicy(DefaultCorsConfiguration(), inner, request, "MicroAutomation") ==
      if |request.Origin| == 0 || request.Origin[0] == ThisOrigin(request) then Success(None)
      else if request.Origin[0] == Wildcard then Failure(InsecureConfiguration)
      else Success(Some(CorsPolicy([request.Origin[0]], [Wildcard], [Wildcard], true, Some(FromMinutes(10)))))
  {
  }
}
