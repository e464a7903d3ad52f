# MicroAutomation web host bootstrap, modelled in Dafny

This project models the decision logic of a reusable ASP.NET Core host
bootstrap.

- **CORS policy provider.** It decorates the framework's provider. For the
  configured policy name it reads the request's `Origin` header and compares it
  with the request's own `scheme://host`. It then checks the origin against the
  allow-list and returns either a permissive policy for that single origin or no
  policy, unless the framework's policy builder throws. Any other policy name is passed to the inner provider.
- **Kestrel endpoint configuration.** It resolves each endpoint's port and adds
  one listener per endpoint. A certificate is attached only to `https`
  endpoints, taken from the OS store or from a file. Client-certificate HTTPS
  defaults are set only in certificate authentication mode.
- **Host bootstrap.** It covers the environment-name fallback, the ordered
  configuration sources, IIS and Docker detection, and the gates these put on
  Kestrel configuration and on the `UseWindowsService` / `UseSystemd` calls. It also
  covers the top-level fatal-error handler.
- **Configuration records.** `ServiceOption`, `ServiceEndpointOption`,
  `AuthenticationType` and `CorsConfiguration`, with their defaults.

Modules:

- `Wrappers`: `Option` and `Result`.
- `DotNetStrings`: `string.CompareOrdinal`, `char.IsWhiteSpace` and
  `string.IsNullOrWhiteSpace`.
- `Models`
- `CorsPolicyProvider`
- `KestrelExtensions`
- `DefaultWebProgram`

The following are parameters of the model:

- the configuration snapshot;
- the inner CORS provider (a function);
- the certificate store search and the certificate file reader (functions
  returning a `Result`);
- the environment name;
- the OS, process name and environment variables;
- the clock.

Points worth noting in the code:

- The default endpoint's scheme is the upper-case `"HTTP"`. Because the TLS
  test is the case-sensitive `"https"`, that endpoint never gets a certificate.
- Revocation checking, a required client certificate and TLS 1.2 are all
  configured only in `Certificate` authentication mode. In `Default` mode an
  https endpoint keeps the framework's HTTPS defaults.
- The certificate store is consulted whenever `StoreName` and `StoreLocation`
  are both set, even when `FilePath` is set too.
- The policy builder throws for a request whose `Origin` is the literal `*`
  (a wildcard origin cannot be combined with credentials) and for a negative
  preflight duration. The model carries these as failures of the decision.

## Model

| member | source | states |
|---|---|---|
| Models.DefaultServiceOption | Src/Models/ServiceOption.cs:10-21 | default authentication is `Default`; exactly one endpoint, port 5000, scheme upper-case "HTTP" (not "https"), every certificate field null |
| Models.DefaultCorsConfiguration | Src/Models/CorsConfiguration.cs:14-24 | default policy name "MicroAutomation", preflight cache present and equal to ten minutes, allow-list absent |
| DotNetStrings.CompareOrdinal | Src/DefaultWebProgram.cs:115-116 | the ordinal comparison is zero exactly when the two strings are equal |
| CorsPolicyProvider.GetCorsOrigin | Src/Services/CorsPolicyProvider.cs:89-102 | the indicator is present iff there is an `Origin` value and the first one differs from `Scheme + "://" + Host`, and then it is that first value |
| CorsPolicyProvider.AnyEquals | Src/Services/CorsPolicyProvider.cs:60 | `Any(x => x == origin)` holds iff some list element equals the origin |
| CorsPolicyProvider.Allow | Src/Services/CorsPolicyProvider.cs:73-87 | the builder fails iff the preflight duration is negative (that failure first) or the origin is `*`; otherwise the policy's origins are exactly `[origin]`, headers and methods exactly the wildcard, credentials allowed, and a max-age is set iff `PreflightCacheDuration` has a value, equal to it |
| CorsPolicyProvider.Process | Src/Services/CorsPolicyProvider.cs:46-71 | without a cross-origin indicator, or for an origin the allow-list (non-empty, exact equality) rejects, the answer is the same "no policy"; an admitted origin gets exactly `Allow(origin)`'s policy or its failure |
| CorsPolicyProvider.GetPolicy | Src/Services/CorsPolicyProvider.cs:31-44 | a name other than the configured one returns exactly the inner provider's result; for the configured name every policy names only the request's first `Origin` value, which is neither the server's own origin nor `*`, and a failure only arises for a cross-origin request with origin `*` or a negative preflight duration |
| CorsPolicyProvider.PolicyDecision | Src/Services/CorsPolicyProvider.cs:31-103 | the complete decision table (delegate, no indicator, rejected, builder failure, allowed) against an independent closed-form definition |
| CorsPolicyProvider.DelegationIgnoresCorsSettings | Src/Services/CorsPolicyProvider.cs:36-43 | for a non-matching name, two configurations with the same policy name give the same result, so the allow-list and max-age are never consulted |
| CorsPolicyProvider.AbsentAllowListIsEmptyAllowList | Src/Services/CorsPolicyProvider.cs:54-58 | a null allow-list and an empty one decide identically (allow every present origin) |
| CorsPolicyProvider.AllowListGrowthKeepsPolicies | Src/Services/CorsPolicyProvider.cs:60-64 | adding entries to a non-empty allow-list never changes the answer for an origin it already admitted |
| CorsPolicyProvider.OriginMatchIsCaseSensitive | Src/Services/CorsPolicyProvider.cs:60 | for all inputs: an origin that is not itself in the allow-list gets no policy even when it equals some entry after ASCII case folding |
| CorsPolicyProvider.DefaultConfigurationDecision | Src/Models/CorsConfiguration.cs:14-24 | with the default configuration and the name "MicroAutomation", every cross-origin request other than origin `*` gets a policy for its origin with a ten-minute max-age, origin `*` makes the builder fail, and same-origin requests and requests without `Origin` get none |
| KestrelExtensions.SelectSource | Src/Extensions/KestrelExtensions.cs:63-91 | store iff `StoreName` and `StoreLocation` are both set (even with `FilePath`), searched valid-only iff the environment is not "Development"; otherwise file with password, file without password, or no source |
| KestrelExtensions.LoadCertificate | Src/Extensions/KestrelExtensions.cs:61-92 | with store name and location set: succeeds iff the search succeeds with a match, giving the first match, "Certificate not found for {Subject}." on zero matches, the store's own failure otherwise; else the file reader's result (with the password when set); else the "No valid certificate configuration" error |
| KestrelExtensions.ResolvePort | Src/Extensions/KestrelExtensions.cs:41 | `Port` when set, otherwise 443 for scheme "https" and 80 for anything else |
| KestrelExtensions.ListenerFor | Src/Extensions/KestrelExtensions.cs:41-57 | the listener is on `IPAddress.Any` at the resolved port; it has a certificate iff the scheme is exactly "https"; it fails iff the scheme is "https" and loading fails, with the message "Unable to load certificat : " + the inner message |
| KestrelExtensions.PlanAppend | Src/Extensions/KestrelExtensions.cs:39-58 | configuring a concatenation of endpoint lists is configuring the first list, then (unless it failed) the second after it |
| KestrelExtensions.PlanStep | Src/Extensions/KestrelExtensions.cs:39-58 | one loop iteration: after a successful prefix the next endpoint either appends its listener or ends configuration with its own failure |
| KestrelExtensions.PlanSucceedsWithOneListenerPerEndpoint | Src/Extensions/KestrelExtensions.cs:39-58 | configuration succeeds iff every endpoint's listener can be built, and then there is exactly one listener per endpoint, in list order |
| KestrelExtensions.PlanStopsAtFirstFailure | Src/Extensions/KestrelExtensions.cs:39-58 | a failure is the first failing endpoint's message; exactly the endpoints before it are listening |
| KestrelExtensions.KestrelServerOptions.ConfigureEndpoints | Src/Extensions/KestrelExtensions.cs:17-59 | afterwards `AddServerHeader` is false; the HTTPS defaults are revocation check, required client certificate and TLS 1.2 iff authentication is `Certificate`, else untouched; the listeners and the error are those of the plan |
| KestrelExtensions.DefaultServiceListensPlainOn5000 | Src/Models/ServiceOption.cs:10-21 | the default service option yields exactly one listener, on port 5000, without a certificate and without error, whatever the store and files hold; the HTTPS defaults gate is off |
| DefaultWebProgram.EnvironmentName | Src/DefaultWebProgram.cs:62-66 | ASPNETCORE_ENVIRONMENT if not null or whitespace, else DOTNET_ENVIRONMENT if not null or whitespace, else "Production"; the result is never blank |
| DefaultWebProgram.IsUnderWindowsWebServer | Src/DefaultWebProgram.cs:112-117 | true iff the process name is exactly "iisexpress" or "w3wp" |
| DefaultWebProgram.IsUnderDocker | Src/DefaultWebProgram.cs:123-124 | true iff DOTNET_RUNNING_IN_CONTAINER is set to exactly "true" |
| DefaultWebProgram.AppConfigurationSources | Src/DefaultWebProgram.cs:69-73 | four sources in order: required appsettings.json, optional appsettings.{env}.json, environment variables, command line |
| DefaultWebProgram.ServiceIntegrations | Src/DefaultWebProgram.cs:98-106 | `UseWindowsService` is called iff Windows and not under IIS; `UseSystemd` iff Linux and not under Docker; at most one of them |
| DefaultWebProgram.HostBuilder.ConfigureAppConfiguration | Src/DefaultWebProgram.cs:59-76 | appends exactly the four sources for the resolved environment name after the builder's existing ones; nothing else changes |
| DefaultWebProgram.HostBuilder.ConfigureWebHostDefaults | Src/DefaultWebProgram.cs:79-86 | Kestrel endpoint configuration is applied iff neither under IIS nor under Docker; the startup class is registered in every case |
| DefaultWebProgram.HostBuilder.AddServiceSupport | Src/DefaultWebProgram.cs:98-106 | records exactly the gated `UseWindowsService` / `UseSystemd` calls; nothing else changes |
| DefaultWebProgram.CreateHostBuilder | Src/DefaultWebProgram.cs:42-92 | the resulting builder has the default sources followed by the four app sources, the Kestrel gate, the startup class and the gated service-manager calls |
| DefaultWebProgram.StandaloneHostsCallServiceIntegration | Src/DefaultWebProgram.cs:83-105 | a standalone host on Windows or Linux calls exactly one service-manager integration; under IIS neither Kestrel endpoints nor `UseWindowsService`; under Docker neither Kestrel endpoints nor `UseSystemd` |
| DefaultWebProgram.RunProgram | Src/DefaultWebProgram.cs:19-40 | an exception from `host.Run()` never propagates: if the handler's own file I/O succeeds it becomes a report appended to the path `{logDirectory}\log-{date}.txt`, whose line is the timestamped header, the exception's message, " innerError:" and the inner message; if that I/O throws, exactly the I/O exception leaves; a completed run reports nothing |
| DefaultWebProgram.LinuxLogFileSitsBesideLogs | Src/DefaultWebProgram.cs:34 | the log path is the directory followed by a literal backslash and a tail with no `/`, so where `\` is not a separator (Linux) the file is one name, `Logs\log-{date}.txt`, beside the directory |

## Left out

- X.509 store access and certificate file parsing are abstract functions. This
  includes `Enum.Parse` of the store location, which the store function may
  fail on. TLS handshakes and the meaning of `UseHttps` belong to the
  framework; the model records only which certificate is attached.
- Configuration binding, JSON loading, `reloadOnChange` and the framework's
  precedence rules are left out. `ServiceOption` and `CorsConfiguration` are
  parameters. Only the ordered list of sources is modelled.
- The Kestrel endpoint configuration binds `ServiceOption` from its own two
  sources only, `appsettings.json` and `appsettings.{environment}.json`
  (Src/Extensions/KestrelExtensions.cs:20-23). It does not see the
  environment variables or command-line arguments of `AppConfigurationSources`.
- The `environmentName` given to `LoadCertificate` and `ConfigureEndpoints` is
  the framework's host environment name (Src/Extensions/KestrelExtensions.cs:19).
  It is not `DefaultWebProgram.EnvironmentName`. The two can differ: for
  example, an `--environment` command-line argument sets the framework's name,
  while `EnvironmentName` reads only the two environment variables.
- Null elements inside `AllowedOrigins` or `Endpoints` are not modelled. A null
  allow-list entry could never equal a present origin, so the CORS decision
  would be unchanged. A null endpoint makes `endpoint.Port` throw a
  `NullReferenceException` outside the `try` that wraps certificate failures;
  that unwrapped failure is not modelled.
- The framework's CORS policy builder normalises origins (lower-casing). The
  model records the origin as it is passed to `WithOrigins`. The builder's two
  exceptions on this path are modelled: a negative max-age and a `*` origin
  with credentials.
- Port range validation by `IPEndPoint`, and the endpoint defaults Kestrel
  applies in `Listen`, belong to the framework.
- Logging in the CORS provider and the `Task`/async wrapping are left out.
- The `ConfigureAppConfiguration` callback is modelled as running when it is
  registered. The framework defers it to `Build`, after the other callbacks
  have been registered. `ConfigureWebHostDefaults` runs its callback
  immediately, as modelled. The Kestrel options callback (`ConfigureEndpoints`)
  is deferred to when the server options are created; the model records only
  that it is installed.
- `UseWindowsService` and `UseSystemd` install their lifetime only when the
  process was started by the Windows service manager or by systemd. The
  framework checks this itself. The model records which of the two calls is
  made, not whether a lifetime ends up installed.
- `GetEnvironmentVariable` is modelled as an exact, case-sensitive name lookup.
  On Windows the lookup ignores case.
- `Build<T>`, `UseContentRoot`, `Directory.SetCurrentDirectory`, the Serilog
  setup and `SetBasePath` are left out. These are framework or file-system
  calls.
- RunProgram: the resolution of the log directory from the entry assembly, the
  console colour and the clock formatting are left out; the directory and the
  formatted time and date are parameters. Whether the handler's own file I/O
  throws is a parameter too, not derived from the file system.
- DotNetStrings.CompareOrdinal: compares Unicode code points rather than UTF-16
  code units. Only equality with zero is used, and it is unaffected.
- `TimeSpan.FromMinutes` takes a floating-point argument. The model uses whole
  minutes, which is exact for the ten-minute default.
- Src/DefaultWebStartup.cs, Src/Extensions/CorsExtensions.cs and
  Src/Extensions/HstsExtensions.cs are not part of this model. They are
  dependency-injection and middleware registration with framework-defined
  behaviour and fixed constants. CorsExtensions passes the configured policy
  name to the middleware, which is the name `GetPolicy` then decides on.
