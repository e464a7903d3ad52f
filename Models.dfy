/** The configuration records of the web host, as they are bound from the
    settings sources: the authentication mode, one listening endpoint, the
    service option (mode + endpoints) and the CORS configuration, each with the
    defaults its constructor or property initialisers give it. A `null` the
    binder may leave is `None`. */
module Models {
  import opened Wrappers

  /** Whether Kestrel is set up to require client certificates. */
  datatype AuthenticationType = Default | Certificate

  /** A .NET `TimeSpan`, counted in ticks of 100 nanoseconds. */
  datatype TimeSpan = TimeSpan(ticks: int)

  const TicksPerMinute: int := 600_000_000

  function FromMinutes(minutes: int): TimeSpan
  {
    TimeSpan(minutes * TicksPerMinute)
  }

  /** One endpoint the host listens on, with the fields that locate its
      certificate: in an OS store (StoreName, StoreLocation, Subject) or in a
      file (FilePath, Password). */
  datatype ServiceEndpointOption = ServiceEndpointOption(
    Port: Option<int>,
    Scheme: Option<string>,
    StoreName: Option<string>,
    StoreLocation: Option<string>,
    Subject: Option<string>,
    FilePath: Option<string>,
    Password: Option<string>)

  datatype ServiceOption = ServiceOption(
    Authentication: AuthenticationType,
    Endpoints: seq<ServiceEndpointOption>)

  /** What `new ServiceOption()` holds before binding: default authentication
      and a single endpoint with the upper-case scheme "HTTP" on port 5000 and
      no certificate field set. */
  function DefaultServiceOption(): (option: ServiceOption)
    ensures option.Authentication == Default
    ensures |option.Endpoints| == 1
    ensures option.Endpoints[0].Port == Some(5000)
    ensures option.Endpoints[0].Scheme == Some("HTTP") && option.Endpoints[0].Scheme != Some("https")
    ensures option.Endpoints[0].StoreName.None? && option.Endpoints[0].StoreLocation.None?
    ensures option.Endpoints[0].Subject.None?
    ensures option.Endpoints[0].FilePath.None? && option.Endpoints[0].Password.None?
  {
    ServiceOption(
      Default,
      [ServiceEndpointOption(Some(5000), Some("HTTP"), None, None, None, None, None)])
  }

  datatype CorsConfiguration = CorsConfiguration(
    CorsPolicyName: string,
    PreflightCacheDuration: Option<TimeSpan>,
    AllowedOrigins: Option<seq<string>>)

  /** What `new CorsConfiguration()` holds before binding: the policy name
      "MicroAutomation", a ten-minute preflight cache and no allow-list. */
  function DefaultCorsConfiguration(): (configuration: CorsConfiguration)
    ensures configuration.CorsPolicyName == "MicroAutomation"
    ensures configuration.PreflightCacheDuration == Some(FromMinutes(10))
    ensures configuration.PreflightCacheDuration.value.ticks == 6_000_000_000
    ensures configuration.AllowedOrigins.None?
  {
    CorsConfiguration("MicroAutomation", Some(FromMinutes(10)), None)
  }
}
