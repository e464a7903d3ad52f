/** Kestrel endpoint configuration: every configured endpoint becomes one
    listener on all interfaces, https endpoints get a certificate resolved from
    the OS store or from a file, and the HTTPS defaults require client
    certificates only in certificate authentication mode. The certificate store
    and the certificate file reader are abstract oracles. */
module KestrelExtensions {
  import opened Wrappers
  import opened Models

  /** An X.509 certificate, known only by identity. */
  datatype X509Certificate = X509Certificate(id: nat)

  /** Opening store `name` at location `location` (parsed as a
      `StoreLocation`) read-only and searching it by subject name, valid
      certificates only when the flag is set: the matches in store order, or
      the message of the exception the store raised. */
  type StoreSearch = (string, string, Option<string>, bool) -> Result<seq<X509Certificate>, string>

  /** Reading a certificate file, with a password or without: the certificate
      or the message of the exception the reader raised. */
  type FileLoad = (string, Option<string>) -> Result<X509Certificate, string>

  const NoValidConfigurationMessage: string := "No valid certificate configuration found for the current endpoint."

  function NotFoundMessage(subject: Option<string>): string
  {
    "Certificate not found for " + (if subject.Some? then subject.value else "") + "."
  }

  function UnableToLoadMessage(inner: string): string
  {
    "Unable to load certificat : " + inner
  }

  /** Where `LoadCertificate` takes the certificate from. */
  datatype CertificateSource =
    | Store(name: string, location: string, subject: Option<string>, validOnly: bool)
    | FileWithPassword(path: string, password: string)
    | FileWithoutPassword(path: string)
    | NoSource

  /** The store wins whenever its name and location are both set, then a file
      with its password, then a file alone; validity is only waived in the
      "Development" environment. */
  function SelectSource(config: ServiceEndpointOption, environmentName: string): (source: CertificateSource)
    ensures source.Store? <==> config.StoreName.Some? && config.StoreLocation.Some?
    ensures source.Store? ==>
      source == Store(config.StoreName.value, config.StoreLocation.value, config.Subject,
                      environmentName != "Development")
    ensures source.FileWithPassword? <==>
      !source.Store? && config.FilePath.Some? && config.Password.Some?
    ensures source.FileWithoutPassword? <==>
      !source.Store? && config.FilePath.Some? && config.Password.None?
    ensures source.NoSource? <==> !source.Store? && config.FilePath.None?
    ensures source.FileWithPassword? ==> source == FileWithPassword(config.FilePath.value, config.Password.value)
    ensures source.FileWithoutPassword? ==> source == FileWithoutPassword(config.FilePath.value)
  {
    if config.StoreName.Some? && config.StoreLocation.Some? then
      Store(config.StoreName.value, config.StoreLocation.value, config.Subject,
            environmentName != "Development")
    else if config.FilePath.Some? && config.Password.Some? then
      FileWithPassword(config.FilePath.value, config.Password.value)
    else if config.FilePath.Some? && config.Password.None? then
      FileWithoutPassword(config.FilePath.value)
    else
      NoSource
  }

  /** `LoadCertificate`: with store name and location set, the first match
      of the store search (an empty search fails naming the subject, a failing
      store passes its failure on); otherwise the file's certificate, read with
      the password when one is set; with no file either, the configuration
      error. */
  function LoadCertificate(config: ServiceEndpointOption, environmentName: string, store: StoreSearch, file: FileLoad)
    : (certificate: Result<X509Certificate, string>)
    ensures config.StoreName.Some? && config.StoreLocation.Some? ==>
      var found := store(config.StoreName.value, config.StoreLocation.value, config.Subject,
                         environmentName != "Development");
      (certificate.Success? <==> found.Success? && |found.value| > 0) &&
      (certificate.Success? ==> certificate.value == found.value[0]) &&
      (found.Failure? ==> certificate == Failure(found.error)) &&
      (found.Success? && |found.value| == 0 ==> certificate == Failure(NotFoundMessage(config.Subject)))
    ensures !(config.StoreName.Some? && config.StoreLocation.Some?) && config.FilePath.Some? ==>
      certificate == file(config.FilePath.value, config.Password)
    ensures !(config.StoreName.Some? && config.StoreLocation.Some?) && config.FilePath.None? ==>
      certificate == Failure(NoValidConfigurationMessage)
  {
    match SelectSource(config, environmentName)
    case Store(name, location, subject, validOnly) =>
      (match store(name, location, subject, validOnly)
       case Failure(e) => Failure(e)
       case Success(matches) =>
         if |matches| == 0 then Failure(NotFoundMessage(subject)) else Success(matches[0]))
    case FileWithPassword(path, password) => file(path, Some(password))
    case FileWithoutPassword(path) => file(path, None)
    case NoSource => Failure(NoValidConfigurationMessage)
  }

  predicate IsHttps(endpoint: ServiceEndpointOption)
  {
    endpoint.Scheme == Some("https")
  }

  /** `Port ?? (Scheme == "https" ? 443 : 80)`. */
  function ResolvePort(endpoint: ServiceEndpointOption): (port: int)
    ensures endpoint.Port.Some? ==> port == endpoint.Port.value
    ensures endpoint.Port.None? && IsHttps(endpoint) ==> port == 443
    ensures endpoint.Port.None? && !IsHttps(endpoint) ==> port == 80
  {
    if endpoint.Port.Some? then endpoint.Port.value
    else if IsHttps(endpoint) then 443 else 80
  }

  datatype IPAddress = Any

  /** A listener as `options.Listen` records it: address, port and the
      certificate `UseHttps` attached, if any. */
  datatype Listener = Listener(Address: IPAddress, Port: int, Certificate: Option<X509Certificate>)

  /** The listener for one endpoint, or the wrapped message of the failure
      that aborts configuration. Only the exact, lower-case scheme "https" asks
      for a certificate. */
  function ListenerFor(endpoint: ServiceEndpointOption, environmentName: string, store: StoreSearch, file: FileLoad)
    : (listener: Result<Listener, string>)
    ensures listener.Success? ==>
      listener.value.Address == Any && listener.value.Port == ResolvePort(endpoint)
    ensures listener.Success? ==> (listener.value.Certificate.Some? <==> IsHttps(endpoint))
    ensures listener.Failure? <==> IsHttps(endpoint) && LoadCertificate(endpoint, environmentName, store, file).Failure?
    ensures listener.Failure? ==>
      listener.error == UnableToLoadMessage(LoadCertificate(endpoint, environmentName, store, file).error)
    ensures listener.Success? && IsHttps(endpoint) ==>
      listener.value.Certificate == Some(LoadCertificate(endpoint, environmentName, store, file).value)
  {
    var port := ResolvePort(endpoint);
    if IsHttps(endpoint) then
      match LoadCertificate(endpoint, environmentName, store, file)
      case Success(certificate) => Success(Listener(Any, port, Some(certificate)))
      case Failure(e) => Failure(UnableToLoadMessage(e))
    else
      Success(Listener(Any, port, None))
  }

  /** What configuring a list of endpoints leaves: the listeners added before
      the first failure, and that failure's message. */
  datatype Listening = Listening(listeners: seq<Listener>, error: Option<string>)

  function Plan(endpoints: seq<ServiceEndpointOption>, environmentName: string, store: StoreSearch, file: FileLoad)
    : Listening
  {
    if endpoints == [] then Listening([], None)
    else
      match ListenerFor(endpoints[0], environmentName, store, file)
      case Failure(e) => Listening([], Some(e))
      case Success(listener) =>
        var rest := Plan(endpoints[1..], environmentName, store, file);
        Listening([listener] + rest.listeners, rest.error)
  }

  /** Configuring `p + q` is configuring `p`, then, if that did not fail,
      configuring `q` after it. */
  lemma {:induction false} PlanAppend(
    p: seq<ServiceEndpointOption>, q: seq<ServiceEndpointOption>,
    environmentName: string, store: StoreSearch, file: FileLoad)
    ensures Plan(p + q, environmentName, store, file) ==
      var first := Plan(p, environmentName, store, file);
      if first.error.Some? then first
      else
        var second := Plan(q, environmentName, store, file);
        Listening(first.listeners + second.listeners, second.error)
  {
    if p == [] {
      assert p + q == q;
    } else {
      assert (p + q)[0] == p[0];
      assert (p + q)[1..] == p[1..] + q;
      PlanAppend(p[1..], q, environmentName, store, file);
      match ListenerFor(p[0], environmentName, store, file)
      case Failure(e) =>
      case Success(listener) =>
        var rest := Plan(p[1..], environmentName, store, file);
        if rest.error.None? {
          var second := Plan(q, environmentName, store, file);
          assert [listener] + (rest.listeners + second.listeners)
              == ([listener] + rest.listeners) + second.listeners;
        }
    }
  }

  /** One step of the endpoint loop: after a successful prefix, the next
      endpoint either adds its listener or ends the whole configuration with
      its failure. */
  lemma PlanStep(
    endpoints: seq<ServiceEndpointOption>, i: nat, environmentName: string, store: StoreSearch, file: FileLoad)
    requires i < |endpoints|
    requires Plan(endpoints[..i], environmentName, store, file).error.None?
    ensures var listener := ListenerFor(endpoints[i], environmentName, store, file);
      listener.Success? ==>
        Plan(endpoints[..i + 1], environmentName, store, file) ==
          Listening(Plan(endpoints[..i], environmentName, store, file).listeners + [listener.value], None)
    ensures var listener := ListenerFor(endpoints[i], environmentName, store, file);
      listener.Failure? ==>
        Plan(endpoints, environmentName, store, file) ==
          Listening(Plan(endpoints[..i], environmentName, store, file).listeners, Some(listener.error))
  {
    PlanAppend(endpoints[..i], [endpoints[i]], environmentName, store, file);
    assert endpoints[..i + 1] == endpoints[..i] + [endpoints[i]];
    PlanAppend(endpoints[..i + 1], endpoints[i + 1..], environmentName, store, file);
    var whole := endpoints[..i + 1] + endpoints[i + 1..];
    assert |whole| == |endpoints|;
    assert forall k :: 0 <= k < |whole| ==> whole[k] == endpoints[k];
    assert whole == endpoints;
  }

  /** Configuration succeeds exactly when every endpoint's listener can be
      built, and then there is one listener per endpoint, in list order. */
  lemma {:induction false} PlanSucceedsWithOneListenerPerEndpoint(
    endpoints: seq<ServiceEndpointOption>, environmentName: string, store: StoreSearch, file: FileLoad)
    ensures var plan := Plan(endpoints, environmentName, store, file);
      plan.error.None? <==>
        forall k :: 0 <= k < |endpoints| ==> ListenerFor(endpoints[k], environmentName, store, file).Success?
    ensures var plan := Plan(endpoints, environmentName, store, file);
      plan.error.None? ==>
        |plan.listeners| == |endpoints| &&
        forall k :: 0 <= k < |endpoints| ==>
          plan.listeners[k] == ListenerFor(endpoints[k], environmentName, store, file).value
  {
    if endpoints != [] {
      PlanSucceedsWithOneListenerPerEndpoint(endpoints[1..], environmentName, store, file);
      var rest := endpoints[1..];
      assert forall k :: 1 <= k < |endpoints| ==> endpoints[k] == rest[k - 1];
    }
  }

  /** A failed configuration stops at the first endpoint whose listener cannot
      be built: the endpoints before it are all listening, the message is its
      failure, and nothing after it is attempted. */
  lemma {:induction false} PlanStopsAtFirstFailure(
    endpoints: seq<ServiceEndpointOption>, environmentName: string, store: StoreSearch, file: FileLoad)
    requires Plan(endpoints, environmentName, store, file).error.Some?
    ensures exists k :: (0 <= k < |endpoints| &&
      ListenerFor(endpoints[k], environmentName, store, file).Failure? &&
      Plan(endpoints, environmentName, store, file) ==
        Listening(Plan(endpoints[..k], environmentName, store, file).listeners,
                  Some(ListenerFor(endpoints[k], environmentName, store, file).error)) &&
      Plan(endpoints[..k], environmentName, store, file).error.None?)
  {
    var first := ListenerFor(endpoints[0], environmentName, store, file);
    if first.Failure? {
      assert endpoints[..0] == [];
    } else {
      var rest := endpoints[1..];
      PlanStopsAtFirstFailure(rest, environmentName, store, file);
      var k :| 0 <= k < |rest| &&
        ListenerFor(rest[k], environmentName, store, file).Failure? &&
        Plan(rest, environmentName, store, file) ==
          Listening(Plan(rest[..k], environmentName, store, file).listeners,
                    Some(ListenerFor(rest[k], environmentName, store, file).error)) &&
        Plan(rest[..k], environmentName, store, file).error.None?;
      var prefix := endpoints[..k + 1];
      assert prefix[0] == endpoints[0] && prefix[1..] == rest[..k];
      assert endpoints[k + 1] == rest[k];
    }
  }

  /** TLS settings Kestrel applies to every `UseHttps` listener. */
  datatype ClientCertificateMode = NoCertificate | AllowCertificate | RequireCertificate
  datatype SslProtocols = SystemDefault | Tls12
  datatype HttpsDefaults = HttpsDefaults(
    CheckCertificateRevocation: bool,
    ClientCertificateMode: ClientCertificateMode,
    SslProtocols: SslProtocols)

  const FrameworkHttpsDefaults: HttpsDefaults := HttpsDefaults(false, NoCertificate, SystemDefault)
  const CertificateHttpsDefaults: HttpsDefaults := HttpsDefaults(true, RequireCertificate, Tls12)

  /** The Kestrel server options the endpoint configuration writes to. */
  class KestrelServerOptions {
    var AddServerHeader: bool
    var Https: HttpsDefaults
    var Listeners: seq<Listener>

    constructor ()
      ensures AddServerHeader && Https == FrameworkHttpsDefaults && Listeners == []
    {
      AddServerHeader := true;
      Https := FrameworkHttpsDefaults;
      Listeners := [];
    }

    /** `options.Listen`, once the listener's configuration callback has
        returned. */
    method Listen(listener: Listener)
      modifies this
      ensures Listeners == old(Listeners) + [listener]
      ensures AddServerHeader == old(AddServerHeader) && Https == old(Https)
    {
      Listeners := Listeners + [listener];
    }

    /** `ConfigureEndpoints`: hides the server header, requires client
        certificates over TLS 1.2 with revocation checks in certificate mode
        only, then listens on every endpoint in order, stopping with the
        wrapped message at the first certificate that cannot be resolved. */
    method ConfigureEndpoints(service: ServiceOption, environmentName: string, store: StoreSearch, file: FileLoad)
      returns (error: Option<string>)
      modifies this
      ensures !AddServerHeader
      ensures Https == if service.Authentication == AuthenticationType.Certificate then CertificateHttpsDefaults else old(Https)
      ensures Listeners == old(Listeners) + Plan(service.Endpoints, environmentName, store, file).listeners
      ensures error == Plan(service.Endpoints, environmentName, store, file).error
    {
      AddServerHeader := false;
      if service.Authentication == AuthenticationType.Certificate {
        Https := CertificateHttpsDefaults;
      }
      var endpoints := service.Endpoints;
      var i := 0;
      while i < |endpoints|
        invariant 0 <= i <= |endpoints|
        invariant Plan(endpoints[..i], environmentName, store, file).error.None?
        invariant Listeners == old(Listeners) + Plan(endpoints[..i], environmentName, store, file).listeners
        invariant !AddServerHeader
        invariant Https == if service.Authentication == AuthenticationType.Certificate then CertificateHttpsDefaults else old(Https)
      {
        var listener := ListenerFor(endpoints[i], environmentName, store, file);
        PlanStep(endpoints, i, environmentName, store, file);
        if listener.Failure? {
          return Some(listener.error);
        }
        Listen(listener.value);
        i := i + 1;
      }
      assert endpoints[..i] == endpoints;
      return None;
    }
  }

  /** The default service option serves plain HTTP on port 5000 whatever the
      store and the files hold, and leaves the HTTPS defaults alone. */
  lemma DefaultServiceListensPlainOn5000(environmentName: string, store: StoreSearch, file: FileLoad)
    ensures Plan(DefaultServiceOption().Endpoints, environmentName, store, file)
         == Listening([Listener(Any, 5000, None)], None)
    ensures DefaultServiceOption().Authentication != AuthenticationType.Certificate
  {
  }
}
