/** Host bootstrap: the environment name, the ordered configuration sources,
    the detection of IIS and Docker, and the gates they put on Kestrel
    endpoint configuration and on Windows-service / systemd registration. The
    process environment is a parameter: the OS, the current process name and
    the environment variables. */
module DefaultWebProgram {
  import opened Wrappers
  import opened DotNetStrings

  datatype OSPlatform = Windows | Linux | OSX | FreeBSD

  datatype HostEnvironment = HostEnvironment(
    Platform: OSPlatform,
    ProcessName: string,
    Variables: map<string, string>)

  /** `Environment.GetEnvironmentVariable`: null when the variable is unset. */
  function GetEnvironmentVariable(host: HostEnvironment, name: string): Option<string>
  {
    if name in host.Variables then Some(host.Variables[name]) else None
  }

  /** The environment name: ASPNETCORE_ENVIRONMENT unless it is blank, then
      DOTNET_ENVIRONMENT unless that is blank too, then "Production". */
  function EnvironmentName(host: HostEnvironment): (name: string)
    ensures var aspnetcore := GetEnvironmentVariable(host, "ASPNETCORE_ENVIRONMENT");
      !IsNullOrWhiteSpace(aspnetcore) ==> name == aspnetcore.value
    ensures var aspnetcore := GetEnvironmentVariable(host, "ASPNETCORE_ENVIRONMENT");
      var dotnetcore := GetEnvironmentVariable(host, "DOTNET_ENVIRONMENT");
      IsNullOrWhiteSpace(aspnetcore) && !IsNullOrWhiteSpace(dotnetcore) ==> name == dotnetcore.value
    ensures var aspnetcore := GetEnvironmentVariable(host, "ASPNETCORE_ENVIRONMENT");
      var dotnetcore := GetEnvironmentVariable(host, "DOTNET_ENVIRONMENT");
      IsNullOrWhiteSpace(aspnetcore) && IsNullOrWhiteSpace(dotnetcore) ==> name == "Production"
    ensures !IsNullOrWhiteSpace(Some(name))
  {
    var aspnetcore := GetEnvironmentVariable(host, "ASPNETCORE_ENVIRONMENT");
    var dotnetcore := GetEnvironmentVariable(host, "DOTNET_ENVIRONMENT");
    var environmentName := if IsNullOrWhiteSpace(aspnetcore) then dotnetcore else aspnetcore;
    if IsNullOrWhiteSpace(environmentName) then
      assert !IsWhiteSpace("Production"[0]);
      "Production"
    else environmentName.value
  }

  /** Running inside IIS or IIS Express, which bind the ports themselves:
      the process name is ordinally "iisexpress" or "w3wp". */
  function IsUnderWindowsWebServer(host: HostEnvironment): (under: bool)
    ensures under <==> host.ProcessName == "iisexpress" || host.ProcessName == "w3wp"
  {
    CompareOrdinal(host.ProcessName, "iisexpress") == 0 || CompareOrdinal(host.ProcessName, "w3wp") == 0
  }

  /** Running in a container image: DOTNET_RUNNING_IN_CONTAINER is set to
      exactly "true". */
  function IsUnderDocker(host: HostEnvironment): (under: bool)
    ensures under <==>
      "DOTNET_RUNNING_IN_CONTAINER" in host.Variables && host.Variables["DOTNET_RUNNING_IN_CONTAINER"] == "true"
  {
    GetEnvironmentVariable(host, "DOTNET_RUNNING_IN_CONTAINER") == Some("true")
  }

  /** Kestrel endpoint configuration is for a standalone host only. */
  predicate ConfiguresKestrelEndpoints(host: HostEnvironment)
  {
    !IsUnderWindowsWebServer(host) && !IsUnderDocker(host)
  }

  datatype ConfigurationSource =
    | JsonFile(Path: string, Optional: bool)
    | EnvironmentVariables
    | CommandLine(Args: seq<string>)

  /** The sources the bootstrap adds, in the order that makes later ones win:
      the required base file, the optional file of the environment, the
      environment variables, the command line. */
  function AppConfigurationSources(environmentName: string, args: seq<string>): (sources: seq<ConfigurationSource>)
    ensures |sources| == 4
    ensures sources[0] == JsonFile("appsettings.json", false)
    ensures sources[1] == JsonFile("appsettings." + environmentName + ".json", true)
    ensures sources[2] == EnvironmentVariables && sources[3] == CommandLine(args)
  {
    [JsonFile("appsettings.json", false),
     JsonFile("appsettings." + environmentName + ".json", true),
     EnvironmentVariables,
     CommandLine(args)]
  }

  /** The service-manager integrations the bootstrap asks for. Each framework
      call installs its lifetime only when the process was in fact started by
      that service manager. */
  datatype ServiceIntegration = UseWindowsService | UseSystemd

  /** The integrations `AddServiceSupport` calls, `UseWindowsService` first. */
  function ServiceIntegrations(host: HostEnvironment): (integrations: seq<ServiceIntegration>)
    ensures UseWindowsService in integrations <==> host.Platform == Windows && !IsUnderWindowsWebServer(host)
    ensures UseSystemd in integrations <==> host.Platform == Linux && !IsUnderDocker(host)
    ensures |integrations| <= 1
  {
    (if host.Platform == Windows && !IsUnderWindowsWebServer(host) then [UseWindowsService] else [])
    + (if host.Platform == Linux && !IsUnderDocker(host) then [UseSystemd] else [])
  }

  /** The parts of a host builder the bootstrap changes. */
  class HostBuilder {
    var ConfigurationSources: seq<ConfigurationSource>
    var KestrelEndpointsConfigured: bool
    var StartupRegistered: bool
    var Integrations: seq<ServiceIntegration>

    /** `Host.CreateDefaultBuilder`, with whatever sources it registers itself. */
    constructor (defaultSources: seq<ConfigurationSource>)
      ensures ConfigurationSources == defaultSources
      ensures !KestrelEndpointsConfigured && !StartupRegistered && Integrations == []
    {
      ConfigurationSources := defaultSources;
      KestrelEndpointsConfigured := false;
      StartupRegistered := false;
      Integrations := [];
    }

    method AddConfigurationSource(source: ConfigurationSource)
      modifies this
      ensures ConfigurationSources == old(ConfigurationSources) + [source]
      ensures KestrelEndpointsConfigured == old(KestrelEndpointsConfigured)
      ensures StartupRegistered == old(StartupRegistered) && Integrations == old(Integrations)
    {
      ConfigurationSources := ConfigurationSources + [source];
    }

    /** The `ConfigureAppConfiguration` callback, which the framework runs
        when the host is built. */
    method ConfigureAppConfiguration(host: HostEnvironment, args: seq<string>)
      modifies this
      ensures ConfigurationSources == old(ConfigurationSources) + AppConfigurationSources(EnvironmentName(host), args)
      ensures KestrelEndpointsConfigured == old(KestrelEndpointsConfigured)
      ensures StartupRegistered == old(StartupRegistered) && Integrations == old(Integrations)
    {
      var environmentName := EnvironmentName(host);
      AddConfigurationSource(JsonFile("appsettings.json", false));
      AddConfigurationSource(JsonFile("appsettings." + environmentName + ".json", true));
      AddConfigurationSource(EnvironmentVariables);
      AddConfigurationSource(CommandLine(args));
    }

    /** The `ConfigureWebHostDefaults` callback, which runs as soon as it is
        registered. */
    method ConfigureWebHostDefaults(host: HostEnvironment)
      modifies this
      ensures KestrelEndpointsConfigured == (old(KestrelEndpointsConfigured) || ConfiguresKestrelEndpoints(host))
      ensures StartupRegistered
      ensures ConfigurationSources == old(ConfigurationSources) && Integrations == old(Integrations)
    {
      if !IsUnderWindowsWebServer(host) && !IsUnderDocker(host) {
        KestrelEndpointsConfigured := true;
      }
      StartupRegistered := true;
    }

    /** `AddServiceSupport`: records the gated `UseWindowsService` and
        `UseSystemd` calls. */
    method AddServiceSupport(host: HostEnvironment)
      modifies this
      ensures Integrations == old(Integrations) + ServiceIntegrations(host)
      ensures ConfigurationSources == old(ConfigurationSources)
      ensures KestrelEndpointsConfigured == old(KestrelEndpointsConfigured)
      ensures StartupRegistered == old(StartupRegistered)
    {
      if host.Platform == Windows && !IsUnderWindowsWebServer(host) {
        Integrations := Integrations + [UseWindowsService];
      }
      if host.Platform == Linux && !IsUnderDocker(host) {
        Integrations := Integrations + [UseSystemd];
      }
    }
  }

  /** `CreateHostBuilder`: the default builder, then the four sources, the
      gated Kestrel configuration with the startup class, and the service
      lifetime. */
  method CreateHostBuilder(host: HostEnvironment, defaultSources: seq<ConfigurationSource>, args: seq<string>)
    returns (builder: HostBuilder)
    ensures fresh(builder)
    ensures builder.ConfigurationSources == defaultSources + AppConfigurationSources(EnvironmentName(host), args)
    ensures builder.KestrelEndpointsConfigured == ConfiguresKestrelEndpoints(host)
    ensures builder.StartupRegistered
    ensures builder.Integrations == ServiceIntegrations(host)
  {
    builder := new HostBuilder(defaultSources);
    builder.ConfigureAppConfiguration(host, args);
    builder.ConfigureWebHostDefaults(host);
    builder.AddServiceSupport(host);
  }

  /** A standalone host on Windows or Linux calls exactly one service-manager
      integration, the one of its platform; under IIS it neither configures
      Kestrel endpoints nor calls `UseWindowsService`, and under Docker it
      neither configures Kestrel endpoints nor calls `UseSystemd`. */
  lemma StandaloneHostsCallServiceIntegration(host: HostEnvironment)
    ensures ConfiguresKestrelEndpoints(host) && host.Platform in {Windows, Linux} ==> |ServiceIntegrations(host)| == 1
    ensures IsUnderWindowsWebServer(host) ==> !ConfiguresKestrelEndpoints(host) && UseWindowsService !in ServiceIntegrations(host)
    ensures IsUnderDocker(host) ==> !ConfiguresKestrelEndpoints(host) && UseSystemd !in ServiceIntegrations(host)
  {
  }

  /** An exception as `RunProgram` reports it. */
  datatype Exception = Exception(Message: string, InnerException: Option<Exception>)

  datatype RunOutcome = Completed | Threw(Exception: Exception)

  /** The path the fatal line is appended to, and the line itself (also
      written to the console). */
  datatype FatalReport = FatalReport(LogFilePath: string, Message: string)

  /** How `RunProgram` ends: the run completed, the run's exception was
      reported, or the handler's own file I/O (creating the log directory,
      appending to the file) threw, and that exception leaves `RunProgram`. */
  datatype RunResult = Finished | Reported(Report: FatalReport) | HandlerThrew(HandlerException: Exception)

  function FatalHeader(now: string): string
  {
    "[" + now + "] Host terminated unexpectedl: error: "
  }

  /** The log path as the source writes it: the log directory, a literal
      backslash, then "log-{date}.txt". Where the backslash separates paths
      (Windows) this is the dated file inside the log directory; elsewhere
      (Linux) it is a single file name beside the directory. */
  function LogFilePath(logDirectory: string, today: string): string
  {
    logDirectory + "\\log-" + today + ".txt"
  }

  /** `RunProgram`: whatever `host.Run()` throws is caught and never rethrown;
      a run that completes reports nothing. The report line starts with the
      time, then the exception's own message, then " innerError:" and the
      inner exception's message (empty when there is none). The only
      exception that can leave is one thrown by the handler's own file I/O,
      given as `logFailure`. `logDirectory`, `now` and `today` are the
      resolved "Logs" directory and the clock, formatted. */
  function RunProgram(outcome: RunOutcome, logDirectory: string, now: string, today: string, logFailure: Option<Exception>)
    : (result: RunResult)
    ensures result.Finished? <==> outcome.Completed?
    ensures result.HandlerThrew? <==> outcome.Threw? && logFailure.Some?
    ensures result.HandlerThrew? ==> result.HandlerException == logFailure.value
    ensures result.Reported? ==> result.Report.LogFilePath == LogFilePath(logDirectory, today)
    ensures result.Reported? ==>
      var header := FatalHeader(now);
      var ex := outcome.Exception;
      var inner := if ex.InnerException.Some? then ex.InnerException.value.Message else "";
      var message := result.Report.Message;
      |message| == |header| + |ex.Message| + |" innerError:"| + |inner| &&
      message[..|header|] == header &&
      message[|header|..|header| + |ex.Message|] == ex.Message &&
      message[|header| + |ex.Message|..] == " innerError:" + inner
  {
    match outcome
    case Completed => Finished
    case Threw(ex) =>
      if logFailure.Some? then HandlerThrew(logFailure.value)
      else
        var inner := if ex.InnerException.Some? then ex.InnerException.value.Message else "";
        var message := FatalHeader(now) + ex.Message + " innerError:" + inner;
        Reported(FatalReport(LogFilePath(logDirectory, today), message))
  }

  /** On a platform where the backslash is an ordinary character, the log
      file's name is not "log-{date}.txt" inside the directory: the path
      contains no "/" after the directory, so the whole tail, backslash
      included, is one file name next to the directory. */
  lemma LinuxLogFileSitsBesideLogs(logDirectory: string, today: string)
    requires forall i :: 0 <= i < |today| ==> today[i] != '/'
    ensures var path := LogFilePath(logDirectory, today);
      path[..|logDirectory|] == logDirectory &&
      path[|logDirectory|] == '\\' &&
      forall i :: |logDirectory| <= i < |path| ==> path[i] != '/'
  {
  }
}
