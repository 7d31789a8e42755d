/** The fluent server builder: an immutable configuration record, one setter
    per field, and the pure part of `run()` (the capability flags, the
    empty-server warning, the logger fallback and the transport selection). */
module FastMCP {
  import opened Wrappers
  import opened Entities
  import opened Strings
  import Deduplicator
  import Capabilities

  /** A logger, known only by the name it is labelled with. */
  datatype Logger = Logger(name: string)

  /** A Unix signal, identified by its number. */
  datatype UnixSignal = UnixSignal(number: int)

  /** The two signals the builder names; POSIX numbers them 15 and 2. */
  const SigTerm: UnixSignal := UnixSignal(15)
  const SigInt: UnixSignal := UnixSignal(2)

  /** An async lifecycle callback, known only by identity. */
  datatype Handler = Handler(id: nat)

  /** A transport object supplied by the caller, known only by identity. */
  datatype TransportHandle = TransportHandle(id: nat)

  /** The transport choice recorded by the builder. */
  datatype Transport = Stdio | InMemory | Custom(transport: TransportHandle)

  /** The concrete transport `run()` hands to the service. */
  datatype McpTransport = StdioTransport(logger: Logger) | InMemoryTransport | ExternalTransport(handle: TransportHandle)

  /** `FastMCP.Builder`. */
  datatype Builder = Builder(
    serverName: string,
    serverVersion: string,
    tools: seq<Tool>,
    resources: seq<Resource>,
    prompts: seq<Prompt>,
    samplingEnabled: bool,
    transportConfig: Transport,
    customLogger: Option<Logger>,
    shutdownSignals: seq<UnixSignal>,
    onStartHandler: Option<Handler>,
    onShutdownHandler: Option<Handler>)

  /** The fields of a builder, so that "exactly one field changed" can be said. */
  datatype Field =
    | ServerName | ServerVersion | Tools | Resources | Prompts | SamplingEnabled
    | TransportConfig | CustomLogger | ShutdownSignals | OnStartHandler | OnShutdownHandler

  /** `a` and `b` agree on field `f`. */
  predicate SameField(a: Builder, b: Builder, f: Field)
  {
    match f
    case ServerName => a.serverName == b.serverName
    case ServerVersion => a.serverVersion == b.serverVersion
    case Tools => a.tools == b.tools
    case Resources => a.resources == b.resources
    case Prompts => a.prompts == b.prompts
    case SamplingEnabled => a.samplingEnabled == b.samplingEnabled
    case TransportConfig => a.transportConfig == b.transportConfig
    case CustomLogger => a.customLogger == b.customLogger
    case ShutdownSignals => a.shutdownSignals == b.shutdownSignals
    case OnStartHandler => a.onStartHandler == b.onStartHandler
    case OnShutdownHandler => a.onShutdownHandler == b.onShutdownHandler
  }

  /** `b` agrees with `a` on every field except possibly `f`. */
  predicate OnlyChanges(a: Builder, b: Builder, f: Field)
  {
    forall g: Field :: g != f ==> SameField(a, b, g)
  }

  const DefaultVersion: string := "1.0.0"

  /** `Builder.init()`; `processName` stands for the running process's name. */
  function Init(processName: string): (b: Builder)
    ensures b.serverName == processName && b.serverVersion == DefaultVersion
    ensures b.tools == [] && b.resources == [] && b.prompts == []
    ensures !b.samplingEnabled && b.transportConfig == Stdio && b.customLogger == None
    ensures b.shutdownSignals == [SigTerm, SigInt]
    ensures b.onStartHandler == None && b.onShutdownHandler == None
  {
    Builder(processName, DefaultVersion, [], [], [], false, Stdio, None, [SigTerm, SigInt], None, None)
  }

  function Name(b: Builder, name: string): (r: Builder)
    ensures r.serverName == name && OnlyChanges(b, r, ServerName)
  {
    b.(serverName := name)
  }

  function Version(b: Builder, version: string): (r: Builder)
    ensures r.serverVersion == version && OnlyChanges(b, r, ServerVersion)
  {
    b.(serverVersion := version)
  }

  /** New tools are merged by name; registered tools keep their place.
      `canon` gives Swift's string equality (see `Strings.SwiftEqual`). */
  function AddTools(b: Builder, newTools: seq<Tool>, canon: string -> string): (r: Builder)
    ensures r.tools == Deduplicator.DeduplicateTools(b.tools, newTools, canon)
    ensures OnlyChanges(b, r, Tools)
  {
    b.(tools := Deduplicator.DeduplicateTools(b.tools, newTools, canon))
  }

  /** New resources are merged by URI. */
  function AddResources(b: Builder, newResources: seq<Resource>, canon: string -> string): (r: Builder)
    ensures r.resources == Deduplicator.DeduplicateResources(b.resources, newResources, canon)
    ensures OnlyChanges(b, r, Resources)
  {
    b.(resources := Deduplicator.DeduplicateResources(b.resources, newResources, canon))
  }

  /** New prompts are merged by name. */
  function AddPrompts(b: Builder, newPrompts: seq<Prompt>, canon: string -> string): (r: Builder)
    ensures r.prompts == Deduplicator.DeduplicatePrompts(b.prompts, newPrompts, canon)
    ensures OnlyChanges(b, r, Prompts)
  {
    b.(prompts := Deduplicator.DeduplicatePrompts(b.prompts, newPrompts, canon))
  }

  /** `enableSampling(_:)`; called without an argument it switches sampling on. */
  function EnableSampling(b: Builder, enabled: bool := true): (r: Builder)
    ensures r.samplingEnabled == enabled && OnlyChanges(b, r, SamplingEnabled)
  {
    b.(samplingEnabled := enabled)
  }

  function SetTransport(b: Builder, transport: Transport): (r: Builder)
    ensures r.transportConfig == transport && OnlyChanges(b, r, TransportConfig)
  {
    b.(transportConfig := transport)
  }

  function SetLogger(b: Builder, logger: Logger): (r: Builder)
    ensures r.customLogger == Some(logger) && OnlyChanges(b, r, CustomLogger)
  {
    b.(customLogger := Some(logger))
  }

  /** The given list replaces the previous one; it is not merged into it. */
  function SetShutdownSignals(b: Builder, signals: seq<UnixSignal>): (r: Builder)
    ensures r.shutdownSignals == signals && OnlyChanges(b, r, ShutdownSignals)
  {
    b.(shutdownSignals := signals)
  }

  function OnStart(b: Builder, handler: Handler): (r: Builder)
    ensures r.onStartHandler == Some(handler) && OnlyChanges(b, r, OnStartHandler)
  {
    b.(onStartHandler := Some(handler))
  }

  function OnShutdown(b: Builder, handler: Handler): (r: Builder)
    ensures r.onShutdownHandler == Some(handler) && OnlyChanges(b, r, OnShutdownHandler)
  {
    b.(onShutdownHandler := Some(handler))
  }

  /** One step of a builder chain: a setter call with its argument. */
  datatype Step =
    | NameStep(name: string)
    | VersionStep(version: string)
    | AddToolsStep(newTools: seq<Tool>)
    | AddResourcesStep(newResources: seq<Resource>)
    | AddPromptsStep(newPrompts: seq<Prompt>)
    | EnableSamplingStep(enabled: bool)
    | TransportStep(transport: Transport)
    | LoggerStep(logger: Logger)
    | ShutdownSignalsStep(signals: seq<UnixSignal>)
    | OnStartStep(handler: Handler)
    | OnShutdownStep(handler: Handler)
  {
    /** The one field this step writes. */
    function Target(): Field
    {
      match this
      case NameStep(_) => ServerName
      case VersionStep(_) => ServerVersion
      case AddToolsStep(_) => Tools
      case AddResourcesStep(_) => Resources
      case AddPromptsStep(_) => Prompts
      case EnableSamplingStep(_) => SamplingEnabled
      case TransportStep(_) => TransportConfig
      case LoggerStep(_) => CustomLogger
      case ShutdownSignalsStep(_) => ShutdownSignals
      case OnStartStep(_) => OnStartHandler
      case OnShutdownStep(_) => OnShutdownHandler
    }

    /** True for the setters that overwrite their field rather than merge into it. */
    predicate Overwrites()
    {
      !(AddToolsStep? || AddResourcesStep? || AddPromptsStep?)
    }
  }

  /** Applies one step to a builder, returning the new builder. */
  function Apply(b: Builder, s: Step, canon: string -> string): (r: Builder)
    ensures OnlyChanges(b, r, s.Target())
  {
    match s
    case NameStep(name) => Name(b, name)
    case VersionStep(version) => Version(b, version)
    case AddToolsStep(ts) => AddTools(b, ts, canon)
    case AddResourcesStep(rs) => AddResources(b, rs, canon)
    case AddPromptsStep(ps) => AddPrompts(b, ps, canon)
    case EnableSamplingStep(enabled) => EnableSampling(b, enabled)
    case TransportStep(t) => SetTransport(b, t)
    case LoggerStep(l) => SetLogger(b, l)
    case ShutdownSignalsStep(sigs) => SetShutdownSignals(b, sigs)
    case OnStartStep(h) => OnStart(b, h)
    case OnShutdownStep(h) => OnShutdown(b, h)
  }

  /** Steps that write different fields can be taken in either order. */
  lemma StepsOnDifferentFieldsCommute(b: Builder, s: Step, t: Step, canon: string -> string)
    requires s.Target() != t.Target()
    ensures Apply(Apply(b, s, canon), t, canon) == Apply(Apply(b, t, canon), s, canon)
  {
  }

  /** For an overwriting setter, of two calls the last one wins. */
  lemma LastOverwriteWins(b: Builder, s: Step, t: Step, canon: string -> string)
    requires s.Overwrites() && s.Target() == t.Target()
    ensures Apply(Apply(b, s, canon), t, canon) == Apply(b, t, canon)
  {
  }

  /** Adding the same tools, resources or prompts again changes nothing. */
  lemma AddStepTwice(b: Builder, s: Step, canon: string -> string)
    requires !s.Overwrites()
    ensures Apply(Apply(b, s, canon), s, canon) == Apply(b, s, canon)
  {
    match s
    case AddToolsStep(ts) =>
      Deduplicator.DeduplicateTwice(b.tools, ts, Deduplicator.ToolKey(canon));
    case AddResourcesStep(rs) =>
      Deduplicator.DeduplicateTwice(b.resources, rs, Deduplicator.ResourceKey(canon));
    case AddPromptsStep(ps) =>
      Deduplicator.DeduplicateTwice(b.prompts, ps, Deduplicator.PromptKey(canon));
  }

  /** Adding a non-empty batch always leaves a non-empty collection. */
  lemma AddToolsNonEmpty(b: Builder, newTools: seq<Tool>, canon: string -> string)
    requires newTools != []
    ensures AddTools(b, newTools, canon).tools != []
  {
  }

  /** An example of the merge against one registered tool: of a batch holding a
      tool with an equivalent name and one with a different name, only the
      second is appended. */
  lemma SecondBatchKeepsNewName(first: Tool, repeated: Tool, newcomer: Tool, canon: string -> string)
    requires SwiftEqual(canon, repeated.name, first.name)
    requires !SwiftEqual(canon, newcomer.name, first.name)
    ensures Deduplicator.DeduplicateTools([first], [repeated, newcomer], canon) == [first, newcomer]
  {
  }

  /** Registering [get_weather] and then [get_weather, calculate] yields the two
      tools [get_weather, calculate]. */
  lemma AddToolsTwoBatches(processName: string, weather: Tool, calculate: Tool, canon: string -> string)
    requires FixesAscii(canon)
    requires weather.name == "get_weather" && calculate.name == "calculate"
    ensures AddTools(AddTools(Init(processName), [weather], canon), [weather, calculate], canon).tools
            == [weather, calculate]
  {
    Deduplicator.DeduplicateOntoEmpty([weather], Deduplicator.ToolKey(canon));
    assert AddTools(Init(processName), [weather], canon).tools == [weather];
    assert IsAscii(weather.name) && IsAscii(calculate.name);
    assert canon(weather.name) == weather.name && canon(calculate.name) == calculate.name;
    assert |weather.name| != |calculate.name|;
    SecondBatchKeepsNewName(weather, weather, calculate, canon);
  }

  /** The text `run()` logs as a warning for a server with nothing registered. */
  const EmptyServerWarning: string := "Server starting with no tools, resources, or prompts registered"

  /** The pure decisions `run()` takes before handing over to the SDK. */
  datatype RunPlan = RunPlan(
    logger: Logger,
    warning: Option<string>,
    hasTools: bool,
    hasResources: bool,
    hasPrompts: bool,
    hasSampling: bool,
    capabilities: Capabilities.ServerCapabilities,
    transport: McpTransport)

  /** `createTransport(logger:)`: every transport choice yields a transport, and
      a custom transport is passed on unchanged. */
  function CreateTransport(config: Transport, logger: Logger): (t: McpTransport)
    ensures config.Stdio? <==> t.StdioTransport?
    ensures config.Stdio? ==> t.logger == logger
    ensures config.InMemory? <==> t.InMemoryTransport?
    ensures config.Custom? <==> t.ExternalTransport?
    ensures config.Custom? ==> t.handle == config.transport
  {
    match config
    case Stdio => StdioTransport(logger)
    case InMemory => InMemoryTransport
    case Custom(handle) => ExternalTransport(handle)
  }

  /** The transport choice a concrete transport was created from. */
  function TransportChoice(t: McpTransport): Transport
  {
    match t
    case StdioTransport(_) => Stdio
    case InMemoryTransport => InMemory
    case ExternalTransport(h) => Custom(h)
  }

  /** The transport choice can be read back from the created transport. */
  lemma CreateTransportRecoversChoice(config: Transport, logger: Logger)
    ensures TransportChoice(CreateTransport(config, logger)) == config
  {
  }

  /** The pure part of `run()`: logger fallback, empty-server warning,
      capability flags and transport. */
  function PlanRun(b: Builder): (p: RunPlan)
    ensures p.logger == (if b.customLogger.Some? then b.customLogger.value else Logger(b.serverName))
    ensures p.warning.Some? <==> b.tools == [] && b.resources == [] && b.prompts == []
    ensures p.warning.Some? ==> p.warning.value == EmptyServerWarning
    ensures p.hasTools <==> |b.tools| > 0
    ensures p.hasResources <==> |b.resources| > 0
    ensures p.hasPrompts <==> |b.prompts| > 0
    ensures p.hasSampling == b.samplingEnabled
    ensures p.capabilities == Capabilities.Build(p.hasTools, p.hasResources)
    ensures p.transport == CreateTransport(b.transportConfig, p.logger)
  {
    var logger := b.customLogger.GetOr(Logger(b.serverName));
    var warning := if b.tools == [] && b.resources == [] && b.prompts == [] then Some(EmptyServerWarning) else None;
    var hasTools := b.tools != [];
    var hasResources := b.resources != [];
    var hasPrompts := b.prompts != [];
    var hasSampling := b.samplingEnabled;
    RunPlan(logger, warning, hasTools, hasResources, hasPrompts, hasSampling,
            Capabilities.Build(hasTools, hasResources),
            CreateTransport(b.transportConfig, logger))
  }

  /** The descriptor advertises exactly the tools and resources flags, and the
      transport is the one the builder chose. */
  lemma PlanRunReadsBack(b: Builder)
    ensures Capabilities.Advertised(PlanRun(b).capabilities) == (PlanRun(b).hasTools, PlanRun(b).hasResources)
    ensures TransportChoice(PlanRun(b).transport) == b.transportConfig
  {
    var p := PlanRun(b);
    Capabilities.BuildAdvertisesFlags(p.hasTools, p.hasResources);
    CreateTransportRecoversChoice(b.transportConfig, p.logger);
  }

  /** The warning fires exactly when no capability flag of the three
      collections is raised. */
  lemma WarningIffNoCollectionFlag(b: Builder)
    ensures PlanRun(b).warning.Some? <==> !PlanRun(b).hasTools && !PlanRun(b).hasResources && !PlanRun(b).hasPrompts
  {
  }

  /** A fresh builder warns, advertises nothing and talks over stdio with a
      logger labelled by the process name. */
  lemma FreshBuilderPlan(processName: string)
    ensures PlanRun(Init(processName)).warning == Some(EmptyServerWarning)
    ensures PlanRun(Init(processName)).capabilities == Capabilities.Build(false, false)
    ensures PlanRun(Init(processName)).transport == StdioTransport(Logger(processName))
  {
  }

  /** Once a non-empty batch of tools is added, `run()` no longer warns and
      advertises tools. */
  lemma AddedToolsSilenceWarning(b: Builder, newTools: seq<Tool>, canon: string -> string)
    requires newTools != []
    ensures PlanRun(AddTools(b, newTools, canon)).warning == None
    ensures PlanRun(AddTools(b, newTools, canon)).capabilities.tools.Some?
  {
  }
}
