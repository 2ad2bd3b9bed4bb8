/** The debug configuration providers. VS Code asks a provider twice: first with the raw
    configuration (`resolveDebugConfiguration`), where an empty one is replaced by the
    provider's default; then after variable substitution
    (`resolveDebugConfigurationWithSubstitutedVariables`), where a configuration of the
    provider's own type starts the debugger and is replaced by the attach configuration it
    yields. */
module DebugProviders {
  import opened Wrappers
  import opened JsonValues
  import opened InjectSessions

  /** `MinecraftModPCDebugConfigurationProvider` (in the extension entry point),
      `McDevToolsDebugConfigurationProvider` and `McdbgDebugConfigurationProvider`. */
  datatype Provider = ModPc | McDevTools | Inject

  /** The debug type each provider is registered for. */
  function DebugType(p: Provider): string {
    match p
    case ModPc => "minecraft-modpc"
    case McDevTools => "mcdev-tools"
    case Inject => "mcdev-tools-inject"
  }

  /** The configuration an empty one is replaced by. */
  function DefaultConfig(p: Provider): Object {
    match p
    case ModPc =>
      map["type" := JStr("minecraft-modpc"), "request" := JStr("launch"), "name" := JStr("Minecraft ModPC Debug")]
    case McDevTools =>
      map["type" := JStr("mcdev-tools"), "request" := JStr("launch"), "name" := JStr("MC Dev Tools Debug"),
          "dapConfig" := JObj(map["justMyCode" := JBool(false)])]
    case Inject =>
      map["type" := JStr("mcdev-tools-inject"), "request" := JStr("launch"), "name" := JStr("Minecraft Debug (Inject)"),
          "port" := JNum(5678), "dapConfig" := JObj(map["justMyCode" := JBool(false)])]
  }

  /** `!config.type && !config.request && !config.name`: what F5 without a launch.json gives. */
  predicate IsEmptyConfig(c: Object) {
    !Truthy(Get(c, "type")) && !Truthy(Get(c, "request")) && !Truthy(Get(c, "name"))
  }

  /** `config.type === <own type>` */
  predicate OwnType(p: Provider, c: Object) {
    Get(c, "type") == Some(JStr(DebugType(p)))
  }

  /** `resolveDebugConfiguration(folder, config)`: the default for an empty configuration,
      otherwise the configuration itself, whatever its type. */
  function ResolveDebugConfiguration(p: Provider, config: Object): (r: Object)
    ensures IsEmptyConfig(config) ==> OwnType(p, r) && !IsEmptyConfig(r)
    ensures !IsEmptyConfig(config) ==> r == config
  {
    DefaultConfigIsOwnLaunch(p);
    if IsEmptyConfig(config) then DefaultConfig(p) else config
  }

  /** A default configuration is of the provider's own type, a launch request, and not empty. */
  lemma DefaultConfigIsOwnLaunch(p: Provider)
    ensures OwnType(p, DefaultConfig(p))
    ensures Get(DefaultConfig(p), "request") == Some(JStr("launch"))
    ensures !IsEmptyConfig(DefaultConfig(p))
  {
  }

  /** The first stage either keeps a non-empty configuration or turns an empty one into one of
      its own type, and asking again changes nothing. */
  lemma ResolveDebugConfigurationIdempotent(p: Provider, config: Object)
    ensures var r := ResolveDebugConfiguration(p, config);
            && (OwnType(p, r) || r == config)
            && ResolveDebugConfiguration(p, r) == r
  {
    DefaultConfigIsOwnLaunch(p);
  }

  /** The defaults of the inject-type providers: library code is debugged too, and the inject
      provider asks for port 5678. */
  lemma InjectDefaults()
    ensures AsBool(Prop(Get(DefaultConfig(McDevTools), "dapConfig"), "justMyCode")) == Some(false)
    ensures AsBool(Prop(Get(DefaultConfig(Inject), "dapConfig"), "justMyCode")) == Some(false)
    ensures AsInt(Get(DefaultConfig(Inject), "port")) == Some(5678)
    ensures Get(DefaultConfig(McDevTools), "port") == None
  {
  }

  /** What the second stage hands back to VS Code: a configuration to start, or `null`, which
      aborts silently. (`undefined`, which aborts with an error, is never returned.) */
  datatype Resolution = Proceed(config: Object) | AbortSilently

  /** The second stage once the launch, if one was run, has given its result: `undefined`
      becomes `null` and anything else is passed on. */
  function AfterLaunch(launched: Result<Object, InjectFailure>): (r: Resolution)
    ensures r.Proceed? <==> launched.Success?
    ensures r.Proceed? ==> r.config == launched.value
  {
    match launched
    case Success(c) => Proceed(c)
    case Failure(_) => AbortSilently
  }

  /** `resolveDebugConfigurationWithSubstitutedVariables(folder, config)` of the `mcdev-tools`
      and `mcdev-tools-inject` providers: a configuration of another type is passed on without
      launching anything; one of the own type runs the inject-mode attach. */
  method ResolveInjectWithSubstitutedVariables(p: Provider, reg: InjectRegistry, workspace: Option<string>,
                                               config: Object, global: Object, extensionPath: string,
                                               world: InjectWorld)
    returns (r: Resolution)
    requires p == McDevTools || p == Inject
    requires reg.Valid()
    requires workspace.Some? ==> PickInRange(world, InjectMcdbgPath(workspace.value, config, global, extensionPath))
    modifies reg
    ensures reg.Valid()
    ensures !OwnType(p, config) ==> r == Proceed(config) && reg.sessions == old(reg.sessions)
                                    && reg.order == old(reg.order)
    ensures OwnType(p, config) ==>
              r == AfterLaunch(InjectLaunch(old(reg.sessions), workspace, config, global, extensionPath, world))
    ensures OwnType(p, config) && r.AbortSilently? ==> reg.sessions == old(reg.sessions) && reg.order == old(reg.order)
    ensures OwnType(p, config) && r.Proceed? ==>
              && workspace.Some?
              && var a := InjectAttach(old(reg.sessions), workspace.value, config, global, extensionPath, world);
                 && a.Success?
                 && reg.sessions == old(reg.sessions)[a.value.pid := a.value]
                 && reg.order == old(reg.order) + [a.value.pid]
  {
    if !OwnType(p, config) {
      return Proceed(config);
    }
    var result := StartDebugSessionAndGetConfig(reg, workspace, config, global, extensionPath, world);
    if result.Failure? {
      return AbortSilently;
    }
    return Proceed(result.value);
  }
}
