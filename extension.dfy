/** The extension entry point's own copy of the inject-mode debugger (debug type
    `minecraft-modpc`, settings section `minecraft-modpc-debug`): its session map and the
    handlers that shrink it, the debug command, and the attach that returns a fixed debugpy
    configuration. */
module Extension {
  import opened Wrappers
  import opened JsonValues
  import opened Text
  import opened Paths
  import opened SessionManager
  import opened InjectSessions
  import opened DebugProviders

  /** The first attached session, in iteration order, named `name`. */
  function FirstNamed(sessions: map<int, SessionInfo>, order: seq<int>, name: string): (r: Option<int>)
    requires forall i | 0 <= i < |order| :: order[i] in sessions
    ensures r.Some? ==> exists i | 0 <= i < |order| :: && order[i] == r.value
                                                        && sessions[order[i]].sessionName == name
                                                        && forall j | 0 <= j < i :: sessions[order[j]].sessionName != name
    ensures r.None? <==> forall i | 0 <= i < |order| :: sessions[order[i]].sessionName != name
  {
    if order == [] then None
    else if sessions[order[0]].sessionName == name then Some(order[0])
    else
      var rest := FirstNamed(sessions, order[1..], name);
      assert forall i | 1 <= i < |order| :: order[i] == order[1..][i - 1];
      rest
  }

  /** The handler of `onDidTerminateDebugSession`: the first session named like the debug
      session that ended is removed (its mcdbg process killed), and no other. */
  method OnDidTerminateDebugSession(reg: InjectRegistry, name: string) returns (removed: Option<int>)
    requires reg.Valid()
    modifies reg
    ensures reg.Valid()
    ensures removed == FirstNamed(old(reg.sessions), old(reg.order), name)
    ensures removed.Some? ==> reg.sessions == old(reg.sessions) - {removed.value}
                              && reg.order == Without(old(reg.order), removed.value)
    ensures removed.None? ==> reg.sessions == old(reg.sessions) && reg.order == old(reg.order)
  {
    var i := 0;
    while i < |reg.order|
      invariant 0 <= i <= |reg.order|
      invariant FirstNamed(reg.sessions, reg.order[i..], name) == FirstNamed(reg.sessions, reg.order, name)
    {
      var pid := reg.order[i];
      if reg.sessions[pid].sessionName == name {
        assert FirstNamed(reg.sessions, reg.order[i..], name) == Some(pid);
        reg.Delete(pid);
        return Some(pid);
      }
      assert reg.order[i..][1..] == reg.order[i + 1..];
      i := i + 1;
    }
    return None;
  }

  /** Since every session is named after its pid, ending the debug session named for `pid`
      removes exactly that session, and ending any other removes nothing. */
  lemma TerminateFindsByPid(sessions: map<int, SessionInfo>, order: seq<int>, pid: int)
    requires forall i | 0 <= i < |order| :: order[i] in sessions
    requires forall p | p in sessions :: p in order
    requires forall p | p in sessions :: sessions[p].pid == p && sessions[p].sessionName == SessionName(p)
    ensures FirstNamed(sessions, order, SessionName(pid)) == if pid in sessions then Some(pid) else None
  {
    var r := FirstNamed(sessions, order, SessionName(pid));
    if r.Some? {
      SessionNameInjective(r.value, pid);
    }
  }

  /** The configuration the attach returns: debugpy on localhost at the session's port, the
      workspace folder variable mapped onto itself, library code debugged too. */
  function ModPcAttachConfig(info: SessionInfo): Object {
    map[
      "name" := JStr(info.sessionName),
      "type" := JStr("debugpy"),
      "request" := JStr("attach"),
      "connect" := JObj(map["host" := JStr("localhost"), "port" := JNum(info.port)]),
      "pathMappings" := JArr([JObj(map["localRoot" := JStr("${workspaceFolder}"), "remoteRoot" := JStr("${workspaceFolder}")])]),
      "justMyCode" := JBool(false)]
  }

  /** The attach configuration connects to the session's port on localhost under its name. */
  lemma ModPcAttachConfigEndpoint(info: SessionInfo)
    ensures var c := ModPcAttachConfig(info);
            && Get(c, "name") == Some(JStr(info.sessionName))
            && Get(c, "type") == Some(JStr("debugpy")) && Get(c, "request") == Some(JStr("attach"))
            && AsString(Prop(Get(c, "connect"), "host")) == Some("localhost")
            && AsInt(Prop(Get(c, "connect"), "port")) == Some(info.port)
            && AsBool(Get(c, "justMyCode")) == Some(false)
  {
  }

  /** What the entry point's `startDebugSessionAndGetConfig(launchConfig)` comes to: the attach
      configuration of the session attached, or why nothing was attached. */
  function ModPcLaunch(sessions: map<int, SessionInfo>, workspace: Option<string>, launchConfig: Object,
                       global: Object, extensionPath: string, world: InjectWorld): (r: Result<Object, InjectFailure>)
    requires workspace.Some? ==> PickInRange(world, InjectMcdbgPath(workspace.value, launchConfig, global, extensionPath))
    ensures r.Success? <==> workspace.Some? && InjectAttach(sessions, workspace.value, launchConfig, global,
                                                           extensionPath, world).Success?
  {
    if workspace.None? then Failure(NoWorkspace)
    else
      var a := InjectAttach(sessions, workspace.value, launchConfig, global, extensionPath, world);
      if a.Failure? then Failure(a.error) else Success(ModPcAttachConfig(a.value))
  }

  /** `startDebugSessionAndGetConfig(launchConfig)` of the entry point; `global` holds the
      `minecraft-modpc-debug` settings. */
  method StartModPcDebugSession(reg: InjectRegistry, workspace: Option<string>, launchConfig: Object,
                                global: Object, extensionPath: string, world: InjectWorld)
    returns (r: Result<Object, InjectFailure>)
    requires reg.Valid()
    requires workspace.Some? ==> PickInRange(world, InjectMcdbgPath(workspace.value, launchConfig, global, extensionPath))
    modifies reg
    ensures reg.Valid()
    ensures workspace.None? ==> r == Failure(NoWorkspace) && reg.sessions == old(reg.sessions)
                                && reg.order == old(reg.order)
    ensures r == ModPcLaunch(old(reg.sessions), workspace, launchConfig, global, extensionPath, world)
    ensures workspace.Some? ==>
              var a := InjectAttach(old(reg.sessions), workspace.value, launchConfig, global, extensionPath, world);
              && (a.Failure? ==> r == Failure(a.error) && reg.sessions == old(reg.sessions)
                                 && reg.order == old(reg.order))
              && (a.Success? ==> r == Success(ModPcAttachConfig(a.value))
                                 && reg.sessions == old(reg.sessions)[a.value.pid := a.value]
                                 && reg.order == old(reg.order) + [a.value.pid])
    ensures r.Success? ==> |reg.sessions| == |old(reg.sessions)| + 1
  {
    if workspace.None? {
      return Failure(NoWorkspace);
    }
    var ws := workspace.value;
    var preferredPort := LaunchInt(launchConfig, global, "port", 5678);
    var timeout := LaunchInt(launchConfig, global, "timeout", 30000);
    var mcdbgPath := GetMcdbgPath(ws, LaunchString(launchConfig, global, "mcdbgPath", ""), extensionPath);
    var attached := AttachToProcess(reg, preferredPort, timeout, mcdbgPath, world);
    if attached.Failure? {
      return Failure(attached.error);
    }
    return Success(ModPcAttachConfig(attached.value));
  }

  /** `resolveDebugConfigurationWithSubstitutedVariables` of the entry point's provider. */
  method ResolveModPcWithSubstitutedVariables(reg: InjectRegistry, workspace: Option<string>, config: Object,
                                              global: Object, extensionPath: string, world: InjectWorld)
    returns (r: Resolution)
    requires reg.Valid()
    requires workspace.Some? ==> PickInRange(world, InjectMcdbgPath(workspace.value, config, global, extensionPath))
    modifies reg
    ensures reg.Valid()
    ensures !OwnType(ModPc, config) ==> r == Proceed(config) && reg.sessions == old(reg.sessions)
                                        && reg.order == old(reg.order)
    ensures OwnType(ModPc, config) ==>
              r == AfterLaunch(ModPcLaunch(old(reg.sessions), workspace, config, global, extensionPath, world))
    ensures OwnType(ModPc, config) && r.Proceed? ==> |reg.sessions| == |old(reg.sessions)| + 1
    ensures OwnType(ModPc, config) && r.AbortSilently? ==> reg.sessions == old(reg.sessions)
                                                           && reg.order == old(reg.order)
    ensures OwnType(ModPc, config) && r.Proceed? ==>
              && workspace.Some?
              && var a := InjectAttach(old(reg.sessions), workspace.value, config, global, extensionPath, world);
                 && a.Success?
                 && r.config == ModPcAttachConfig(a.value)
                 && reg.sessions == old(reg.sessions)[a.value.pid := a.value]
                 && reg.order == old(reg.order) + [a.value.pid]
  {
    if !OwnType(ModPc, config) {
      return Proceed(config);
    }
    var result := StartModPcDebugSession(reg, workspace, config, global, extensionPath, world);
    if result.Failure? {
      return AbortSilently;
    }
    return Proceed(result.value);
  }

  /** The `startDebug` command: a launch configuration built from the settings (port 5678,
      timeout 30000 and the bundled mcdbg by default), started in the first workspace folder;
      without a folder only an error is shown. */
  function StartDebugCommand(workspace: Option<string>, global: Object): (r: Option<Object>)
    ensures r.Some? <==> workspace.Some?
  {
    if workspace.None? then None
    else Some(map[
      "type" := JStr("minecraft-modpc"),
      "request" := JStr("launch"),
      "name" := JStr("Minecraft ModPC Debug"),
      "port" := JNum(SettingInt(global, "port", 5678)),
      "timeout" := JNum(SettingInt(global, "timeout", 30000)),
      "mcdbgPath" := JStr(SettingString(global, "mcdbgPath", ""))])
  }

  /** The command's configuration passes the first stage unchanged, is of the provider's own
      type (so the second stage attaches), and carries the settings the attach then reads. */
  lemma StartDebugCommandResolves(workspace: string, global: Object)
    ensures var c := StartDebugCommand(Some(workspace), global).value;
            && ResolveDebugConfiguration(ModPc, c) == c
            && OwnType(ModPc, c)
            && LaunchInt(c, global, "port", 5678) == SettingInt(global, "port", 5678)
            && LaunchInt(c, global, "timeout", 30000) == SettingInt(global, "timeout", 30000)
            && LaunchString(c, global, "mcdbgPath", "") == SettingString(global, "mcdbgPath", "")
  {
  }
}
