/** The inject-mode debugger: `mcdbg.exe` is attached to a running Minecraft process chosen by
    pid, a free port is picked for its debugpy server, and the sessions attached so far are kept
    in a map keyed by pid.

    The outside world is an `InjectWorld`: what `mcdbg --list` prints for a given executable,
    what the user answers in the process picker and the elevation warning, how binding each port
    turns out, and the readiness poll. */
module InjectSessions {
  import opened Wrappers
  import opened JsonValues
  import opened Text
  import opened Paths
  import opened Readiness
  import opened Utils
  import opened SessionManager

  /** An attached session; the `mcdbg` child process itself is not modelled. */
  datatype SessionInfo = SessionInfo(pid: int, port: int, sessionName: string)

  /** The ports of the attached sessions. */
  function PortsOf(sessions: map<int, SessionInfo>): (r: set<int>)
    ensures forall pid | pid in sessions :: sessions[pid].port in r
    ensures forall p | p in r :: exists pid | pid in sessions :: sessions[pid].port == p
  {
    set pid | pid in sessions :: sessions[pid].port
  }

  /** `activeDebugSessions`: pid -> session, with the insertion order JavaScript maps iterate in. */
  class InjectRegistry {
    var sessions: map<int, SessionInfo>
    var order: seq<int>

    /** Every session sits under its own pid and is named after it, and the order lists each
        pid once. */
    ghost predicate Valid()
      reads this
    {
      && (forall pid | pid in sessions :: sessions[pid].pid == pid && sessions[pid].sessionName == SessionName(pid))
      && NoDuplicates(order)
      && (forall i | 0 <= i < |order| :: order[i] in sessions)
      && (forall pid | pid in sessions :: pid in order)
    }

    constructor ()
      ensures Valid() && sessions == map[] && order == []
    {
      sessions := map[];
      order := [];
    }

    /** `getUsedPorts()`: the ports of the attached sessions, collected in iteration order. */
    method GetUsedPorts() returns (used: set<int>)
      requires Valid()
      ensures used == PortsOf(sessions)
    {
      used := {};
      var i := 0;
      while i < |order|
        invariant 0 <= i <= |order|
        invariant used == set j | 0 <= j < i :: sessions[order[j]].port
      {
        used := used + {sessions[order[i]].port};
        i := i + 1;
      }
      forall p ensures p in used <==> p in PortsOf(sessions) {
        if p in PortsOf(sessions) {
          var pid :| pid in sessions && sessions[pid].port == p;
          var j :| 0 <= j < |order| && order[j] == pid;
        }
      }
    }

    /** `cleanupAllSessions()` / `deactivate()`: every mcdbg process is killed and the map cleared. */
    method CleanupAllSessions()
      modifies this
      ensures Valid() && sessions == map[] && order == []
    {
      sessions := map[];
      order := [];
    }

    /** `activeDebugSessions.delete(pid)`, as the exit handler of an mcdbg process does. */
    method Delete(pid: int)
      requires Valid()
      modifies this
      ensures Valid()
      ensures sessions == old(sessions) - {pid}
      ensures order == Without(old(order), pid)
    {
      sessions := sessions - {pid};
      order := Without(order, pid);
    }

    /** `activeDebugSessions.set(info.pid, info)` for a pid not yet in the map. */
    method Register(info: SessionInfo)
      requires Valid() && info.pid !in sessions && info.sessionName == SessionName(info.pid)
      modifies this
      ensures Valid()
      ensures sessions == old(sessions)[info.pid := info]
      ensures order == old(order) + [info.pid]
    {
      forall i, j | 0 <= i < j < |order + [info.pid]| ensures (order + [info.pid])[i] != (order + [info.pid])[j] {
        assert (order + [info.pid])[i] in sessions;
      }
      sessions := sessions[info.pid := info];
      order := order + [info.pid];
    }
  }

  // ----- choosing the process -----

  datatype MinecraftProcess = MinecraftProcess(pid: int, name: string, title: string, elevated: bool)

  /** What `mcdbg --list` reported; a failed run or unparsable output carries an error. */
  datatype ListResult = ListResult(processes: seq<MinecraftProcess>, error: Option<string>)

  /** The user's answers: the entry taken in the quick pick (None when it is dismissed), and
      whether "continue" is chosen in the warning about an elevated process. */
  datatype UserChoices = UserChoices(pick: Option<nat>, proceedElevated: bool)

  /** `result.error` is truthy. */
  predicate ListFailed(result: ListResult) {
    result.error.Some? && result.error.value != ""
  }

  /** `selectMinecraftProcess`: None on a listing error, an empty list, a single process that is
      already being debugged, a dismissed picker, or a declined elevation warning. A single
      process is taken without the picker; among several, any entry may be picked, including
      one already being debugged. */
  function SelectMinecraftProcess(result: ListResult, debugged: set<int>, user: UserChoices)
    : (r: Option<MinecraftProcess>)
    requires user.pick.Some? ==> user.pick.value < |result.processes|
    ensures r.Some? ==> !ListFailed(result) && r.value in result.processes
    ensures r.Some? && r.value.elevated ==> user.proceedElevated
    ensures ListFailed(result) || |result.processes| == 0 ==> r.None?
    ensures !ListFailed(result) && |result.processes| == 1 ==>
              (r.Some? <==> result.processes[0].pid !in debugged
                            && (result.processes[0].elevated ==> user.proceedElevated))
    ensures |result.processes| > 1 && r.Some? ==> user.pick.Some? && r == Some(result.processes[user.pick.value])
  {
    if ListFailed(result) then None
    else if |result.processes| == 0 then None
    else if |result.processes| == 1 then
      var proc := result.processes[0];
      if proc.pid in debugged then None
      else if proc.elevated && !user.proceedElevated then None
      else Some(proc)
    else
      match user.pick
      case None => None
      case Some(i) =>
        var proc := result.processes[i];
        if proc.elevated && !user.proceedElevated then None else Some(proc)
  }

  // ----- the attach flow -----

  /** The outside world of one attach. `listing` is what `mcdbg --list` prints for a given
      executable. */
  datatype InjectWorld = InjectWorld(listing: Path -> ListResult, user: UserChoices,
                                     bind: int -> BindOutcome, poll: PollEnv)

  /** Why an attach gave no configuration. */
  datatype InjectFailure =
    | NoWorkspace
    | NoProcess
    | AlreadyDebugged(pid: int)
    | NoFreePort(range: NoPortInRange)
    | Cancelled(port: int)
    | TimedOut(port: int)

  /** Ports `findAvailablePort` tries by default. */
  const MaxPortAttempts: nat := 100

  /** `Minecraft Debug (PID: <pid>)` */
  function SessionName(pid: int): string {
    "Minecraft Debug (PID: " + IntToString(pid) + ")"
  }

  /** The pid reads back from a session name, between the prefix and the closing
      parenthesis. */
  lemma SessionNameReadsBack(pid: int)
    ensures var r := SessionName(pid);
            && |r| > 23 && r[..22] == "Minecraft Debug (PID: " && r[|r| - 1] == ')'
            && ParseInt(r[22..|r| - 1], false) == Some(pid)
  {
    Infix("Minecraft Debug (PID: ", IntToString(pid), ")");
    ParseIntOfIntToString(pid);
  }

  /** Session names tell their pids apart. */
  lemma SessionNameInjective(a: int, b: int)
    requires SessionName(a) == SessionName(b)
    ensures a == b
  {
    Infix("Minecraft Debug (PID: ", IntToString(a), ")");
    Infix("Minecraft Debug (PID: ", IntToString(b), ")");
    IntToStringInjective(a, b);
  }

  /** The middle of `p + x + s` is `x`. */
  lemma Infix(p: string, x: string, s: string)
    ensures (p + x + s)[|p|..|p| + |x|] == x
  {
    assert (p + x + s)[|p|..|p| + |x|] == (p + x)[|p|..];
  }

  /** What attaching comes to, given the sessions attached before, the preferred port, the
      timeout and the `mcdbg.exe` in use: the session registered on success. */
  function AttachOutcome(sessions: map<int, SessionInfo>, preferredPort: int, timeout: int,
                         mcdbgPath: Path, world: InjectWorld): Result<SessionInfo, InjectFailure>
    requires PickInRange(world, mcdbgPath)
  {
    var selected := SelectMinecraftProcess(world.listing(mcdbgPath), sessions.Keys, world.user);
    if selected.None? then Failure(NoProcess)
    else if selected.value.pid in sessions then Failure(AlreadyDebugged(selected.value.pid))
    else
      match FirstFree(preferredPort, PortsOf(sessions), world.bind, MaxPortAttempts)
      case None => Failure(NoFreePort(NoPortInRange(preferredPort, preferredPort + MaxPortAttempts - 1)))
      case Some(port) =>
        var end := Poll(world.poll, timeout);
        if CancelledBy(world.poll, end.at) then Failure(Cancelled(port))
        else if !end.Ready? then Failure(TimedOut(port))
        else Success(SessionInfo(selected.value.pid, port, SessionName(selected.value.pid)))
  }

  /** An attach registers a session only when the debugger answered before any cancellation,
      for a process not attached before, on a port no attached session uses, from the preferred
      port on. */
  lemma AttachOnlyWhenReady(sessions: map<int, SessionInfo>, preferredPort: int, timeout: int,
                            mcdbgPath: Path, world: InjectWorld)
    requires PickInRange(world, mcdbgPath)
    ensures var o := AttachOutcome(sessions, preferredPort, timeout, mcdbgPath, world);
            var end := Poll(world.poll, timeout);
            && (o.Success? ==> && end.Ready? && !CancelledBy(world.poll, end.at)
                               && o.value.pid !in sessions
                               && o.value.port !in PortsOf(sessions)
                               && preferredPort <= o.value.port < preferredPort + MaxPortAttempts
                               && !IsPortInUse(world.bind(o.value.port))
                               && o.value.sessionName == SessionName(o.value.pid)
                               && exists proc | proc in world.listing(mcdbgPath).processes :: proc.pid == o.value.pid)
  {
  }

  /** The attach once the settings are read: choose the process, refuse one already attached,
      find a port from `preferredPort` on that no attached session uses, start mcdbg on it and
      wait for debugpy to listen; only then is the session registered. */
  method AttachToProcess(reg: InjectRegistry, preferredPort: int, timeout: int, mcdbgPath: Path,
                         world: InjectWorld)
    returns (r: Result<SessionInfo, InjectFailure>)
    requires reg.Valid()
    requires PickInRange(world, mcdbgPath)
    modifies reg
    ensures reg.Valid()
    ensures r == AttachOutcome(old(reg.sessions), preferredPort, timeout, mcdbgPath, world)
    ensures r.Success? ==> && r.value.pid !in old(reg.sessions)
                           && reg.sessions == old(reg.sessions)[r.value.pid := r.value]
                           && reg.order == old(reg.order) + [r.value.pid]
    ensures r.Failure? ==> reg.sessions == old(reg.sessions) && reg.order == old(reg.order)
  {
    var selected := SelectMinecraftProcess(world.listing(mcdbgPath), reg.sessions.Keys, world.user);
    if selected.None? {
      return Failure(NoProcess);
    }
    var pid := selected.value.pid;
    if pid in reg.sessions {
      return Failure(AlreadyDebugged(pid));
    }
    var used := reg.GetUsedPorts();
    var found, _ := FindAvailablePort(preferredPort, used, MaxPortAttempts, world.bind);
    if found.Failure? {
      return Failure(NoFreePort(found.error));
    }
    var port := found.value;
    var sessionName := SessionName(pid);
    var portReady, now := WaitForPort(world.poll, timeout);
    if CancelledBy(world.poll, now) {
      return Failure(Cancelled(port));
    }
    if !portReady {
      return Failure(TimedOut(port));
    }
    var info := SessionInfo(pid, port, sessionName);
    reg.Register(info);
    return Success(info);
  }

  // ----- settings and the returned configuration -----

  /** `launchConfig[key] ?? globalConfig.get(key, default)` for a number: the launch value
      when it is a number, the setting when it is absent or `null`. */
  function LaunchInt(launchConfig: Object, global: Object, key: string, default: int): (r: int)
    ensures AsInt(Get(launchConfig, key)).Some? ==> r == AsInt(Get(launchConfig, key)).value
    ensures Get(launchConfig, key) in {None, Some(JNull)} ==> r == SettingInt(global, key, default)
  {
    AsInt(Get(launchConfig, key)).GetOr(SettingInt(global, key, default))
  }

  /** `launchConfig[key] ?? globalConfig.get(key, default)` for a string: the launch value
      when it is a string, the setting when it is absent or `null`. */
  function LaunchString(launchConfig: Object, global: Object, key: string, default: string): (r: string)
    ensures AsString(Get(launchConfig, key)).Some? ==> r == AsString(Get(launchConfig, key)).value
    ensures Get(launchConfig, key) in {None, Some(JNull)} ==> r == SettingString(global, key, default)
  {
    AsString(Get(launchConfig, key)).GetOr(SettingString(global, key, default))
  }

  /** `getMcdbgPath(workspaceFolder, mcdbgPathConfig, extensionPath)` */
  function GetMcdbgPath(workspace: string, configured: string, extensionPath: string): (r: Path)
    ensures configured == "" ==> r == Joined(extensionPath, ["bin", "mcdbg.exe"])
    ensures configured != "" && IsAbsolute(configured) ==> r == Given(configured)
    ensures configured != "" && !IsAbsolute(configured) ==> r == Joined(workspace, [configured])
  {
    ToolPath(workspace, configured, extensionPath, ["bin", "mcdbg.exe"])
  }

  /** The `mcdbg.exe` an attach from `launchConfig` runs. */
  function InjectMcdbgPath(workspace: string, launchConfig: Object, global: Object, extensionPath: string): Path {
    GetMcdbgPath(workspace, LaunchString(launchConfig, global, "mcdbgPath", ""), extensionPath)
  }

  /** The debugpy attach configuration returned for `info`: the launch configuration's
      `dapConfig` members, with the name, type, request and endpoint fixed, and the path mappings
      and `justMyCode` taken from `dapConfig` unless absent or null. */
  function DapAttachConfig(launchConfig: Object, workspace: string, info: SessionInfo): Object {
    var dap := Spread(Get(launchConfig, "dapConfig"));
    var defaultMappings := JArr([JObj(map["localRoot" := JStr(workspace), "remoteRoot" := JStr(workspace)])]);
    (dap - {"pathMappings", "justMyCode"}) + map[
      "name" := JStr(info.sessionName),
      "type" := JStr("debugpy"),
      "request" := JStr("attach"),
      "connect" := JObj(map["host" := JStr("localhost"), "port" := JNum(info.port)]),
      "pathMappings" := Coalesce(Get(dap, "pathMappings"), defaultMappings),
      "justMyCode" := Coalesce(Get(dap, "justMyCode"), JBool(false))]
  }

  /** The members the attach configuration fixes. */
  const FixedMembers: set<string> := {"name", "type", "request", "connect", "pathMappings", "justMyCode"}

  /** The returned configuration attaches debugpy to the session's port on localhost under the
      session's name. */
  lemma DapAttachConfigEndpoint(launchConfig: Object, workspace: string, info: SessionInfo)
    ensures var c := DapAttachConfig(launchConfig, workspace, info);
            && Get(c, "name") == Some(JStr(info.sessionName))
            && Get(c, "type") == Some(JStr("debugpy")) && Get(c, "request") == Some(JStr("attach"))
            && AsString(Prop(Get(c, "connect"), "host")) == Some("localhost")
            && AsInt(Prop(Get(c, "connect"), "port")) == Some(info.port)
  {
  }

  /** Without `dapConfig` path mappings the workspace is mapped onto itself, and without
      `dapConfig.justMyCode` library code is debugged too; given ones are used as they are. */
  lemma DapAttachConfigOptions(launchConfig: Object, workspace: string, info: SessionInfo)
    ensures var c := DapAttachConfig(launchConfig, workspace, info);
            var dap := Spread(Get(launchConfig, "dapConfig"));
            && (Get(dap, "pathMappings") in {None, Some(JNull)} ==>
                  Get(c, "pathMappings") == Some(JArr([JObj(map["localRoot" := JStr(workspace), "remoteRoot" := JStr(workspace)])])))
            && (Get(dap, "pathMappings") !in {None, Some(JNull)} ==> Get(c, "pathMappings") == Get(dap, "pathMappings"))
            && (Get(dap, "justMyCode") in {None, Some(JNull)} ==> Get(c, "justMyCode") == Some(JBool(false)))
            && (Get(dap, "justMyCode") !in {None, Some(JNull)} ==> Get(c, "justMyCode") == Get(dap, "justMyCode"))
  {
  }

  /** Every `dapConfig` member the configuration does not fix is passed on unchanged, and no
      other member is added. */
  lemma DapAttachConfigKeepsDapMembers(launchConfig: Object, workspace: string, info: SessionInfo)
    ensures var c := DapAttachConfig(launchConfig, workspace, info);
            var dap := Spread(Get(launchConfig, "dapConfig"));
            && (forall k | k !in FixedMembers :: Get(c, k) == Get(dap, k))
            && c.Keys == dap.Keys + FixedMembers
  {
  }

  /** What `startDebugSessionAndGetConfig(launchConfig, extensionPath)` comes to; `global` holds
      the `mcdev-tools` settings and `workspace` the first workspace folder, if any. */
  function InjectLaunch(sessions: map<int, SessionInfo>, workspace: Option<string>, launchConfig: Object,
                        global: Object, extensionPath: string, world: InjectWorld): Result<Object, InjectFailure>
    requires workspace.Some? ==> PickInRange(world, InjectMcdbgPath(workspace.value, launchConfig, global, extensionPath))
  {
    if workspace.None? then Failure(NoWorkspace)
    else
      var a := InjectAttach(sessions, workspace.value, launchConfig, global, extensionPath, world);
      if a.Failure? then Failure(a.error) else Success(DapAttachConfig(launchConfig, workspace.value, a.value))
  }

  /** The attach a launch from `launchConfig` in `workspace` runs: the port (5678 by default),
      the timeout (30000 by default) and the `mcdbg.exe` come from the launch configuration
      first and the settings second. */
  function InjectAttach(sessions: map<int, SessionInfo>, workspace: string, launchConfig: Object,
                        global: Object, extensionPath: string, world: InjectWorld): Result<SessionInfo, InjectFailure>
    requires PickInRange(world, InjectMcdbgPath(workspace, launchConfig, global, extensionPath))
  {
    AttachOutcome(sessions, LaunchInt(launchConfig, global, "port", 5678), LaunchInt(launchConfig, global, "timeout", 30000),
                  InjectMcdbgPath(workspace, launchConfig, global, extensionPath), world)
  }

  /** The picker's answer, if any, is an entry of the list shown for `mcdbgPath`. */
  predicate PickInRange(world: InjectWorld, mcdbgPath: Path) {
    world.user.pick.Some? ==> world.user.pick.value < |world.listing(mcdbgPath).processes|
  }

  /** `startDebugSessionAndGetConfig(launchConfig, extensionPath)` of the inject debugger. */
  method StartDebugSessionAndGetConfig(reg: InjectRegistry, workspace: Option<string>, launchConfig: Object,
                                       global: Object, extensionPath: string, world: InjectWorld)
    returns (r: Result<Object, InjectFailure>)
    requires reg.Valid()
    requires workspace.Some? ==> PickInRange(world, InjectMcdbgPath(workspace.value, launchConfig, global, extensionPath))
    modifies reg
    ensures reg.Valid()
    ensures r == InjectLaunch(old(reg.sessions), workspace, launchConfig, global, extensionPath, world)
    ensures r.Failure? ==> reg.sessions == old(reg.sessions) && reg.order == old(reg.order)
    ensures r.Success? ==> |reg.sessions| == |old(reg.sessions)| + 1
    ensures r.Success? ==> && workspace.Some?
                           && var a := InjectAttach(old(reg.sessions), workspace.value, launchConfig, global,
                                                    extensionPath, world);
                              && a.Success?
                              && reg.sessions == old(reg.sessions)[a.value.pid := a.value]
                              && reg.order == old(reg.order) + [a.value.pid]
  {
    if workspace.None? {
      return Failure(NoWorkspace);
    }
    var ws := workspace.value;
    var preferredPort := LaunchInt(launchConfig, global, "port", 5678);
    var timeout := LaunchInt(launchConfig, global, "timeout", 30000);
    var mcdbgPath := GetMcdbgPath(ws, LaunchString(launchConfig, global, "mcdbgPath", ""), extensionPath);
    var attached := AttachToProcess(reg, preferredPort, timeout, mcdbgPath, world);
    if attached.Failure? {
      return Failure(attached.error);
    }
    assert |old(reg.sessions)[attached.value.pid := attached.value]| == |old(reg.sessions)| + 1;
    return Success(DapAttachConfig(launchConfig, ws, attached.value));
  }
}
