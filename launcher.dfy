/** The ptvsd launch flow: reattaching to a debugger that is still listening, otherwise
    starting MCDK (which starts the game with ptvsd) and waiting for the debug port.

    The outside world of one launch is a `LaunchWorld`: the answers of the Minecraft process
    detector, the endpoint and bind probes, the operating system's ephemeral port, the random
    session id, the clock when the launch starts, the readiness poll's environment and the
    extension host's environment variables. */
module Launcher {
  import opened Wrappers
  import opened JsonValues
  import opened Text
  import opened Paths
  import opened PortAllocator
  import opened SessionManager
  import opened Storage
  import opened Readiness

  datatype LaunchWorld = LaunchWorld(
    minecraftRunning: bool,              // isMinecraftRunning() during the reattach check
    runningAtSpawn: bool,                // isMinecraftRunning() before MCDK is started
    portActive: (string, int) -> bool,   // whether a debugger answers on (host, port)
    portAvailable: int -> bool,          // whether the preferred port can be bound
    ephemeralPort: Option<int>,          // the port the OS hands out, None when that fails
    freshId: string,                     // the random id of the session created
    clock: int,                          // Date.now() when the launch starts
    poll: PollEnv,                       // the readiness poll's environment
    processEnv: map<string, string>)     // process.env

  /** The integrated terminal MCDK runs in. */
  datatype Terminal = Terminal(name: string, shellPath: Path, cwd: string, env: McdkEnv)

  /** The environment a terminal is created with: the extension host's variables, overlaid
      with the debug endpoint, the plugin flags and (when `subprocess`) sub-process mode.
      `McdkEnvironment` spells it out as the variable map. */
  datatype McdkEnv = McdkEnv(inherited: map<string, string>, ip: string, port: int, subprocess: bool)

  datatype LaunchOutcome =
    | NoWorkspace
    | Reattached(config: Object)
    | CreateFailed(error: CreateError)
    | Cancelled(port: int, terminal: Terminal)    // the terminal is disposed
    | TimedOut(port: int, terminal: Terminal)     // the terminal stays open for its output
    // attached to `session`, persisted as `record`; resolves to the configuration generated from `settings`
    | Attached(session: Session, terminal: Terminal, record: PersistedSession, settings: PtvsdConfig)
  {
    /** What the launch resolves to: an attach configuration, or `undefined`. */
    function Result(): Option<Object> {
      match this
      case Reattached(c) => Some(c)
      case Attached(s, _, _, c) => Some(GenerateDebugConfiguration(s, c.justMyCode, Some(c.debugOptions)))
      case _ => None
    }

    /** The debug port of a launch that got as far as starting MCDK. */
    function LaunchedPort(): int
      requires Cancelled? || TimedOut? || Attached?
    {
      if Attached? then session.debugPort else port
    }
  }

  /** `getMcdkPath(workspaceFolder, mcdkPathConfig, extensionPath)` */
  function GetMcdkPath(workspace: string, mcdkPathConfig: string, extensionPath: string): (r: Path)
    ensures mcdkPathConfig == "" ==> r == Joined(extensionPath, ["bin", "mcdk.exe"])
    ensures mcdkPathConfig != "" && IsAbsolute(mcdkPathConfig) ==> r == Given(mcdkPathConfig)
    ensures mcdkPathConfig != "" && !IsAbsolute(mcdkPathConfig) ==> r == Joined(workspace, [mcdkPathConfig])
  {
    ToolPath(workspace, mcdkPathConfig, extensionPath, ["bin", "mcdk.exe"])
  }

  /** The environment MCDK is started with: the extension host's, plus the debug endpoint and
      the plugin flags, plus sub-process mode when Minecraft already runs. */
  function McdkEnvironment(e: McdkEnv): map<string, string>
  {
    var env := e.inherited + map[
      "MCDEV_PTVSD_IP" := e.ip,
      "MCDEV_PTVSD_PORT" := IntToString(e.port),
      "MCDEV_IS_PLUGIN_ENV" := "1",
      "MCDEV_OUTPUT_MODE" := "1"];
    if e.subprocess then env["MCDEV_IS_SUBPROCESS_MODE" := "1"] else env
  }

  /** MCDK finds the debug endpoint in its environment (the port as a decimal string that reads
      back as the port), the plugin flags set, sub-process mode set when asked for and otherwise
      inherited, and every other variable of the extension host unchanged. */
  lemma McdkEnvironmentContents(processEnv: map<string, string>, ip: string, port: int, subprocess: bool)
    ensures var env := McdkEnvironment(McdkEnv(processEnv, ip, port, subprocess));
      && "MCDEV_PTVSD_IP" in env && env["MCDEV_PTVSD_IP"] == ip
      && "MCDEV_PTVSD_PORT" in env && ParseInt(env["MCDEV_PTVSD_PORT"], false) == Some(port)
      && "MCDEV_IS_PLUGIN_ENV" in env && env["MCDEV_IS_PLUGIN_ENV"] == "1"
      && "MCDEV_OUTPUT_MODE" in env && env["MCDEV_OUTPUT_MODE"] == "1"
      && (subprocess ==> "MCDEV_IS_SUBPROCESS_MODE" in env && env["MCDEV_IS_SUBPROCESS_MODE"] == "1")
      && (!subprocess ==> ("MCDEV_IS_SUBPROCESS_MODE" in env <==> "MCDEV_IS_SUBPROCESS_MODE" in processEnv))
      && (forall k | k in env :: k in processEnv || k in McdkKeys)
      && (forall k | k in processEnv && k !in McdkKeys :: k in env && env[k] == processEnv[k])
  {
    ParseIntOfIntToString(port);
  }

  const McdkKeys: set<string> := {"MCDEV_PTVSD_IP", "MCDEV_PTVSD_PORT", "MCDEV_IS_PLUGIN_ENV",
                                  "MCDEV_OUTPUT_MODE", "MCDEV_IS_SUBPROCESS_MODE"}

  /** The session synthesised from a persisted record to reattach to it. */
  function RestoredSession(record: PersistedSession): (s: Session)
    ensures s.id == "restored" && s.pid == 0 && s.status == Connected
    ensures s.debugIp == record.ip && s.debugPort == record.port && s.createdAt == record.savedAt
    ensures s.pathMappings == [PathMapping(record.workspacePath, record.workspacePath)]
  {
    Session("restored", 0, record.ip, record.port, Connected, record.savedAt,
            [PathMapping(record.workspacePath, record.workspacePath)], None, record.workspacePath)
  }

  /** How many sessions at the front of `all` do not answer on their endpoint. */
  function UnreachablePrefix(all: seq<Session>, portActive: (string, int) -> bool): (k: nat)
    ensures k <= |all|
    ensures forall i | 0 <= i < k :: !portActive(all[i].debugIp, all[i].debugPort)
    ensures k < |all| ==> portActive(all[k].debugIp, all[k].debugPort)
  {
    if all == [] || portActive(all[0].debugIp, all[0].debugPort) then 0
    else 1 + UnreachablePrefix(all[1..], portActive)
  }

  /** The memento after `clearSession()`. */
  function Cleared(g: Option<seq<PersistedSession>>): Option<seq<PersistedSession>> {
    if g.None? then None else Some([])
  }

  /** What `tryReattachExistingSession` answers when Minecraft runs, given the registered
      sessions in iteration order and the persisted records. */
  function Reattach(all: seq<Session>, stored: seq<PersistedSession>, config: PtvsdConfig,
                    portActive: (string, int) -> bool): Option<Object>
  {
    var k := UnreachablePrefix(all, portActive);
    if k < |all| then Some(GenerateDebugConfiguration(all[k], config.justMyCode, Some(config.debugOptions)))
    else match MostRecent(stored)
      case None => None
      case Some(record) =>
        if portActive(record.ip, record.port)
        then Some(GenerateDebugConfiguration(RestoredSession(record), config.justMyCode, Some(config.debugOptions)))
        else None
  }

  /** Whether the reattach check ends by clearing the persisted records: no registered session
      answers, and neither does the most recent record. */
  predicate ReattachClears(all: seq<Session>, stored: seq<PersistedSession>, portActive: (string, int) -> bool) {
    && UnreachablePrefix(all, portActive) == |all|
    && MostRecent(stored).Some?
    && !portActive(MostRecent(stored).value.ip, MostRecent(stored).value.port)
  }

  /** A reattach configuration always points at an endpoint that answered the probe. */
  lemma ReattachTargetsLiveEndpoint(all: seq<Session>, stored: seq<PersistedSession>, config: PtvsdConfig,
                                    portActive: (string, int) -> bool)
    ensures var r := Reattach(all, stored, config, portActive);
            r.Some? ==>
              var host := AsString(Prop(Get(r.value, "connect"), "host"));
              var port := AsInt(Prop(Get(r.value, "connect"), "port"));
              host.Some? && port.Some? && portActive(host.value, port.value)
  {
    var k := UnreachablePrefix(all, portActive);
    if k < |all| {
      GeneratedConfigEndpoint(all[k], config.justMyCode, Some(config.debugOptions));
    } else if MostRecent(stored).Some? {
      GeneratedConfigEndpoint(RestoredSession(MostRecent(stored).value), config.justMyCode, Some(config.debugOptions));
    }
  }

  /** Reattaching prefers any registered session that answers over the persisted records, and
      falls back to the most recent record only when none answers. */
  lemma ReattachPrefersRegistered(all: seq<Session>, stored: seq<PersistedSession>, config: PtvsdConfig,
                                  portActive: (string, int) -> bool, i: nat)
    requires i < |all| && portActive(all[i].debugIp, all[i].debugPort)
    ensures exists j | 0 <= j <= i :: Reattach(all, stored, config, portActive)
                                       == Some(GenerateDebugConfiguration(all[j], config.justMyCode, Some(config.debugOptions)))
    ensures !ReattachClears(all, stored, portActive)
  {
    var k := UnreachablePrefix(all, portActive);
    assert k <= i;
  }

  /** The loop of `tryReattachExistingSession` over a snapshot `all` of the registered
      sessions: probes them in order, removing each one that does not answer, and stops at the
      first that does. Returns its index, or `|all|` when none answers. */
  method DropUnreachableSessions(reg: Registry, all: seq<Session>, portActive: (string, int) -> bool)
    returns (k: nat)
    requires reg.Valid() && |all| == |reg.order|
    requires forall i | 0 <= i < |all| :: all[i].debugPort == reg.order[i]
    modifies reg, reg.allocator
    ensures reg.Valid()
    ensures k == UnreachablePrefix(all, portActive)
    ensures reg.order == old(reg.order)[k..]
    ensures forall p | p in reg.sessions :: p in old(reg.sessions) && reg.sessions[p] == old(reg.sessions)[p]
    ensures forall id | id in reg.idToPort :: id in old(reg.idToPort)
  {
    ghost var n := UnreachablePrefix(all, portActive);
    k := 0;
    while k < |all|
      invariant reg.Valid()
      invariant 0 <= k <= n
      invariant reg.order == old(reg.order)[k..]
      invariant forall p | p in reg.sessions :: p in old(reg.sessions) && reg.sessions[p] == old(reg.sessions)[p]
      invariant forall id | id in reg.idToPort :: id in old(reg.idToPort)
    {
      var session := all[k];
      var isActive := portActive(session.debugIp, session.debugPort);
      if isActive {
        return;
      }
      DropFirstSession(reg);
      assert reg.order == old(reg.order)[k + 1..];
      k := k + 1;
    }
  }

  /** `removeSession` of the first session in registration order. */
  method DropFirstSession(reg: Registry)
    requires reg.Valid() && reg.order != []
    modifies reg, reg.allocator
    ensures reg.Valid()
    ensures reg.order == old(reg.order)[1..]
    ensures forall p | p in reg.sessions :: p in old(reg.sessions) && reg.sessions[p] == old(reg.sessions)[p]
    ensures forall id | id in reg.idToPort :: id in old(reg.idToPort)
  {
    RemoveHead(reg.order);
    var _ := reg.RemoveSession(reg.order[0]);
  }

  /** `tryReattachExistingSession(ptvsdConfig)`: when Minecraft runs, the registered sessions are
      probed in order (the unreachable ones before the first live one are removed), then the most
      recent persisted record. */
  method TryReattachExistingSession(reg: Registry, store: SessionStore, config: PtvsdConfig,
                                    minecraftRunning: bool, portActive: (string, int) -> bool)
    returns (r: Option<Object>)
    requires reg.Valid()
    modifies reg, reg.allocator, store
    ensures reg.Valid()
    ensures !minecraftRunning ==> && r == None
                                  && reg.sessions == old(reg.sessions) && reg.order == old(reg.order)
                                  && store.globalState == Cleared(old(store.globalState))
    ensures minecraftRunning ==>
              && r == Reattach(ValuesInOrder(old(reg.sessions), old(reg.order)), old(store.AllPersistedSessions()), config, portActive)
              && reg.order == old(reg.order)[UnreachablePrefix(ValuesInOrder(old(reg.sessions), old(reg.order)), portActive)..]
              && store.globalState == if ReattachClears(ValuesInOrder(old(reg.sessions), old(reg.order)), old(store.AllPersistedSessions()), portActive)
                                      then Cleared(old(store.globalState)) else old(store.globalState)
    ensures minecraftRunning && r.None? ==> reg.sessions == map[] && reg.order == [] && reg.idToPort == map[]
    ensures forall p | p in reg.sessions :: p in old(reg.sessions) && reg.sessions[p] == old(reg.sessions)[p]
    ensures forall id | id in reg.idToPort :: id in old(reg.idToPort)
    ensures reg.order == CheckedOrder(old(reg.sessions), old(reg.order), minecraftRunning, portActive)
    ensures reg.sessions == SessionsIn(old(reg.sessions), reg.order)
    ensures store.globalState == CheckedStore(old(reg.sessions), old(reg.order), old(store.globalState),
                                              minecraftRunning, portActive)
  {
    if !minecraftRunning {
      SessionsOfOrder(reg.sessions, reg.sessions, reg.order, reg.idToPort, reg.allocator.allocatedPorts);
      store.ClearSession();
      return None;
    }
    var all := reg.AllSessions();
    var k := DropUnreachableSessions(reg, all, portActive);
    SessionsOfOrder(reg.sessions, old(reg.sessions), reg.order, reg.idToPort, reg.allocator.allocatedPorts);
    if k < |all| {
      return Some(GenerateDebugConfiguration(all[k], config.justMyCode, Some(config.debugOptions)));
    }
    reg.EmptyWhenOrderEmpty();
    var lastSession := store.GetLastSession();
    if lastSession.Some? {
      var isActive := portActive(lastSession.value.ip, lastSession.value.port);
      if isActive {
        return Some(GenerateDebugConfiguration(RestoredSession(lastSession.value), config.justMyCode,
                                               Some(config.debugOptions)));
      }
      store.ClearSession();
    }
    return None;
  }

  /** The key order the reattach check leaves: when Minecraft runs, the sessions in front of the
      first one that answers are removed; otherwise nothing is. */
  function CheckedOrder(sessions: map<int, Session>, order: seq<int>, minecraftRunning: bool,
                        portActive: (string, int) -> bool): (r: seq<int>)
    requires forall i | 0 <= i < |order| :: order[i] in sessions
    ensures !minecraftRunning ==> r == order
    ensures |r| <= |order| && r == order[|order| - |r|..]
    ensures minecraftRunning ==>
              && (forall i | 0 <= i < |order| - |r| :: !portActive(sessions[order[i]].debugIp, sessions[order[i]].debugPort))
              && (r != [] ==> portActive(sessions[r[0]].debugIp, sessions[r[0]].debugPort))
  {
    if minecraftRunning then order[UnreachablePrefix(ValuesInOrder(sessions, order), portActive)..] else order
  }

  /** The registered sessions whose ports are still in `order`, as they were. */
  function SessionsIn(sessions: map<int, Session>, order: seq<int>): (r: map<int, Session>)
    ensures forall p :: p in r <==> p in sessions && p in order
    ensures forall p | p in r :: r[p] == sessions[p]
  {
    map p | p in sessions && p in order :: sessions[p]
  }

  /** The memento the reattach check leaves: cleared when Minecraft is not running, and cleared
      when neither a registered session nor the most recent record answers. */
  function CheckedStore(sessions: map<int, Session>, order: seq<int>, g: Option<seq<PersistedSession>>,
                        minecraftRunning: bool, portActive: (string, int) -> bool): (r: Option<seq<PersistedSession>>)
    requires forall i | 0 <= i < |order| :: order[i] in sessions
    ensures r == g || r == Cleared(g)
    ensures !minecraftRunning ==> r == Cleared(g)
    ensures minecraftRunning && (exists i | 0 <= i < |order| :: portActive(sessions[order[i]].debugIp, sessions[order[i]].debugPort))
            ==> r == g
  {
    var all := ValuesInOrder(sessions, order);
    assert minecraftRunning && (exists i | 0 <= i < |order| :: portActive(sessions[order[i]].debugIp, sessions[order[i]].debugPort))
           ==> UnreachablePrefix(all, portActive) < |all|;
    if !minecraftRunning || ReattachClears(ValuesInOrder(sessions, order), g.GetOr([]), portActive)
    then Cleared(g) else g
  }

  /** A consistent registry whose sessions all come unchanged from `old` holds exactly the
      sessions of `old` its key order lists. */
  lemma SessionsOfOrder(sessions: map<int, Session>, old0: map<int, Session>, order: seq<int>,
                        idToPort: map<string, int>, claimed: set<int>)
    requires Consistent(sessions, order, idToPort, claimed)
    requires forall p | p in sessions :: p in old0 && sessions[p] == old0[p]
    ensures sessions == SessionsIn(old0, order)
  {
    var kept := SessionsIn(old0, order);
    forall p ensures p in sessions <==> p in kept {
      if p in order {
        var i :| 0 <= i < |order| && order[i] == p;
      }
    }
    assert sessions.Keys == kept.Keys;
  }

  /** Removing the head of a list without duplicates leaves its tail. */
  lemma RemoveHead(s: seq<int>)
    requires NoDuplicates(s) && s != []
    ensures Without(s, s[0]) == s[1..]
  {
    assert s[0] !in s[1..];
  }

  /** The terminal MCDK is started in for `port`; `subClient` names it a sub client. */
  function McdkTerminal(port: int, subClient: bool, mcdkPath: Path, workspace: string,
                        env: McdkEnv): Terminal
  {
    Terminal((if subClient then "Minecraft Sub (Port: " else "Minecraft Debug (Port: ") + IntToString(port) + ")",
             mcdkPath, workspace, env)
  }

  /** What the steps after the reattach check come to, given the ports of the sessions already
      registered (which are the ports the allocator holds). */
  function StartOutcome(registered: set<int>, workspace: string, config: PtvsdConfig,
                        timeout: int, mcdkPath: Path, subClientName: bool, world: LaunchWorld): (o: LaunchOutcome)
    ensures !o.NoWorkspace? && !o.Reattached?
  {
    var a := Allocate(registered, Some(config.preferredPort), world.portAvailable, world.ephemeralPort);
    if a.Failure? then CreateFailed(AllocationFailed(a.error))
    else if a.value.port in registered then CreateFailed(PortHasSession(a.value.port))
    else AwaitOutcome(NewSession(world.freshId, a.value.port, config, workspace, world.clock),
                      workspace, config, timeout, mcdkPath, subClientName, world)
  }

  /** What the launch comes to once `session` is registered: MCDK is started in its terminal and
      the poll decides between cancellation, timeout and attaching. */
  function AwaitOutcome(session: Session, workspace: string, config: PtvsdConfig, timeout: int,
                        mcdkPath: Path, subClientName: bool, world: LaunchWorld): LaunchOutcome
  {
    var port := session.debugPort;
    var terminal := McdkTerminal(port, subClientName && world.runningAtSpawn, mcdkPath, workspace,
                                 McdkEnv(world.processEnv, config.ip, port, world.runningAtSpawn));
    var end := Poll(world.poll, timeout);
    if CancelledBy(world.poll, end.at) then Cancelled(port, terminal)
    else if !end.Ready? then TimedOut(port, terminal)
    else Attached(session, terminal, PersistedSession(port, config.ip, workspace, world.clock + end.at), config)
  }

  /** A launch attaches only when the debugger answered and the user did not cancel first, and
      then to a new pending session on the port it allocated, persisted with the time it answered. */
  lemma StartAttachesOnlyWhenReady(registered: set<int>, workspace: string, config: PtvsdConfig,
                                   timeout: int, mcdkPath: Path, subClientName: bool, world: LaunchWorld)
    ensures var o := StartOutcome(registered, workspace, config, timeout, mcdkPath, subClientName, world);
            var a := Allocate(registered, Some(config.preferredPort), world.portAvailable, world.ephemeralPort);
            var end := Poll(world.poll, timeout);
            && (o.Attached? <==> a.Success? && a.value.port !in registered && end.Ready? && !CancelledBy(world.poll, end.at))
            && (o.Attached? ==> && o.session.debugPort == a.value.port && o.session.status == Pending
                                && o.session.id == world.freshId
                                && o.record == PersistedSession(a.value.port, config.ip, workspace, world.clock + end.at)
                                && o.Result() == Some(GenerateDebugConfiguration(o.session, config.justMyCode,
                                                                                 Some(config.debugOptions))))
            && ((o.Cancelled? || o.TimedOut?) ==> a.Success? && o.port == a.value.port)
  {
  }

  /** Whenever MCDK is started, it runs from the configured executable in the workspace folder,
      in a terminal named after the port, with the debug endpoint in its environment. */
  lemma StartedTerminal(registered: set<int>, workspace: string, config: PtvsdConfig,
                        timeout: int, mcdkPath: Path, subClientName: bool, world: LaunchWorld)
    ensures var o := StartOutcome(registered, workspace, config, timeout, mcdkPath, subClientName, world);
            (o.Cancelled? || o.TimedOut? || o.Attached?) ==>
              var port := o.LaunchedPort();
              && o.terminal.shellPath == mcdkPath && o.terminal.cwd == workspace
              && o.terminal.env == McdkEnv(world.processEnv, config.ip, port, world.runningAtSpawn)
              && o.terminal.name == (if subClientName && world.runningAtSpawn then "Minecraft Sub (Port: "
                                     else "Minecraft Debug (Port: ") + IntToString(port) + ")"
              && port !in registered
  {
  }

  /** `StartAndAttach`: the steps after the reattach check, shared by both launch functions:
      create a session, then start MCDK and wait for its debugger. */
  method StartAndAttach(reg: Registry, store: SessionStore, workspace: string, config: PtvsdConfig,
                        timeout: int, mcdkPath: Path, subClientName: bool, world: LaunchWorld)
    returns (outcome: LaunchOutcome)
    requires reg.Valid() && world.freshId !in reg.idToPort
    modifies reg, reg.allocator, store
    ensures reg.Valid()
    ensures outcome == StartOutcome(old(reg.sessions.Keys), workspace, config,
                                    timeout, mcdkPath, subClientName, world)
    ensures outcome.Attached? ==>
              && reg.sessions == old(reg.sessions)[outcome.session.debugPort := outcome.session]
              && reg.order == old(reg.order) + [outcome.session.debugPort]
              && store.globalState == SavedState(old(store.globalState), outcome.record)
    ensures !outcome.Attached? ==> && reg.sessions == old(reg.sessions) && reg.order == old(reg.order)
                                   && reg.idToPort == old(reg.idToPort)
                                   && store.globalState == old(store.globalState)
    ensures (outcome.Cancelled? || outcome.TimedOut?) ==> outcome.port !in reg.sessions
    ensures outcome.Attached? ==> outcome.session.debugPort in reg.sessions
                                  && reg.sessions[outcome.session.debugPort] == outcome.session
  {
    var created := reg.CreateSession(workspace, config, world.portAvailable, world.ephemeralPort,
                                     world.freshId, world.clock);
    if created.Failure? {
      return CreateFailed(created.error);
    }
    outcome := AwaitDebugger(reg, store, created.value, workspace, config, timeout, mcdkPath, subClientName, world,
                             old(reg.sessions), old(reg.order), old(reg.idToPort));
  }

  /** The part of the launch after `createSession`: starts MCDK in a terminal and waits for the
      debug port. On cancellation (terminal disposed) or timeout (terminal kept) the session is
      removed again, which restores the registry as it was before `createSession`; otherwise the
      session is persisted with the time the port answered and its attach configuration returned. */
  method AwaitDebugger(reg: Registry, store: SessionStore, session: Session, workspace: string,
                       config: PtvsdConfig, timeout: int, mcdkPath: Path, subClientName: bool,
                       world: LaunchWorld, ghost sessions0: map<int, Session>, ghost order0: seq<int>,
                       ghost ids0: map<string, int>)
    returns (outcome: LaunchOutcome)
    requires reg.Valid()
    requires session.debugPort !in sessions0 && session.debugPort !in order0 && session.id !in ids0
    requires reg.sessions == sessions0[session.debugPort := session]
    requires reg.order == order0 + [session.debugPort]
    requires reg.idToPort == ids0[session.id := session.debugPort]
    modifies reg, reg.allocator, store
    ensures reg.Valid()
    ensures outcome == AwaitOutcome(session, workspace, config, timeout, mcdkPath, subClientName, world)
    ensures outcome.Attached? ==> && reg.sessions == old(reg.sessions) && reg.order == old(reg.order)
                                  && store.globalState == SavedState(old(store.globalState), outcome.record)
    ensures !outcome.Attached? ==> && reg.sessions == sessions0 && reg.order == order0 && reg.idToPort == ids0
                                   && store.globalState == old(store.globalState)
  {
    var port := session.debugPort;
    var env := McdkEnv(world.processEnv, config.ip, port, world.runningAtSpawn);
    var terminal := McdkTerminal(port, subClientName && world.runningAtSpawn, mcdkPath, workspace, env);
    var portReady, now := WaitForPort(world.poll, timeout);
    if CancelledBy(world.poll, now) || !portReady {
      RollBack(reg, session, sessions0, order0, ids0);
      if CancelledBy(world.poll, now) {
        return Cancelled(port, terminal);
      }
      return TimedOut(port, terminal);
    }
    var record := PersistedSession(port, config.ip, workspace, world.clock + now);
    store.SaveSession(record);
    return Attached(session, terminal, record, config);
  }

  /** `removeSession(session.debugPort)` right after `createSession` registered `session`: puts
      the registry back as it was. */
  method RollBack(reg: Registry, session: Session, ghost sessions0: map<int, Session>, ghost order0: seq<int>,
                  ghost ids0: map<string, int>)
    requires reg.Valid()
    requires session.debugPort !in sessions0 && session.debugPort !in order0 && session.id !in ids0
    requires reg.sessions == sessions0[session.debugPort := session]
    requires reg.order == order0 + [session.debugPort]
    requires reg.idToPort == ids0[session.id := session.debugPort]
    modifies reg, reg.allocator
    ensures reg.Valid()
    ensures reg.sessions == sessions0 && reg.order == order0 && reg.idToPort == ids0
  {
    WithoutLast(order0, session.debugPort);
    UpdateThenRemove(ids0, session.id, session.debugPort);
    UpdateThenRemove(sessions0, session.debugPort, session);
    var _ := reg.RemoveSession(session.debugPort);
  }

  /** Adding a fresh key to a map and removing it again gives the map back. */
  lemma UpdateThenRemove<K, V>(m: map<K, V>, k: K, v: V)
    requires k !in m
    ensures m[k := v] - {k} == m
  {
  }

  /** The memento after `saveSession(record)`. */
  function SavedState(g: Option<seq<PersistedSession>>, record: PersistedSession): Option<seq<PersistedSession>> {
    if g.None? then None else Some(Saved(g.value, record))
  }

  /** Removing an element appended to a list that did not hold it gives the list back. */
  lemma {:induction false} WithoutLast(s: seq<int>, x: int)
    requires x !in s
    ensures Without(s + [x], x) == s
  {
    if s != [] {
      assert (s + [x])[1..] == s[1..] + [x];
      WithoutLast(s[1..], x);
    }
  }

  /** `launchConfig.timeout ?? timeout setting (60000)` */
  function LaunchTimeout(launchConfig: Object, global: Object): (r: int)
    ensures AsInt(Get(launchConfig, "timeout")).Some? ==> r == AsInt(Get(launchConfig, "timeout")).value
    ensures Get(launchConfig, "timeout") in {None, Some(JNull)} ==> r == SettingInt(global, "timeout", 60000)
    ensures Get(launchConfig, "timeout") == None && Get(global, "timeout") == None ==> r == 60000
  {
    AsInt(Get(launchConfig, "timeout")).GetOr(SettingInt(global, "timeout", 60000))
  }

  /** `launchConfig.mcdkPath ?? mcdkPath setting ("")` */
  function LaunchMcdkPathSetting(launchConfig: Object, global: Object): (r: string)
    ensures AsString(Get(launchConfig, "mcdkPath")).Some? ==> r == AsString(Get(launchConfig, "mcdkPath")).value
    ensures Get(launchConfig, "mcdkPath") in {None, Some(JNull)} ==> r == SettingString(global, "mcdkPath", "")
    ensures Get(launchConfig, "mcdkPath") == None && Get(global, "mcdkPath") == None ==> r == ""
  {
    AsString(Get(launchConfig, "mcdkPath")).GetOr(SettingString(global, "mcdkPath", ""))
  }

  /** What `launchPtvsdDebugSession` comes to in workspace `workspace` once its settings are
      resolved, given the registered sessions in iteration order, their ports and the persisted
      records. When Minecraft runs and nothing answers, the reattach check has emptied the
      registry before the new session is created; when it does not run, the registry is left as
      it was. */
  function ReattachOrStart(all: seq<Session>, registered: set<int>, stored: seq<PersistedSession>,
                           workspace: string, config: PtvsdConfig, timeout: int, mcdkPath: Path,
                           world: LaunchWorld): LaunchOutcome
  {
    var reattached := if world.minecraftRunning then Reattach(all, stored, config, world.portActive) else None;
    if reattached.Some? then Reattached(reattached.value)
    else StartOutcome(if world.minecraftRunning then {} else registered, workspace, config, timeout,
                      mcdkPath, false, world)
  }

  /** `launchPtvsdDebugSession` with its settings read from the launch configuration first and
      the `mcdev-tools` settings second. */
  function PtvsdLaunch(all: seq<Session>, registered: set<int>, stored: seq<PersistedSession>,
                       workspace: string, launchConfig: Object, global: Object, extensionPath: string,
                       world: LaunchWorld): LaunchOutcome
  {
    ReattachOrStart(all, registered, stored, workspace, GetDebugConfigFromSettings(Some(launchConfig), global),
                    LaunchTimeout(launchConfig, global),
                    GetMcdkPath(workspace, LaunchMcdkPathSetting(launchConfig, global), extensionPath), world)
  }

  /** A launch reattaches exactly when Minecraft runs and a registered session or the most recent
      record answers; then it points at a live endpoint and starts nothing. Otherwise it goes on
      to start MCDK, whose terminal is always named as a main client. */
  lemma PtvsdLaunchReattachesFirst(all: seq<Session>, registered: set<int>, stored: seq<PersistedSession>,
                                   workspace: string, launchConfig: Object, global: Object,
                                   extensionPath: string, world: LaunchWorld)
    ensures var o := PtvsdLaunch(all, registered, stored, workspace, launchConfig, global, extensionPath, world);
            var config := GetDebugConfigFromSettings(Some(launchConfig), global);
            && (o.Reattached? <==> world.minecraftRunning && Reattach(all, stored, config, world.portActive).Some?)
            && (o.Reattached? ==>
                  var host := AsString(Prop(Get(o.config, "connect"), "host"));
                  var port := AsInt(Prop(Get(o.config, "connect"), "port"));
                  host.Some? && port.Some? && world.portActive(host.value, port.value))
            && ((o.Cancelled? || o.TimedOut? || o.Attached?) ==>
                  o.terminal.name == "Minecraft Debug (Port: " + IntToString(o.LaunchedPort()) + ")")
  {
    var config := GetDebugConfigFromSettings(Some(launchConfig), global);
    ReattachTargetsLiveEndpoint(all, stored, config, world.portActive);
    StartedTerminal(if world.minecraftRunning then {} else registered, workspace, config,
                    LaunchTimeout(launchConfig, global),
                    GetMcdkPath(workspace, LaunchMcdkPathSetting(launchConfig, global), extensionPath),
                    false, world);
  }

  /** `launchPtvsdDebugSession(launchConfig, extensionPath)`: `global` holds the `mcdev-tools`
      settings and `workspace` the first workspace folder, if any. */
  method LaunchPtvsdDebugSession(reg: Registry, store: SessionStore, workspace: Option<string>,
                                 launchConfig: Object, global: Object, extensionPath: string,
                                 world: LaunchWorld)
    returns (outcome: LaunchOutcome)
    requires reg.Valid() && world.freshId !in reg.idToPort
    modifies reg, reg.allocator, store
    ensures reg.Valid()
    ensures workspace.None? ==> && outcome == NoWorkspace
                                && reg.sessions == old(reg.sessions) && reg.order == old(reg.order)
                                && store.globalState == old(store.globalState)
    ensures workspace.Some? ==>
              outcome == PtvsdLaunch(ValuesInOrder(old(reg.sessions), old(reg.order)), old(reg.sessions.Keys),
                                     old(store.AllPersistedSessions()), workspace.value, launchConfig, global,
                                     extensionPath, world)
    ensures (outcome.Cancelled? || outcome.TimedOut?) ==>
              outcome.port !in reg.sessions && outcome.port !in reg.allocator.allocatedPorts
    ensures outcome.Attached? ==> outcome.session.debugPort in reg.sessions
                                  && reg.sessions[outcome.session.debugPort] == outcome.session
    ensures workspace.Some? ==>
              var order := CheckedOrder(old(reg.sessions), old(reg.order), world.minecraftRunning, world.portActive);
              var sessions := SessionsIn(old(reg.sessions), order);
              var stored := CheckedStore(old(reg.sessions), old(reg.order), old(store.globalState),
                                         world.minecraftRunning, world.portActive);
              && (outcome.Attached? ==> && reg.sessions == sessions[outcome.session.debugPort := outcome.session]
                                        && reg.order == order + [outcome.session.debugPort]
                                        && store.globalState == SavedState(stored, outcome.record))
              && (!outcome.Attached? ==> reg.sessions == sessions && reg.order == order && store.globalState == stored)
  {
    if workspace.None? {
      return NoWorkspace;
    }
    var ws := workspace.value;
    var config := GetDebugConfigFromSettings(Some(launchConfig), global);
    var timeout := LaunchTimeout(launchConfig, global);
    var mcdkPathConfig := LaunchMcdkPathSetting(launchConfig, global);
    var mcdkPath := GetMcdkPath(ws, mcdkPathConfig, extensionPath);
    outcome := ReattachOrStartSession(reg, store, ws, config, timeout, mcdkPath, world);
  }

  /** The launch once its settings are resolved: reattach if possible, otherwise start MCDK. */
  method ReattachOrStartSession(reg: Registry, store: SessionStore, workspace: string, config: PtvsdConfig,
                                timeout: int, mcdkPath: Path, world: LaunchWorld)
    returns (outcome: LaunchOutcome)
    requires reg.Valid() && world.freshId !in reg.idToPort
    modifies reg, reg.allocator, store
    ensures reg.Valid()
    ensures outcome == ReattachOrStart(ValuesInOrder(old(reg.sessions), old(reg.order)), old(reg.sessions.Keys),
                                       old(store.AllPersistedSessions()), workspace, config, timeout, mcdkPath,
                                       world)
    ensures (outcome.Cancelled? || outcome.TimedOut?) ==> outcome.port !in reg.sessions
    ensures outcome.Attached? ==> outcome.session.debugPort in reg.sessions
                                  && reg.sessions[outcome.session.debugPort] == outcome.session
    ensures var order := CheckedOrder(old(reg.sessions), old(reg.order), world.minecraftRunning, world.portActive);
            var sessions := SessionsIn(old(reg.sessions), order);
            var stored := CheckedStore(old(reg.sessions), old(reg.order), old(store.globalState),
                                       world.minecraftRunning, world.portActive);
            && (outcome.Attached? ==> && reg.sessions == sessions[outcome.session.debugPort := outcome.session]
                                      && reg.order == order + [outcome.session.debugPort]
                                      && store.globalState == SavedState(stored, outcome.record))
            && (!outcome.Attached? ==> reg.sessions == sessions && reg.order == order && store.globalState == stored)
  {
    var existing := TryReattachExistingSession(reg, store, config, world.minecraftRunning, world.portActive);
    if existing.Some? {
      return Reattached(existing.value);
    }
    outcome := StartAndAttach(reg, store, workspace, config, timeout, mcdkPath, false, world);
  }

  /** `launchNewInstance(extensionPath)`: always starts a new game client (a sub client when
      Minecraft already runs), configured from the global settings only. */
  method LaunchNewInstance(reg: Registry, store: SessionStore, workspace: Option<string>,
                           global: Object, extensionPath: string, world: LaunchWorld)
    returns (outcome: LaunchOutcome)
    requires reg.Valid() && world.freshId !in reg.idToPort
    modifies reg, reg.allocator, store
    ensures reg.Valid()
    ensures workspace.None? ==> outcome == NoWorkspace
    ensures workspace.Some? ==>
              outcome == StartOutcome(old(reg.sessions.Keys), workspace.value,
                                      GetDebugConfigFromSettings(None, global), SettingInt(global, "timeout", 60000),
                                      GetMcdkPath(workspace.value, SettingString(global, "mcdkPath", ""), extensionPath),
                                      true, world)
    ensures !outcome.Attached? ==> && reg.sessions == old(reg.sessions) && reg.order == old(reg.order)
                                   && store.globalState == old(store.globalState)
    ensures outcome.Attached? ==> && reg.sessions == old(reg.sessions)[outcome.session.debugPort := outcome.session]
                                  && reg.order == old(reg.order) + [outcome.session.debugPort]
                                  && store.globalState == SavedState(old(store.globalState), outcome.record)
  {
    if workspace.None? {
      return NoWorkspace;
    }
    var ws := workspace.value;
    var config := GetDebugConfigFromSettings(None, global);
    var timeout := SettingInt(global, "timeout", 60000);
    var mcdkPathConfig := SettingString(global, "mcdkPath", "");
    var mcdkPath := GetMcdkPath(ws, mcdkPathConfig, extensionPath);
    outcome := StartAndAttach(reg, store, ws, config, timeout, mcdkPath, true, world);
  }
}
