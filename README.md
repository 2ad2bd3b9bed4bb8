# mcdev-tools: debug sessions and sidebar editors in Dafny

This project models the core of **mcdev-tools**, a VS Code extension for Minecraft add-on
development, and proves properties of that model. The extension does two things.

- **Debugging.** It starts Minecraft (through MCDK) with a ptvsd debug server, or injects
  `mcdbg` into a running Minecraft process. Then it hands VS Code a debugpy `attach`
  configuration. The model covers:
  - the ptvsd launch path: the port allocator, the in-memory session registry, the persisted
    last-session store, the reattach check, the MCDK terminal environment, the readiness poll
    and the generated attach configuration;
  - the inject path: process selection, the free-port scan, the per-process session table and
    the `dapConfig` merge;
  - the three debug configuration providers and the extension's own `minecraft-modpc` debugger.
- **Editing `.mcdev.json`.** The extension has two editors for the project file:
  - the React webview, with its mod directory list, window style fields, key bindings and the
    default-value hooks;
  - the plain-script sidebar `McdevEditor`, with its field loops that load the file into the
    page and collect it back, its key capture and its HTML escaping.

Things the extension gets from the outside world are parameters of the model:
- sockets, bind results and the connect probe;
- clocks and the timing of the poll;
- the process list that `mcdbg --list` prints;
- the user's choices in pickers and warnings;
- the VS Code settings and `process.env`;
- JavaScript `Number()`;
- the random session id.

Objects that the source updates in place are classes. These are the allocator, the two session
registries, the session store, the two editors and the hook's `initialized` ref. Each method on
them states its new state in terms of specification functions. Lemmas then prove the
invariants, round trips and ordering properties of those functions.

JSON values are the `Json` datatype of `JsonValues`. A JavaScript object is a
`map<string, Json>`. Where the source iterates a `Map`, its insertion order is kept as a
separate `seq` of keys.

## Model

| member | source | states |
|---|---|---|
| PortAllocator.Allocate | src/debugger/ptvsd/portAllocator.ts:52-68 | The preferred port is handed out exactly when it is set, non-zero, unclaimed and free. Otherwise an ephemeral port is used. Allocation fails only when neither exists. |
| PortAllocator.PreferredPortClaimedOnce | src/debugger/ptvsd/portAllocator.ts:52-68 | Once the preferred port is claimed, a second allocation never gets it as preferred. |
| PortAllocator.ReleasedPortReused | src/debugger/ptvsd/portAllocator.ts:73-75 | After a free port is released, asking for it again hands it out as the preferred port. |
| PortAllocator.Allocator.constructor | src/debugger/ptvsd/portAllocator.ts:9 | The allocator starts with no claimed ports. |
| PortAllocator.Allocator.AllocatePort | src/debugger/ptvsd/portAllocator.ts:52-68 | The result is `Allocate` of the old claims. A success adds exactly the handed-out port to the claims; a failure leaves them unchanged. |
| PortAllocator.Allocator.ReleasePort | src/debugger/ptvsd/portAllocator.ts:73-75 | Removes exactly that port from the claims. |
| PortAllocator.Allocator.GetAllocatedPorts | src/debugger/ptvsd/portAllocator.ts:80-82 | Returns the claimed set. |
| PortAllocator.Allocator.ReleaseAllPorts | src/debugger/ptvsd/portAllocator.ts:87-89 | Leaves no claimed port. |
| Storage.WithoutPort | src/debugger/ptvsd/storage.ts:70-77 | Keeps exactly the records whose port differs. A list without that port is unchanged. |
| Storage.Saved | src/debugger/ptvsd/storage.ts:33-43 | The new record is last. No other record shares its port. Every other-port record is kept, and nothing else is added. |
| Storage.WithoutPortAppend | src/debugger/ptvsd/storage.ts:70-77 | Removal works record by record: it distributes over concatenation, and one record is kept exactly when its port differs. So the kept records stay in their order, each as often as before. |
| Storage.WithoutAbsentPort | src/debugger/ptvsd/storage.ts:70-77 | A list with no record for the port is kept as it is. |
| Storage.SavedAppend | src/debugger/ptvsd/storage.ts:33-43 | Saving keeps the other-port records of both parts of a list in their order, then appends the new record. |
| Storage.SavedNewPort | src/debugger/ptvsd/storage.ts:33-43 | Saving a record for a port not yet stored appends it to the list unchanged. |
| Storage.SavedKeepsPortsUnique | src/debugger/ptvsd/storage.ts:33-43 | Saving keeps at most one record per port. |
| Storage.WithoutPortKeepsUnique | src/debugger/ptvsd/storage.ts:70-77 | Removing a port keeps the ports unique. |
| Storage.MostRecentIndex | src/debugger/ptvsd/storage.ts:58-65 | The index of the first record with the greatest `savedAt` (the sort is stable). |
| Storage.MostRecent | src/debugger/ptvsd/storage.ts:58-65 | None exactly for an empty store. Otherwise a stored record whose `savedAt` is maximal. |
| Storage.SavedIsMostRecent | src/debugger/ptvsd/storage.ts:33-65 | A record saved later than every stored one is what `getLastSession` returns next. |
| Storage.SessionStore.constructor | src/debugger/ptvsd/storage.ts:21 | The store starts without a global state. |
| Storage.SessionStore.InitStorage | src/debugger/ptvsd/storage.ts:26-28 | Attaches the stored list. |
| Storage.SessionStore.SaveSession | src/debugger/ptvsd/storage.ts:33-43 | The list becomes `Saved(old, record)`. Nothing happens before initialisation. |
| Storage.SessionStore.GetLastSession | src/debugger/ptvsd/storage.ts:58-65 | Returns `MostRecent` of the persisted list. |
| Storage.SessionStore.RemovePersistedSession | src/debugger/ptvsd/storage.ts:70-77 | The list becomes `WithoutPort(old, port)`. |
| Storage.SessionStore.ClearSession | src/debugger/ptvsd/storage.ts:82-87 | The list becomes empty when the store is initialised. |
| SessionManager.ValuesInOrder | src/debugger/ptvsd/sessionManager.ts:135-137 | The map's values listed in insertion order, position by position. |
| SessionManager.Without | src/debugger/ptvsd/sessionManager.ts:116-130 | The key order with a key deleted: exactly the other keys, each distinct when the input was. A key that is absent leaves the order unchanged. |
| SessionManager.WithoutAppend | src/debugger/ptvsd/sessionManager.ts:116-130 | Deleting a key distributes over concatenation, so the other keys keep their relative order. |
| SessionManager.WithoutAt | src/debugger/ptvsd/sessionManager.ts:116-130 | In an order without duplicates, deleting the key at position k leaves the keys before k and after k, in their order. |
| SessionManager.ConsistentAdd | src/debugger/ptvsd/sessionManager.ts:50-72 | Registering a session under a new port and a new id keeps both indexes, the key order and the claimed ports consistent. |
| SessionManager.Registry.constructor | src/debugger/ptvsd/sessionManager.ts:20-23 | An empty, consistent registry that owns a fresh allocator. |
| SessionManager.Registry.CreateSession | src/debugger/ptvsd/sessionManager.ts:28-72 | The allocation error is rethrown. A port that already has a session is refused. Otherwise the new session is registered under its port and id and appended to the order; the registry stays consistent. |
| SessionManager.Registry.SessionByPort | src/debugger/ptvsd/sessionManager.ts:77-79 | Finds a session exactly when the port is registered. |
| SessionManager.Registry.SessionById | src/debugger/ptvsd/sessionManager.ts:84-90 | Finds the session with that id whenever one is registered. |
| SessionManager.Registry.LookupsAgree | src/debugger/ptvsd/sessionManager.ts:77-90 | Looking a session up by its id or by its port gives the same session. |
| SessionManager.Registry.UpdateSessionStatus | src/debugger/ptvsd/sessionManager.ts:95-111 | Reports whether the port is registered. It sets the status, and the VS Code session id only when a non-empty one is given; nothing else changes. |
| SessionManager.Registry.RemoveSession | src/debugger/ptvsd/sessionManager.ts:116-130 | Releases the port and drops it from both indexes and the order. Reports whether it was registered. |
| SessionManager.Registry.AllSessions | src/debugger/ptvsd/sessionManager.ts:135-137 | Every registered session, once each, in insertion order. |
| SessionManager.Registry.ActiveSessionPids | src/debugger/ptvsd/sessionManager.ts:142-144 | Every registered pid once, in the order of `getAllSessions`. |
| SessionManager.Registry.HasActiveSession | src/debugger/ptvsd/sessionManager.ts:149-151 | True exactly when a session with that pid is found by port. |
| SessionManager.Registry.OrderCoversKeys | src/debugger/ptvsd/sessionManager.ts:135-137 | The insertion order lists each registered port once. |
| SessionManager.Registry.EmptyWhenOrderEmpty | src/debugger/ptvsd/sessionManager.ts:135-160 | No sessions in the order means an empty registry. |
| SessionManager.Registry.CleanupAllSessions | src/debugger/ptvsd/sessionManager.ts:156-160 | Empties both indexes and releases every port. |
| SessionManager.DebugOptionFlags | src/debugger/ptvsd/sessionManager.ts:171-188 | Lists exactly the switched-on variable filters, in the source's fixed order. |
| SessionManager.FlagIf | src/debugger/ptvsd/sessionManager.ts:176-187 | One filter when it is on, none otherwise. |
| SessionManager.FlagNameInjective | src/debugger/ptvsd/sessionManager.ts:176-187 | Different filters get different names. |
| SessionManager.MappingsToJson | src/debugger/ptvsd/sessionManager.ts:198-201 | One JSON object per path mapping. |
| SessionManager.MappingsRoundTrip | src/debugger/ptvsd/sessionManager.ts:198-201 | The path mappings written into the configuration read back as the same mappings. |
| SessionManager.FlagsToJson | src/debugger/ptvsd/sessionManager.ts:171-188 | The filter names as strings, position by position. |
| SessionManager.GeneratedConfigShape | src/debugger/ptvsd/sessionManager.ts:165-210 | `debugOptions` is present exactly when some filter is on and then holds their names. Every other member is the fixed attach base. |
| SessionManager.GenerateDebugConfiguration | src/debugger/ptvsd/sessionManager.ts:165-210 | The attach configuration of a session. It has no contract of its own; the `GeneratedConfig*` and `GeneratedFlagNames` lemmas state its shape, identity, endpoint, options and filter names. |
| SessionManager.GeneratedFlagNames | src/debugger/ptvsd/sessionManager.ts:171-188 | A filter's name is in the generated array exactly when that filter is on. |
| SessionManager.GeneratedConfigIdentity | src/debugger/ptvsd/sessionManager.ts:190-193 | A `python` `attach` configuration named after the session's port. |
| SessionManager.GeneratedConfigEndpoint | src/debugger/ptvsd/sessionManager.ts:194-197 | It connects to the session's debug host and port. |
| SessionManager.GeneratedConfigOptions | src/debugger/ptvsd/sessionManager.ts:198-206 | It carries the session's path mappings and `justMyCode`, with output redirection and sub-process debugging on. |
| SessionManager.SettingsDefaults | src/debugger/ptvsd/sessionManager.ts:215-240 | With nothing configured, ptvsd is on at localhost:56788, `justMyCode` is off and no filter is on. |
| SessionManager.GetDebugConfigFromSettings | src/debugger/ptvsd/sessionManager.ts:215-240 | Each of `enabled`, the host, the port, `justMyCode` and the four `debugOptions` flags comes from the launch configuration when it sets it with the right type. It comes from the matching `mcdev-tools` setting (or its default) when the launch value is absent or `null`. The extra path mappings are the launch configuration's `dapConfig.pathMappings`, and none without a launch configuration. |
| SessionManager.LaunchConfigWins | src/debugger/ptvsd/sessionManager.ts:215-240 | A launch configuration that sets every value decides the whole configuration, whatever the global settings say, and its path mappings read back as written. |
| SessionManager.GlobalSettingsApply | src/debugger/ptvsd/sessionManager.ts:215-240 | Without a launch configuration, the global settings are used and no extra path mappings are given. |
| Paths.ToolPath | src/debugger/ptvsd/launcher.ts:30-41 | A configured path is taken as given or joined to the workspace. With none, the bundled executable under the extension is used. |
| Paths.ToolPathAnchored | src/debugger/ptvsd/launcher.ts:30-41 | With an absolute workspace and extension path, the tool path never depends on the current directory. An absolute configured path is used as it is. |
| Paths.RelativeConfiguredPathJoined | src/debugger/ptvsd/launcher.ts:35-38 | Any configured path that starts neither with a separator nor with a drive, colon and separator is joined to the workspace. This covers `tools\x` and the drive-relative `C:x`. |
| Launcher.GetMcdkPath | src/debugger/ptvsd/launcher.ts:30-41 | `bin/mcdk.exe` under the extension when unset. The configured path when absolute. Otherwise the configured path joined to the workspace. |
| Launcher.McdkEnvironment | src/debugger/ptvsd/launcher.ts:233-245 | The environment MCDK starts with. It has no contract of its own; `McdkEnvironmentContents` states its variables. |
| Launcher.McdkEnvironmentContents | src/debugger/ptvsd/launcher.ts:233-245 | MCDK's environment is `process.env` with the ptvsd host, the port (read back as the same number) and the plugin and output flags set. The sub-process flag is set when Minecraft runs. |
| Launcher.RestoredSession | src/debugger/ptvsd/launcher.ts:110-122 | The stand-in session for a persisted record: id `restored`, pid 0, connected, at the record's endpoint, with the workspace mapped to itself. |
| Launcher.UnreachablePrefix | src/debugger/ptvsd/launcher.ts:88-99 | The number of leading sessions whose endpoint does not answer. The next one answers. |
| Launcher.ReattachTargetsLiveEndpoint | src/debugger/ptvsd/launcher.ts:76-131 | A reattach configuration always points at an endpoint that answered the probe. |
| Launcher.ReattachPrefersRegistered | src/debugger/ptvsd/launcher.ts:88-99 | When a registered session answers, the first one that answers is reattached, and the persisted store is not cleared. |
| Launcher.DropUnreachableSessions | src/debugger/ptvsd/launcher.ts:89-98 | Removes exactly the unreachable leading sessions and keeps the registry consistent. |
| Launcher.DropFirstSession | src/debugger/ptvsd/launcher.ts:97 | Removes the first registered session only. |
| Launcher.TryReattachExistingSession | src/debugger/ptvsd/launcher.ts:76-131 | With Minecraft down, the store is cleared and nothing is reattached. Otherwise the result is `Reattach` of the old sessions and records, the unreachable prefix is dropped, and the store is cleared exactly when nothing answers. The new order, sessions and store are `CheckedOrder`, `SessionsIn` of it and `CheckedStore`. |
| Launcher.CheckedOrder | src/debugger/ptvsd/launcher.ts:80-99 | The order after the reattach check is a suffix of the old one. When Minecraft runs, every dropped session failed the probe and the first kept one answered; otherwise nothing is dropped. |
| Launcher.CheckedStore | src/debugger/ptvsd/launcher.ts:80-127 | The store after the reattach check is either untouched or cleared. It is cleared whenever Minecraft is not running, and untouched whenever Minecraft runs and some registered session answers. |
| Launcher.SessionsIn | src/debugger/ptvsd/launcher.ts:87-99 | Exactly the old sessions whose ports are still in the order, unchanged. |
| Launcher.SessionsOfOrder | src/debugger/ptvsd/launcher.ts:87-99 | A consistent registry whose sessions all come unchanged from an older one holds exactly the older sessions its order lists. |
| Launcher.LaunchTimeout | src/debugger/ptvsd/launcher.ts:206 | The launch timeout when it is a number, the setting when it is absent or `null`, and 60000 when neither is set. |
| Launcher.LaunchMcdkPathSetting | src/debugger/ptvsd/launcher.ts:207 | The launch `mcdkPath` when it is a string, the setting when it is absent or `null`, and empty when neither is set. |
| Launcher.RemoveHead | src/debugger/ptvsd/launcher.ts:97 | Removing the first key of a duplicate-free order drops the head. |
| Launcher.StartOutcome | src/debugger/ptvsd/launcher.ts:216-303 | Starting a new instance never ends as "no workspace" or as a reattach. |
| Launcher.StartAttachesOnlyWhenReady | src/debugger/ptvsd/launcher.ts:216-303 | A launch attaches exactly when a port was allocated and the poll connected before cancellation. It then registers a pending session on that port, persists its record and returns its attach configuration. A cancelled or timed-out launch had a port. |
| Launcher.StartedTerminal | src/debugger/ptvsd/launcher.ts:248-253 | The MCDK terminal runs the tool in the workspace with the MCDK environment and is named after the new, unregistered port. |
| Launcher.StartAndAttach | src/debugger/ptvsd/launcher.ts:216-303 | Its outcome is `StartOutcome`. Only an attach leaves the session registered and the record saved; any other outcome leaves the registry and the store as they were. |
| Launcher.AwaitDebugger | src/debugger/ptvsd/launcher.ts:256-303 | After the poll, a cancel or a time-out unregisters the session. Otherwise the record is saved and the configuration generated. |
| Launcher.RollBack | src/debugger/ptvsd/launcher.ts:272-289 | Removing the just-created session restores the registry exactly. |
| Launcher.WithoutLast | src/debugger/ptvsd/launcher.ts:274 | Removing a key that was just appended gives the old order back. |
| Launcher.PtvsdLaunchReattachesFirst | src/debugger/ptvsd/launcher.ts:191-306 | A launch reattaches exactly when Minecraft runs and some endpoint answers, and then to a live endpoint. A fresh launch's terminal is "Minecraft Debug (Port: n)". |
| Launcher.LaunchPtvsdDebugSession | src/debugger/ptvsd/launcher.ts:191-306 | With no workspace nothing changes. Otherwise the outcome is `PtvsdLaunch` of the old state. The registry, key order and store are those `CheckedOrder`/`CheckedStore` leave after the reattach check. An attach adds its session, appends its port and saves its record; any other outcome adds and saves nothing. A failed launch leaves its port unregistered and unclaimed. |
| Launcher.ReattachOrStartSession | src/debugger/ptvsd/launcher.ts:210-303 | The outcome is `ReattachOrStart` of the old registry and store. The new registry and store are the checked ones, plus the session, its port and its saved record exactly when the launch attached. |
| Launcher.LaunchNewInstance | src/debugger/ptvsd/launcher.ts:313-424 | Starts from the global settings without a reattach check. The terminal is named "Sub" when Minecraft already runs. An attach adds its session, appends its port to the order and saves its record; any other outcome changes neither registry nor store. |
| Readiness.StartOf | src/debugger/ptvsd/launcher.ts:136-180 | Attempt `k` starts no earlier than `k` check intervals. |
| Readiness.PollFrom | src/debugger/ptvsd/launcher.ts:136-180 | A time-out ends at or after the timeout. A cancellation is seen before it. Ready means some attempt before the timeout connected without being cancelled. |
| Readiness.WaitForPort | src/utils/index.ts:80-102 | The poll loop returns true exactly when `Poll` ends ready, and reports when it ended. |
| Readiness.PollSkips | src/utils/index.ts:88-99 | The iterations that go on can be skipped. |
| Readiness.PollDecidedAt | src/utils/index.ts:88-101 | The first iteration that stops decides the poll. |
| Readiness.CancellationLatency | src/utils/index.ts:88-99 | A cancellation is noticed within one check interval plus one probe. |
| Readiness.LatencyFrom | src/utils/index.ts:88-99 | The same bound from any iteration that starts within it. |
| Readiness.CancelledBeforeStart | src/utils/index.ts:88-91 | A token cancelled before the first attempt ends the poll at once. |
| Utils.FirstFreeFrom | src/utils/index.ts:112-123 | The first candidate neither used by a session nor reported in use. None exactly when every candidate is taken. |
| Utils.FindAvailablePort | src/utils/index.ts:107-125 | Returns that first free port, or the error naming the first and last candidate. Ports used by sessions are never probed. |
| Utils.OtherBindErrorsCountAsFree | src/utils/index.ts:32-38 | Any bind error other than `EADDRINUSE` counts as free: when every earlier candidate is taken, the scan chooses that port. |
| Utils.IsPortInUse | src/utils/index.ts:32-38 | Only `EADDRINUSE` means in use. It has no contract of its own; `OtherBindErrorsCountAsFree` and `FirstFreeFrom` state what the scan makes of it. |
| Utils.IsMinecraftAddonWorkspace | src/utils/index.ts:130-196 | Decides `AddonWorkspace`: a `.mcdev.json`, a pack at the root, or a pack one or two levels down. |
| Utils.HasPackSubdirectory | src/utils/index.ts:130-196 | True exactly when some sub-directory of the directory is a pack. |
| Utils.Prune | src/utils/index.ts:130-196 | Cutting the tree keeps directories and their entry names. |
| Utils.PruneEntry | src/utils/index.ts:130-196 | An entry of a cut tree is the cut entry. |
| Utils.IsPackPruned | src/utils/index.ts:130-196 | Pack detection looks one level deep. |
| Utils.HasPackChildPruned | src/utils/index.ts:130-196 | Pack-child detection looks two levels deep. |
| Utils.AddonWorkspaceDepth | src/utils/index.ts:130-196 | The decision never looks deeper than three levels below the workspace. |
| InjectSessions.PortsOf | src/debugger/session.ts:20-26 | Exactly the ports of the registered sessions. |
| InjectSessions.InjectRegistry.constructor | src/debugger/session.ts:8 | An empty session table. |
| InjectSessions.InjectRegistry.GetUsedPorts | src/debugger/session.ts:20-26 | Returns `PortsOf` the sessions. |
| InjectSessions.InjectRegistry.CleanupAllSessions | src/debugger/session.ts:31-38 | Empties the table. |
| InjectSessions.InjectRegistry.Delete | src/debugger/session.ts:252 | Removes that pid from the table and the order. By `WithoutAt`, the other pids keep their order. |
| InjectSessions.InjectRegistry.Register | src/debugger/session.ts:273-278 | Adds the session under its pid, last in iteration order. |
| InjectSessions.SelectMinecraftProcess | src/debugger/session.ts:86-167 | Nothing on a listing error or an empty list. A single process is taken unless it is being debugged or elevation is declined. Among several, the picked one. |
| InjectSessions.SessionNameInjective | src/debugger/session.ts:217 | Session names tell their pids apart. |
| InjectSessions.SessionName | src/debugger/session.ts:217 | "Minecraft Debug (PID: n)". It has no contract of its own; `SessionNameInjective` and `SessionNameReadsBack` state its properties. |
| InjectSessions.SessionNameReadsBack | src/debugger/session.ts:217 | The pid parses back from between the name's prefix and its closing parenthesis. |
| InjectSessions.LaunchInt | src/debugger/session.ts:184-185 | A launch value that is a number wins. An absent or `null` one gives the setting. |
| InjectSessions.LaunchString | src/debugger/session.ts:186 | A launch value that is a string wins. An absent or `null` one gives the setting. |
| InjectSessions.AttachOnlyWhenReady | src/debugger/session.ts:192-278 | A successful attach is for a listed, undebugged process. It is on a port in range that no session uses and that is not in use, it connected before cancellation, and its session has the pid's name. |
| InjectSessions.AttachToProcess | src/debugger/session.ts:192-278 | The outcome is `AttachOutcome`. Only a success registers the process, under a pid not yet registered. |
| InjectSessions.GetMcdbgPath | src/debugger/session.ts:43-54 | `bin/mcdbg.exe` under the extension when unset. The configured path when absolute. Otherwise the configured path joined to the workspace. |
| InjectSessions.DapAttachConfigEndpoint | src/debugger/session.ts:302-313 | A `debugpy` `attach` configuration with the session's name, for localhost at the session's port. |
| InjectSessions.DapAttachConfig | src/debugger/session.ts:284-313 | The returned configuration. It has no contract of its own; the `DapAttachConfig*` lemmas state its endpoint, its defaults and the `dapConfig` members it passes on. |
| InjectSessions.DapAttachConfigOptions | src/debugger/session.ts:286-297 | `pathMappings` and `justMyCode` come from `dapConfig` unless absent or null. Then they default to the workspace mapped to itself and `false`. |
| InjectSessions.DapAttachConfigKeepsDapMembers | src/debugger/session.ts:300-313 | Every other `dapConfig` member is passed through, and nothing else is added. |
| InjectSessions.StartDebugSessionAndGetConfig | src/debugger/session.ts:172-317 | The result is `InjectLaunch` of the old table. A failure changes nothing. A success is the `InjectAttach` outcome: its session is added under its pid and the pid is appended to the order. |
| InjectSessions.InjectAttach | src/debugger/session.ts:184-245 | The attach a launch runs: the port, timeout and `mcdbg.exe` come from the launch configuration first and the settings second. It has no contract of its own; `AttachOnlyWhenReady` states the outcome. |
| DebugProviders.ResolveDebugConfiguration | src/debugger/provider.ts:11-36 | An empty configuration becomes the provider's own non-empty default. Any other configuration is returned unchanged. |
| DebugProviders.DefaultConfigIsOwnLaunch | src/debugger/mcdbgProvider.ts:19-29 | Each default is a `launch` of the provider's own type. |
| DebugProviders.ResolveDebugConfigurationIdempotent | src/debugger/provider.ts:11-36 | Resolving twice is resolving once. |
| DebugProviders.InjectDefaults | src/debugger/mcdbgProvider.ts:19-29 | The injecting defaults turn `justMyCode` off. Only the inject default names port 5678. |
| DebugProviders.AfterLaunch | src/debugger/mcdbgProvider.ts:56-60 | A failed launch aborts silently (`null`). Otherwise its configuration is used. |
| DebugProviders.ResolveInjectWithSubstitutedVariables | src/debugger/provider.ts:38-58 | A foreign type passes unchanged and leaves the table and order alone. Our type resolves to `AfterLaunch` of the attach. On abort nothing changes. On success the attached session is added and its pid appended. |
| Extension.FirstNamed | src/extension.ts:66-79 | The first session in iteration order with that name. None exactly when no session has it. |
| Extension.OnDidTerminateDebugSession | src/extension.ts:66-79 | Removes exactly the first session named like the ended debug session, from the table and the order; the other pids keep their order. |
| Extension.TerminateFindsByPid | src/extension.ts:66-79 | Ending "Minecraft Debug (PID: n)" removes pid `n`'s session, if any. |
| Extension.ModPcAttachConfigEndpoint | src/extension.ts:455-470 | A `debugpy` `attach` configuration with the session's name, for localhost at its port, with `justMyCode` off. |
| Extension.ModPcAttachConfig | src/extension.ts:455-470 | The fixed attach configuration. It has no contract of its own; `ModPcAttachConfigEndpoint` states it. |
| Extension.ModPcLaunch | src/extension.ts:344-474 | Succeeds exactly when there is a workspace and the attach succeeds. |
| Extension.StartModPcDebugSession | src/extension.ts:344-474 | The result is `ModPcLaunch` of the old table. No workspace fails. Otherwise the attach outcome with the launch configuration's or global port, timeout and `mcdbg` path. A failure changes nothing. A success adds the session, appends its pid and returns its configuration. |
| Extension.ResolveModPcWithSubstitutedVariables | src/extension.ts:114-135 | A foreign type passes unchanged. Our type resolves to `AfterLaunch` of `ModPcLaunch`: on success to the attached session's configuration, with that session added and its pid appended; on abort nothing changes. |
| Extension.StartDebugCommand | src/extension.ts:321-339 | Debugging starts exactly when a workspace is open. |
| Extension.StartDebugCommandResolves | src/extension.ts:321-339 | The command's configuration is a non-empty `minecraft-modpc` one that carries the global port, timeout and path. |
| ModDirs.ParseModDir | webview/src/App.tsx:81-85 | A string is a hot-reloading path. In an object, only `hot_reload: false` turns hot reload off, and an empty path becomes `./`. Anything else is the default row. |
| ModDirs.ParseModDirs | webview/src/App.tsx:79-86 | A non-array gives the default row. An array gives one row per item. |
| ModDirs.EncodeModDirs | webview/src/App.tsx:88-98 | One stored item per row. |
| ModDirs.EncodedPlainIffAllHot | webview/src/App.tsx:89-92 | The stored list is plain strings exactly when every row hot-reloads. |
| ModDirs.ParseEncodeModDirs | webview/src/App.tsx:79-98 | Rows with non-empty paths are stored and read back unchanged. |
| ModDirs.EmptyPathComesBackAsRoot | webview/src/App.tsx:79-84 | A row with an empty path comes back as `./` when the rows are stored as objects, and as itself when every row hot-reloads and they are stored as plain strings. |
| ModDirs.ParseModDirsNormalises | webview/src/App.tsx:79-98 | Whatever was read, storing it and reading again gives the same rows. |
| ModDirs.RemoveDir | webview/src/components/ModDirectories.tsx:18-21 | Drops exactly row `index`, keeping the others in order. |
| ModDirs.WithPath | webview/src/components/ModDirectories.tsx:23-28 | Row `index` gets the path. Everything else is unchanged. |
| ModDirs.WithToggled | webview/src/components/ModDirectories.tsx:30-35 | Row `index` flips hot reload. Everything else is unchanged. |
| ModDirs.ToggleTwice | webview/src/components/ModDirectories.tsx:30-35 | Toggling twice restores the rows. |
| ModDirs.CopyDirs | webview/src/components/ModDirectories.tsx:24 | `[...modDirs]`: a fresh array with the same rows. |
| ModDirs.UpdatePath | webview/src/components/ModDirectories.tsx:23-28 | The copy-and-assign update computes `WithPath`. |
| ModDirs.ToggleHotReload | webview/src/components/ModDirectories.tsx:30-35 | The copy-and-assign update computes `WithToggled`. |
| ModDirs.FolderSelected | webview/src/App.tsx:126-140 | `-1` appends a hot-reloading row. An index in range sets that row's path. Anything else changes nothing. |
| ModDirs.AddedFolderKeepsPlainList | webview/src/App.tsx:126-140 | Adding a folder to an all-hot list appends its path to the stored plain list. |
| KeyNames.KeyTable | webview/src/App.tsx:198-203 | Named keys have non-empty labels. |
| KeyNames.NameOf | webview/src/App.tsx:203-206 | Every parsed code has a non-empty label. |
| KeyNames.GetKeyName | webview/src/App.tsx:195-207 | The label is empty exactly for a missing or empty binding. |
| KeyNames.CapturedKeyName | src/sidebar/script.ts:411-429 | A captured code is labelled with its table name, its letter or digit, or `Key` and the code. |
| WebviewApp.CollectData | webview/src/App.tsx:88-98 | The edited object, with only `included_mod_dirs` replaced by the stored rows. |
| WebviewApp.LoadThenCollect | webview/src/App.tsx:73-98 | Saving right after loading keeps every other member. The mod directories read back as loaded. |
| WebviewApp.WithKeyBinding | webview/src/App.tsx:142-149 | Binds the key inside `debug_options`, keeping its other bindings and every other member. |
| WebviewApp.App.constructor | webview/src/App.tsx:17-24 | An empty object, the default row, nothing unsaved, no key capture. |
| WebviewApp.App.LoadData | webview/src/App.tsx:73-77 | Stores the object and its parsed rows. |
| WebviewApp.App.OnInit | webview/src/App.tsx:35-50 | Loads the file unless it is due for its first save. Either way nothing is unsaved. |
| WebviewApp.App.OnSaved | webview/src/App.tsx:51-54 | Clears the unsaved flag only. |
| WebviewApp.App.OnFolderSelected | webview/src/App.tsx:126-140 | Rows become `FolderSelected` and the change is marked. |
| WebviewApp.App.OnRemoveDir | webview/src/components/ModDirectories.tsx:18-21 | Rows become `RemoveDir` and the change is marked. |
| WebviewApp.App.OnUpdatePath | webview/src/components/ModDirectories.tsx:23-28 | Rows become `WithPath` and the change is marked. |
| WebviewApp.App.OnToggleHotReload | webview/src/components/ModDirectories.tsx:30-35 | Rows become `WithToggled` and the change is marked. |
| WebviewApp.App.ListenFor | webview/src/components/DebugKeybindings.tsx:56 | Starts capturing a key for that binding. |
| WebviewApp.App.HandleKeyCapture | webview/src/App.tsx:142-152 | Binds the key, stops capturing and marks the change. |
| WebviewApp.App.HandleKeyDown | webview/src/App.tsx:171-193 | The save chord posts the collected object only with unsaved changes. ESC cancels a capture. Any other key is bound as `String(keyCode)`. Rows never change. |
| WindowStyleFields.Clamp | webview/src/components/WindowStyle.tsx:77 | Clamps a component into 0..255. |
| WindowStyleFields.HexDigits | webview/src/components/WindowStyle.tsx:77 | Two digits per component. |
| WindowStyleFields.EncodeColor | webview/src/components/WindowStyle.tsx:76-78 | `#` and two digits per component. `#000000` without a colour. |
| WindowStyleFields.Slice | webview/src/components/WindowStyle.tsx:81-83 | `String.prototype.slice`, clipped to the string. |
| WindowStyleFields.DecodeColor | webview/src/components/WindowStyle.tsx:79-85 | Three components are read. |
| WindowStyleFields.HexDigitsAt | webview/src/components/WindowStyle.tsx:77 | Component `i` sits at digits `2i`, `2i+1`. |
| WindowStyleFields.EncodedComponent | webview/src/components/WindowStyle.tsx:76-83 | Each picker slice parses back as the clamped component. |
| WindowStyleFields.ColorRoundTrip | webview/src/components/WindowStyle.tsx:76-85 | The picker round trip gives the clamped colour, and so the same colour when it is in range. |
| WindowStyleFields.EncodedDigitsLowerHex | webview/src/components/WindowStyle.tsx:77 | The picker value has only lower-case hex digits. |
| WindowStyleFields.IndexOf | webview/src/components/WindowStyle.tsx:58 | The first occurrence of the separator. |
| WindowStyleFields.Split | webview/src/components/WindowStyle.tsx:58 | At least one piece, and no piece holds the separator. |
| WindowStyleFields.IndexOfAfterPiece | webview/src/components/WindowStyle.tsx:58 | After a separator-free piece, the separator comes next. |
| WindowStyleFields.SplitJoin | webview/src/components/WindowStyle.tsx:55-58 | Splitting what `join(',')` made gives the pieces back. |
| WindowStyleFields.Numbers | webview/src/components/WindowStyle.tsx:58 | Keeps at most one number per piece. |
| WindowStyleFields.ParseNumberList | webview/src/components/WindowStyle.tsx:56-59 | Blank text gives `null`. Otherwise at most one number per piece. |
| WindowStyleFields.Strings | webview/src/components/WindowStyle.tsx:55 | `String(n)` for each number. |
| WindowStyleFields.IntToStringPlain | webview/src/components/WindowStyle.tsx:55-58 | `String(n)` has no comma and no surrounding space. |
| WindowStyleFields.TrimIntToString | webview/src/components/WindowStyle.tsx:58 | Trimming `String(n)` changes nothing. |
| WindowStyleFields.JoinEnds | webview/src/components/WindowStyle.tsx:55 | A join starts and ends with its outer pieces' characters. |
| WindowStyleFields.NumbersOfShown | webview/src/components/WindowStyle.tsx:55-58 | Reading shown numbers gives them back. |
| WindowStyleFields.JoinUnpadded | webview/src/components/WindowStyle.tsx:55-57 | Joining unpadded pieces needs no trimming. |
| WindowStyleFields.ShownListPlain | webview/src/components/WindowStyle.tsx:55-57 | A shown list needs no trimming and no piece holds a comma. |
| WindowStyleFields.NumberListRoundTrip | webview/src/components/WindowStyle.tsx:55-59 | A shown list of numbers reads back unchanged. An empty list reads back as `null`. |
| WindowStyleFields.LockCorner | webview/src/components/WindowStyle.tsx:124-134 | The empty option is `null`. Otherwise a corner 1..4 whose text is the option. |
| WindowStyleFields.LockCornerRoundTrip | webview/src/components/WindowStyle.tsx:124-128 | Showing the stored corner selects the chosen option again. |
| DefaultValues.Missing | webview/src/hooks/useDefaultValues.ts:25-31 | The calls are exactly the defaults whose key the object lacks, taken from the defaults. |
| DefaultValues.Apply | webview/src/hooks/useDefaultValues.ts:26-30 | Applying the calls adds exactly their keys. |
| DefaultValues.PresentMembersKept | webview/src/hooks/useDefaultValues.ts:27 | A member that is present, whatever its value, is never overwritten. |
| DefaultValues.AbsentObjectTakesAllDefaults | webview/src/hooks/useDefaultValues.ts:62 | With no nested object, every default is applied, in order. |
| DefaultValues.DefaultsFilledOnce | webview/src/hooks/useDefaultValues.ts:25-31 | After the calls are applied, nothing is missing any more. |
| DefaultValues.NothingMissing | webview/src/hooks/useDefaultValues.ts:25-31 | Nothing is filled in when every key is present. |
| DefaultValues.DefaultsHook.constructor | webview/src/hooks/useDefaultValues.ts:54 | The ref starts unset. |
| DefaultValues.DefaultsHook.UseNestedDefaultValues | webview/src/hooks/useDefaultValues.ts:56-71 | The first run makes the `Missing` calls and marks a change exactly when it made one and a marker is given. Later runs do nothing. |
| DefaultValues.DefaultsHook.UseDefaultValues | webview/src/hooks/useDefaultValues.ts:21-36 | The same for a settings object that is always there. |
| DefaultValues.RunsOncePerMount | webview/src/hooks/useDefaultValues.ts:19-23 | For any hook and any arguments, a render after the first one reports no change and does not mark the page, even when given other data and defaults. A first render on a fresh hook reports exactly the missing defaults. |
| JsonValues.Get | src/sidebar/script.ts:174 | Present exactly for a member of the object. |
| JsonValues.Coalesce | src/sidebar/script.ts:174 | `??`: the default exactly for `undefined` or `null`. |
| JsonValues.Spread | src/sidebar/script.ts:253 | `{...v}` on an object gives its members. For `undefined`, `null` and the other JSON values it gives none, which leaves out the index-keyed members JavaScript makes from a string or an array. |
| Text.Trim | src/sidebar/script.ts:220 | Empty exactly for all-space text. Otherwise it starts and ends with non-space. |
| Text.TrimIdempotent | src/sidebar/script.ts:220 | Trimming twice is trimming once. |
| Text.ParseIntOfIntToString | src/sidebar/script.ts:411-418 | `parseInt(String(n))` gives `n` back. |
| Text.IntToStringInjective | src/sidebar/script.ts:411 | Different key codes are stored differently. |
| Text.ParseHex2 | webview/src/components/WindowStyle.tsx:77-83 | A two-digit padded hex component parses back. |
| SidebarEditor.RunStage | src/sidebar/script.ts:172-208 | One field loop: computes the left fold `ApplyAll` of the loop body over the field ids. |
| SidebarEditor.ApplyEditAt | src/sidebar/script.ts:172-269 | One loop step changes only its own member, as its edit says. |
| SidebarEditor.ApplyAllElsewhere | src/sidebar/script.ts:172-269 | A loop leaves members outside its fields alone. |
| SidebarEditor.ApplyAllAt | src/sidebar/script.ts:172-269 | With distinct keys, each field's member is what its own step made of it. |
| SidebarEditor.FieldListsDisjoint | src/sidebar/script.ts:27-32 | The text, select and checkbox lists are disjoint and name none of the nested members. |
| SidebarEditor.ExperimentKeys | src/sidebar/script.ts:261-268 | Experiment ids map to distinct option keys. |
| SidebarEditor.ExpPrefixes | src/sidebar/script.ts:31 | Every experiment id starts with `exp_`. |
| SidebarEditor.CollectedOutside | src/sidebar/script.ts:240-269 | The members written after the field loops leave the others as the loops made them. |
| SidebarEditor.Collected | src/sidebar/script.ts:213-272 | What a save collects. It has no contract of its own; the `Collected*` lemmas and `LoadThenCollect*` state its members. |
| SidebarEditor.CollectedFieldsText | src/sidebar/script.ts:217-238 | A text member after all field loops is what the text loop made of it. |
| SidebarEditor.CollectedFieldsPlainText | src/sidebar/script.ts:217-227 | A text box saves its trimmed text, and an empty one deletes the member. |
| SidebarEditor.PlainTextEdit | src/sidebar/script.ts:220-226 | The same for one step. |
| SidebarEditor.CollectedFieldsSeed | src/sidebar/script.ts:221-222 | The seed saves its number, or `null` when blank or not a number. |
| SidebarEditor.CollectedTextField | src/sidebar/script.ts:213-272 | In the saved object, a text field is its trimmed text or absent. |
| SidebarEditor.CollectedSeed | src/sidebar/script.ts:213-272 | In the saved object, the seed is a number or `null`. |
| SidebarEditor.ExperimentOption | src/sidebar/script.ts:261-269 | Each present experiment box saves its state under its key without `exp_`. |
| SidebarEditor.ExperimentOptionEdit | src/sidebar/script.ts:262-268 | The saved experiment option is what its own step made. |
| SidebarEditor.ExperimentOptionIs | src/sidebar/script.ts:264-267 | A step saves the box's state when the box exists. |
| SidebarEditor.CollectedExperiments | src/sidebar/script.ts:213-272 | `experiment_options` is an object holding each present box's state. |
| SidebarEditor.CollectedModDirs | src/sidebar/script.ts:241-246 | `included_mod_dirs` is the stored form of the rows. |
| SidebarEditor.LoadedCheckbox | src/sidebar/script.ts:183-192 | A box shows its default when the member is missing, else its truthiness. |
| SidebarEditor.LoadedReloadKeyGlobal | src/sidebar/script.ts:187-188 | The global-reload box shows `debug_options.reload_key_global`. |
| SidebarEditor.LoadedExperiment | src/sidebar/script.ts:195-202 | An experiment box shows its option. It is unticked without `experiment_options`. |
| SidebarEditor.LoadedText | src/sidebar/script.ts:172-175 | A text box shows the member or blank, and blank for a `null` seed. |
| SidebarEditor.LoadedAt | src/sidebar/script.ts:167-202 | Each field's element after loading is what its own loop step made. |
| SidebarEditor.Loaded | src/sidebar/script.ts:167-202 | The page after a load. It has no contract of its own; the `Loaded*` lemmas state its elements. |
| SidebarEditor.RealKey | src/sidebar/script.ts:199 | Strips a leading `exp_`: prefixing it again gives the id back; other ids are kept. |
| SidebarEditor.FieldText | src/sidebar/script.ts:174 | The text a value shows as in a text box. It has no contract of its own; `LoadedText` states what a text box shows. |
| SidebarEditor.LoadThenCollectText | src/sidebar/script.ts:167-272 | An untouched trimmed text member survives a load and a save. |
| SidebarEditor.LoadThenCollectModDirs | src/sidebar/script.ts:167-272 | Mod directories survive a load and a save. |
| SidebarEditor.ReplaceAllAppend | src/sidebar/script.ts:441 | Replacing all occurrences distributes over concatenation. |
| SidebarEditor.ReplaceAllAbsent | src/sidebar/script.ts:441 | Replacing an absent character changes nothing. |
| SidebarEditor.EscapeHtmlIsEscapeEach | src/sidebar/script.ts:440-442 | The four chained replacements escape each character on its own. |
| SidebarEditor.EscapeHtml | src/sidebar/script.ts:440-442 | The four chained replacements. It has no contract of its own; `EscapedHasNoMarkup` and `UnescapeEscapeHtml` state its properties. |
| SidebarEditor.EscapedHasNoMarkup | src/sidebar/script.ts:440-442 | Escaped text holds no `<`, `>` or `"`. |
| SidebarEditor.EscapeEachHasNoMarkup | src/sidebar/script.ts:440-442 | The same for the per-character form. |
| SidebarEditor.UnescapeEscapeHtml | src/sidebar/script.ts:440-442 | Escaping loses nothing: the escaped text reads back as the original. |
| SidebarEditor.UnescapeEscapeEach | src/sidebar/script.ts:440-442 | The same for the per-character form. |
| SidebarEditor.UnescapeStep | src/sidebar/script.ts:440-442 | Unescaping reads one escaped character at a time. |
| SidebarEditor.McdevEditor.constructor | src/sidebar/script.ts:7-14 | Empty state and no capture, over the given page. |
| SidebarEditor.McdevEditor.MarkAsChanged | src/sidebar/script.ts:148-153 | Sets the unsaved flag only. |
| SidebarEditor.McdevEditor.EditField | src/sidebar/script.ts:88-146 | The page becomes `Edited`: the element holds the new value, and ticking auto hot-reload also ticks the debug-mod box. The unsaved flag is set exactly when the element is a watched field. Nothing else changes. |
| SidebarEditor.Edited | src/sidebar/script.ts:88-97 | After an edit, the edited element holds the value and no element disappears. Every other element keeps its value, except that the debug-mod box is ticked exactly when auto hot-reload was ticked. |
| SidebarEditor.CollectedCheckbox | src/sidebar/script.ts:233-237 | A checkbox other than the global-reload one is saved as whether it is ticked. |
| SidebarEditor.AutoHotReloadSavesDebugMod | src/sidebar/script.ts:88-97 | After the user ticks auto hot-reload, the next save stores both `auto_hot_reload_mods` and `include_debug_mod` as `true`, whatever the debug-mod box showed before. |
| SidebarEditor.EditedTextCollected | src/sidebar/script.ts:125-146 | Text typed into a text field other than the seed is what the next save stores there, trimmed, or nothing when blank. |
| SidebarEditor.McdevEditor.LoadData | src/sidebar/script.ts:167-211 | Stores the object and its rows. The page becomes `Loaded`, and the bindings are read from `debug_options`. |
| SidebarEditor.McdevEditor.CollectData | src/sidebar/script.ts:213-272 | Returns `Collected` of the state and the page. |
| SidebarEditor.McdevEditor.OnInit | src/sidebar/script.ts:104-112 | Loads the file, clears the unsaved flag and schedules a save exactly when an initial save is needed. |
| SidebarEditor.McdevEditor.OnSaved | src/sidebar/script.ts:113-117 | Clears the unsaved flag only. |
| SidebarEditor.McdevEditor.HandleFolderSelected | src/sidebar/script.ts:339-347 | Rows become `FolderSelected` and the change is marked. |
| SidebarEditor.McdevEditor.OnRowPath | src/sidebar/script.ts:320-323 | The row's path is set and the change is marked. |
| SidebarEditor.McdevEditor.OnRowHotReload | src/sidebar/script.ts:325-328 | The row's hot reload is set and the change is marked. |
| SidebarEditor.McdevEditor.OnRowDelete | src/sidebar/script.ts:329-333 | The row is removed and the change is marked. |
| SidebarEditor.McdevEditor.StartKeyListen | src/sidebar/script.ts:373-382 | Starts capturing for that binding. |
| SidebarEditor.McdevEditor.HandleGlobalKeydown | src/sidebar/script.ts:393-414 | The save chord always posts the collected object. ESC cancels a capture. Any other key binds `String(keyCode)` and marks the change. |

## Left out

- The `mcdbg` and MCDK child processes are not modelled: their output channels, exit handlers and `kill()` calls. `AttachOutcome` leaves out the exit handler's late removal from the session table.
- Sockets are oracles: `isPortInUse`, `checkPort`, `isDebugPortActive`, `getRandomAvailablePort` and `isPortAvailable`.
- The `mcdbg --list` output parsing (`listMinecraftProcesses`) is an oracle returning the process list or an error. `isMinecraftRunning` (src/debugger/ptvsd/processDetector.ts) is a boolean of the launch world.
- `generateSessionId` and `getNonce` use randomness: the session id is a parameter, and the nonce is not modelled.
- Clocks are parameters. The poll's timing, `Date.now()` and the `sleep` between attempts are the `PollEnv` of each run.
- VS Code UI is not modelled: notifications, progress, status line, terminal `show`/`dispose`, the webview HTML, the sidebar provider (html.ts, provider.ts, style.ts), i18n and the language setting.
- `deactivate` and the provider registrations in `activate` are not modelled: they only wire the modelled handlers into VS Code.
- The webview's auto-save timer and `markInitialized` are left out. The sidebar's `setTimeout(save, 100)` is the `saveDue` result of `OnInit`.
- The key-binding clear button (script.ts:362-367) and `updateKeyBindDisplay` rendering are left out.
- Symbolic links and file-system errors in `isMinecraftAddonWorkspace` are left out. A directory that cannot be listed is `listable == false`.
- JavaScript `Number()` is an oracle `toNumber` that returns None for `NaN`. `NaN` in a number list is dropped, and a `NaN` seed is saved as `null`.
- Floating-point numbers are not modelled: JSON numbers are integers.
- ModDirs.UpdatePath: `[...modDirs]` copies the array but shares the row objects, so the source also mutates the previous state's row. The model works on values and does not capture that aliasing.
- SidebarEditor.RealKey: only a leading `exp_` is stripped. That is what `replace('exp_', '')` does on the three fixed ids.
- SidebarEditor.FieldText: arrays and objects show as the empty string, not their JavaScript `String()`.
- WindowStyleFields.LockCorner: the select offers only its five fixed options, so other values are not modelled.
- ModDirs.ParseModDir: a row object whose `path` is a truthy non-string is read as `./`, where JavaScript would keep that value.
- The `enabled` switch of the ptvsd settings is read but never used by the launcher. The model reads it too.
- SessionManager.GenerateDebugConfiguration is stated through the lemmas `GeneratedConfig*` rather than an ensures of its own.
- KeyNames.KeyTable: that different codes get different labels is not proved.
- InjectSessions.LaunchInt: a launch value of another JSON type than a number is read as unset and the setting applies. JavaScript's `??` would keep that value whatever its type. The model's ports and timeouts are integers.
- InjectSessions.LaunchString: a launch value of another JSON type than a string is read as unset, where `??` would keep it.
- Launcher.LaunchTimeout: a non-number `timeout` in the launch configuration is read as unset, where `??` would keep it.
- Launcher.LaunchMcdkPathSetting: a non-string `mcdkPath` in the launch configuration is read as unset, where `??` would keep it.
- SessionManager.GetDebugConfigFromSettings: a launch value of the wrong JSON type is read as unset and the setting applies, where `??` would keep it.
- SessionManager.MappingItems: the model reads `dapConfig.pathMappings` into typed mappings. The whole list becomes absent when one item lacks a string `localRoot` or `remoteRoot`. The source passes the array on as it is.
- JsonValues.Spread: spreading a string or an array gives no members. JavaScript gives one member per index. This matters only when `debug_options` or `dapConfig` holds a string or an array.
- Storage.SessionStore.GetLastSession: `getLastSession` sorts the list it got from the memento in place, which may reorder that array for later saves. The model returns the most recent record and leaves the stored list as it was.
