/** The ptvsd debug-session registry: sessions keyed by debug port, a second index from session
    id to port, and the VS Code attach configuration generated for a session. */
module SessionManager {
  import opened Wrappers
  import opened JsonValues
  import opened Text
  import opened PortAllocator

  datatype Status = Pending | Connected | Disconnected | Error

  datatype PathMapping = PathMapping(localRoot: string, remoteRoot: string)

  /** A debug session. `createdAt` is milliseconds since the epoch. */
  datatype Session = Session(
    id: string,
    pid: int,
    debugIp: string,
    debugPort: int,
    status: Status,
    createdAt: int,
    pathMappings: seq<PathMapping>,
    vscodeSessionId: Option<string>,
    workspacePath: string)

  /** The four variable-filter switches passed to ptvsd; an absent switch is off. */
  datatype DebugOptions = DebugOptions(
    showPrivateMembers: bool,
    showSpecialMembers: bool,
    showFunctionMembers: bool,
    showBuiltinMembers: bool)

  /** The effective ptvsd settings of one launch. */
  datatype PtvsdConfig = PtvsdConfig(
    enabled: bool,
    ip: string,
    preferredPort: int,
    justMyCode: bool,
    additionalPathMappings: Option<seq<PathMapping>>,
    debugOptions: DebugOptions)

  datatype CreateError =
    | AllocationFailed(cause: AllocError)
    | PortHasSession(port: int)

  /** The session `createSession` registers for `port`. */
  function NewSession(id: string, port: int, config: PtvsdConfig, workspacePath: string,
                      createdAt: int): Session
  {
    Session(id, port, config.ip, port, Pending, createdAt,
            [PathMapping(workspacePath, workspacePath)] + config.additionalPathMappings.GetOr([]),
            None, workspacePath)
  }

  /** `Array.from(map.values())`: the values of `m` in the key order `order`. */
  function ValuesInOrder(m: map<int, Session>, order: seq<int>): (r: seq<Session>)
    requires forall i | 0 <= i < |order| :: order[i] in m
    ensures |r| == |order|
    ensures forall i | 0 <= i < |order| :: r[i] == m[order[i]]
  {
    if order == [] then [] else ValuesInOrder(m, order[..|order| - 1]) + [m[order[|order| - 1]]]
  }

  predicate NoDuplicates(s: seq<int>) {
    forall i, j | 0 <= i < j < |s| :: s[i] != s[j]
  }

  /** `s` with every occurrence of `x` removed, order kept. */
  function Without(s: seq<int>, x: int): (r: seq<int>)
    ensures forall y :: y in r <==> y in s && y != x
    ensures forall i | 0 <= i < |r| :: r[i] in s && r[i] != x
    ensures NoDuplicates(s) ==> NoDuplicates(r)
    ensures x !in s ==> r == s
  {
    if s == [] then []
    else if s[0] == x then Without(s[1..], x)
    else
      var rest := Without(s[1..], x);
      if NoDuplicates(s) then
        assert s[0] !in s[1..] by {
          forall j | 0 <= j < |s[1..]| ensures s[1..][j] != s[0] {
            assert s[1..][j] == s[j + 1];
          }
        }
        PrependDistinct(s[0], rest);
        [s[0]] + rest
      else
        [s[0]] + rest
  }

  /** Deleting a key works position by position: the other keys keep their relative order. */
  lemma {:induction false} WithoutAppend(a: seq<int>, b: seq<int>, x: int)
    ensures Without(a + b, x) == Without(a, x) + Without(b, x)
  {
    if a == [] {
      assert a + b == b;
    } else {
      assert (a + b)[0] == a[0];
      assert (a + b)[1..] == a[1..] + b;
      WithoutAppend(a[1..], b, x);
    }
  }

  /** In a list without duplicates, deleting the key at position `k` closes the gap and keeps
      every other key where it was relative to the rest. */
  lemma {:induction false} WithoutAt(s: seq<int>, k: int)
    requires NoDuplicates(s) && 0 <= k < |s|
    ensures Without(s, s[k]) == s[..k] + s[k + 1..]
  {
    OnlyAt(s, k);
    if k == 0 {
      assert s[..0] + s[1..] == s[1..];
    } else {
      var x, t := s[k], s[1..];
      assert NoDuplicates(t) && t[k - 1] == x by {
        forall i, j | 0 <= i < j < |t| ensures t[i] != t[j] {
          assert t[i] == s[i + 1] && t[j] == s[j + 1];
        }
      }
      WithoutAt(t, k - 1);
      assert s[0] != x by { assert s[0] in s[..k]; }
      WithoutCons(s, x);
      ConsSlices(s, k);
    }
  }

  /** Putting the head back in front of the tail with position `k - 1` cut out gives the list
      with position `k` cut out. */
  lemma ConsSlices(s: seq<int>, k: int)
    requires 0 < k < |s|
    ensures [s[0]] + (s[1..][..k - 1] + s[1..][k..]) == s[..k] + s[k + 1..]
  {
    assert s[1..][..k - 1] == s[1..k];
    assert s[1..][k..] == s[k + 1..];
    assert [s[0]] + s[1..k] == s[..k];
  }

  /** Deleting a key other than the head keeps the head in front. */
  lemma WithoutCons(s: seq<int>, x: int)
    requires s != [] && s[0] != x
    ensures Without(s, x) == [s[0]] + Without(s[1..], x)
  {
  }

  /** In a list without duplicates, the key at position `k` occurs neither before nor after it. */
  lemma OnlyAt(s: seq<int>, k: int)
    requires NoDuplicates(s) && 0 <= k < |s|
    ensures s[k] !in s[..k] && s[k] !in s[k + 1..]
  {
    var a, b := s[..k], s[k + 1..];
    assert forall j | 0 <= j < |a| :: a[j] == s[j];
    assert forall j | 0 <= j < |b| :: b[j] == s[k + 1 + j];
  }

  lemma PrependDistinct(x: int, s: seq<int>)
    requires NoDuplicates(s) && x !in s
    ensures NoDuplicates([x] + s)
  {
    forall i, j | 0 <= i < j < |[x] + s| ensures ([x] + s)[i] != ([x] + s)[j] {
      if i > 0 {
        assert ([x] + s)[i] == s[i - 1];
      }
      assert ([x] + s)[j] == s[j - 1];
    }
  }

  /** Both indexes describe the same sessions, each session sits under its own debug port
      (which is also its pid), and the claimed ports are exactly the ports of registered
      sessions. */
  ghost predicate Consistent(sessions: map<int, Session>, order: seq<int>,
                             idToPort: map<string, int>, claimed: set<int>)
  {
    && (forall p | p in sessions :: sessions[p].debugPort == p && sessions[p].pid == p)
    && (forall p | p in sessions :: sessions[p].id in idToPort && idToPort[sessions[p].id] == p)
    && (forall id | id in idToPort :: idToPort[id] in sessions && sessions[idToPort[id]].id == id)
    && NoDuplicates(order)
    && (forall i | 0 <= i < |order| :: order[i] in sessions)
    && (forall p | p in sessions :: p in order)
    && claimed == sessions.Keys
  }

  /** Registering a session under a new port and a new id keeps the registry consistent. */
  lemma ConsistentAdd(sessions: map<int, Session>, order: seq<int>, idToPort: map<string, int>,
                      s: Session)
    requires Consistent(sessions, order, idToPort, sessions.Keys)
    requires s.debugPort == s.pid && s.debugPort !in sessions && s.id !in idToPort
    ensures Consistent(sessions[s.debugPort := s], order + [s.debugPort], idToPort[s.id := s.debugPort],
                       sessions.Keys + {s.debugPort})
  {
    var p := s.debugPort;
    var order' := order + [p];
    forall i, j | 0 <= i < j < |order'| ensures order'[i] != order'[j] {
      if j < |order| {
        assert order'[i] == order[i] && order'[j] == order[j];
      } else {
        assert order'[i] == order[i] && order[i] in sessions;
      }
    }
  }

  class Registry {
    /** `activeSessions`: port -> session. */
    var sessions: map<int, Session>
    /** The insertion order of the keys of `activeSessions`, which JavaScript maps iterate in. */
    var order: seq<int>
    /** `sessionIdToPort` */
    var idToPort: map<string, int>
    /** The port allocator whose claims the registry owns. */
    const allocator: Allocator

    /** The registry is consistent, with the allocator's claims as its claimed ports. */
    ghost predicate Valid()
      reads this, allocator
    {
      Consistent(sessions, order, idToPort, allocator.allocatedPorts)
    }

    constructor ()
      ensures Valid() && fresh(allocator)
      ensures sessions == map[] && order == [] && idToPort == map[]
    {
      sessions := map[];
      order := [];
      idToPort := map[];
      allocator := new Allocator();
    }

    /** `createSession(workspacePath, config)`. The random session id is supplied as `freshId`;
        `createdAt` is the clock reading. */
    method CreateSession(workspacePath: string, config: PtvsdConfig, portAvailable: int -> bool,
                         ephemeralPort: Option<int>, freshId: string, createdAt: int)
      returns (r: Result<Session, CreateError>)
      requires Valid() && freshId !in idToPort
      modifies this, allocator
      ensures Valid()
      ensures var a := Allocate(old(allocator.allocatedPorts), Some(config.preferredPort),
                                portAvailable, ephemeralPort);
              && (a.Failure? ==> r == Failure(AllocationFailed(a.error)))
              && (a.Success? && a.value.port in old(sessions) ==> r == Failure(PortHasSession(a.value.port)))
              && (a.Success? && a.value.port !in old(sessions) ==>
                    r == Success(NewSession(freshId, a.value.port, config, workspacePath, createdAt)))
      ensures r.Failure? ==> sessions == old(sessions) && order == old(order)
                             && idToPort == old(idToPort)
      ensures r.Success? ==> && sessions == old(sessions)[r.value.debugPort := r.value]
                             && order == old(order) + [r.value.debugPort]
                             && idToPort == old(idToPort)[freshId := r.value.debugPort]
    {
      var a := allocator.AllocatePort(Some(config.preferredPort), portAvailable, ephemeralPort);
      if a.Failure? {
        return Failure(AllocationFailed(a.error));
      }
      var port := a.value.port;
      if port in sessions {
        // The port stays claimed: it already belongs to the session registered under it.
        return Failure(PortHasSession(port));
      }
      var session := NewSession(freshId, port, config, workspacePath, createdAt);
      ConsistentAdd(sessions, order, idToPort, session);
      sessions := sessions[port := session];
      order := order + [port];
      idToPort := idToPort[freshId := port];
      r := Success(session);
    }

    /** `getSessionByPort(port)` */
    function SessionByPort(port: int): (r: Option<Session>)
      reads this
      ensures r.Some? <==> port in sessions
      ensures r.Some? ==> r.value == sessions[port]
    {
      if port in sessions then Some(sessions[port]) else None
    }

    /** `getSessionById(id)` */
    function SessionById(id: string): (r: Option<Session>)
      reads this, allocator
      requires Valid()
      ensures r.Some? ==> r.value.id == id && r.value in sessions.Values
      ensures (exists p | p in sessions :: sessions[p].id == id) ==> r.Some?
    {
      if id !in idToPort then None else SessionByPort(idToPort[id])
    }

    /** The two lookups agree on every registered session. */
    lemma LookupsAgree(port: int)
      requires Valid() && port in sessions
      ensures SessionById(sessions[port].id) == SessionByPort(port) == Some(sessions[port])
    {
    }

    /** `updateSessionStatus(port, status, vscodeSessionId)`: false when no session is
        registered under `port`. The VS Code session id is only recorded when non-empty. */
    method UpdateSessionStatus(port: int, status: Status, vscodeSessionId: Option<string>)
      returns (found: bool)
      requires Valid()
      modifies this
      ensures Valid()
      ensures found <==> port in old(sessions)
      ensures found ==> sessions == old(sessions)[port := old(sessions)[port].(
                          status := status,
                          vscodeSessionId := if vscodeSessionId.Some? && vscodeSessionId.value != ""
                                             then vscodeSessionId else old(sessions)[port].vscodeSessionId)]
      ensures !found ==> sessions == old(sessions)
      ensures order == old(order) && idToPort == old(idToPort)
    {
      if port !in sessions {
        return false;
      }
      var session := sessions[port].(status := status);
      if vscodeSessionId.Some? && vscodeSessionId.value != "" {
        session := session.(vscodeSessionId := vscodeSessionId);
      }
      sessions := sessions[port := session];
      return true;
    }

    /** `removeSession(port)`: unregisters the session and releases its port. */
    method RemoveSession(port: int) returns (removed: bool)
      requires Valid()
      modifies this, allocator
      ensures Valid()
      ensures removed <==> port in old(sessions)
      ensures sessions == old(sessions) - {port}
      ensures order == Without(old(order), port)
      ensures removed ==> idToPort == old(idToPort) - {old(sessions)[port].id}
      ensures !removed ==> idToPort == old(idToPort)
      ensures allocator.allocatedPorts == old(allocator.allocatedPorts) - {port}
    {
      if port !in sessions {
        return false;
      }
      var session := sessions[port];
      allocator.ReleasePort(session.debugPort);
      idToPort := idToPort - {session.id};
      sessions := sessions - {port};
      order := Without(order, port);
      return true;
    }

    /** `getAllSessions()`: every registered session, in registration order. */
    function AllSessions(): (r: seq<Session>)
      reads this, allocator
      requires Valid()
      ensures |r| == |order| == |sessions|
      ensures forall i | 0 <= i < |r| :: r[i] == sessions[order[i]] && r[i].debugPort == order[i]
      ensures forall p | p in sessions :: sessions[p] in r
    {
      OrderCoversKeys();
      var r := ValuesInOrder(sessions, order);
      forall p | p in sessions ensures sessions[p] in r {
        var i :| 0 <= i < |order| && order[i] == p;
        assert r[i] == sessions[p];
      }
      r
    }

    /** `getActiveSessionPids()`: the keys of `activeSessions` in insertion order, each once. */
    function ActiveSessionPids(): (r: seq<int>)
      reads this, allocator
      requires Valid()
      ensures |r| == |sessions| && NoDuplicates(r)
      ensures forall p :: p in r <==> p in sessions
      ensures forall i | 0 <= i < |r| :: r[i] == AllSessions()[i].pid
    {
      OrderCoversKeys();
      order
    }

    /** `hasActiveSession(pid)`: a session is registered under `pid`, which is its port. */
    predicate HasActiveSession(pid: int)
      reads this, allocator
      requires Valid()
      ensures HasActiveSession(pid) <==> SessionByPort(pid).Some? && SessionByPort(pid).value.pid == pid
    {
      pid in sessions
    }

    /** The insertion order lists each registered port once. */
    lemma OrderCoversKeys()
      requires Valid()
      ensures |order| == |sessions|
    {
      var keys := set p | p in order;
      forall p ensures p in keys <==> p in sessions.Keys {
        if p in order {
          var i :| 0 <= i < |order| && order[i] == p;
        }
      }
      assert keys == sessions.Keys;
      DistinctCardinality(order);
    }

    /** With no port in the insertion order, both indexes are empty. */
    lemma EmptyWhenOrderEmpty()
      requires Valid() && order == []
      ensures sessions == map[] && idToPort == map[]
    {
      assert forall p :: p !in sessions;
      assert forall id :: id !in idToPort;
    }

    /** `cleanupAllSessions()` */
    method CleanupAllSessions()
      requires Valid()
      modifies this, allocator
      ensures Valid()
      ensures sessions == map[] && order == [] && idToPort == map[]
      ensures allocator.allocatedPorts == {}
    {
      allocator.ReleaseAllPorts();
      idToPort := map[];
      sessions := map[];
      order := [];
    }
  }

  /** A sequence without duplicates has as many elements as its set of elements. */
  lemma {:induction false} DistinctCardinality(s: seq<int>)
    requires NoDuplicates(s)
    ensures |set p | p in s| == |s|
  {
    if s != [] {
      var rest := s[1..];
      DistinctCardinality(rest);
      assert (set p | p in s) == {s[0]} + (set p | p in rest);
      assert s[0] !in rest;
    }
  }

  // ----- the attach configuration -----

  /** The ptvsd `debugOptions` switches a configuration can turn on. */
  datatype Flag = ShowPrivateMembers | ShowSpecialMembers | ShowFunctionMembers | ShowBuiltinMembers

  /** The name ptvsd knows a switch by. */
  function FlagName(f: Flag): string {
    match f
    case ShowPrivateMembers => "ShowPrivateMembers"
    case ShowSpecialMembers => "ShowSpecialMembers"
    case ShowFunctionMembers => "ShowFunctionMembers"
    case ShowBuiltinMembers => "ShowBuiltinMembers"
  }

  /** The position of a switch in the generated array when it is on. */
  function Rank(f: Flag): nat {
    match f
    case ShowPrivateMembers => 0
    case ShowSpecialMembers => 1
    case ShowFunctionMembers => 2
    case ShowBuiltinMembers => 3
  }

  predicate FlagOn(o: DebugOptions, f: Flag) {
    match f
    case ShowPrivateMembers => o.showPrivateMembers
    case ShowSpecialMembers => o.showSpecialMembers
    case ShowFunctionMembers => o.showFunctionMembers
    case ShowBuiltinMembers => o.showBuiltinMembers
  }

  /** Different switches have different names, so the array read back names exactly the
      switches that are on. */
  lemma FlagNameInjective(f: Flag, g: Flag)
    requires FlagName(f) == FlagName(g)
    ensures f == g
  {
    var n, m := FlagName(f), FlagName(g);
    assert n[4] == m[4];
  }

  /** The `debugOptions` array handed to ptvsd: the switches that are on, each once, in a
      fixed order. */
  function DebugOptionFlags(o: Option<DebugOptions>): (r: seq<Flag>)
    ensures forall f :: f in r <==> o.Some? && FlagOn(o.value, f)
    ensures forall k, l | 0 <= k < l < |r| :: Rank(r[k]) < Rank(r[l])
  {
    match o
    case None => []
    case Some(d) =>
      var a, b := FlagIf(d.showPrivateMembers, ShowPrivateMembers), FlagIf(d.showSpecialMembers, ShowSpecialMembers);
      var c, e := FlagIf(d.showFunctionMembers, ShowFunctionMembers), FlagIf(d.showBuiltinMembers, ShowBuiltinMembers);
      assert forall f :: f in a + b + c + e <==> f in a || f in b || f in c || f in e;
      a + b + c + e
  }

  /** The switch `f`, when it is on. */
  function FlagIf(on: bool, f: Flag): (r: seq<Flag>)
    ensures forall g :: g in r <==> on && g == f
    ensures |r| <= 1
  {
    if on then [f] else []
  }

  function MappingToJson(m: PathMapping): Json {
    JObj(map["localRoot" := JStr(m.localRoot), "remoteRoot" := JStr(m.remoteRoot)])
  }

  function MappingsToJson(ms: seq<PathMapping>): (r: seq<Json>)
    ensures |r| == |ms|
  {
    if ms == [] then [] else [MappingToJson(ms[0])] + MappingsToJson(ms[1..])
  }

  /** Reads a `pathMappings` array of a launch configuration: None unless it is an array of
      objects with string `localRoot` and `remoteRoot`. */
  function MappingsFromJson(v: Option<Json>): Option<seq<PathMapping>> {
    match v
    case Some(JArr(items)) => MappingItems(items)
    case _ => None
  }

  function MappingItems(items: seq<Json>): Option<seq<PathMapping>> {
    if items == [] then Some([])
    else
      var local := AsString(Prop(Some(items[0]), "localRoot"));
      var remote := AsString(Prop(Some(items[0]), "remoteRoot"));
      match MappingItems(items[1..])
      case Some(rest) =>
        if local.Some? && remote.Some? then Some([PathMapping(local.value, remote.value)] + rest)
        else None
      case None => None
  }

  /** The path mappings written into a configuration read back as the same mappings. */
  lemma {:induction false} MappingsRoundTrip(ms: seq<PathMapping>)
    ensures MappingItems(MappingsToJson(ms)) == Some(ms)
  {
    if ms != [] {
      MappingsRoundTrip(ms[1..]);
      assert MappingsToJson(ms)[1..] == MappingsToJson(ms[1..]);
      assert [ms[0]] + ms[1..] == ms;
    }
  }

  function FlagsToJson(fs: seq<Flag>): (r: seq<Json>)
    ensures |r| == |fs| && forall i | 0 <= i < |fs| :: r[i] == JStr(FlagName(fs[i]))
  {
    if fs == [] then [] else [JStr(FlagName(fs[0]))] + FlagsToJson(fs[1..])
  }

  /** The members of every attach configuration generated for `session`. */
  function AttachBase(session: Session, justMyCode: bool): Object {
    map[
      "name" := JStr("Minecraft Debug (Port: " + IntToString(session.debugPort) + ")"),
      "type" := JStr("python"),
      "request" := JStr("attach"),
      "connect" := JObj(map["host" := JStr(session.debugIp), "port" := JNum(session.debugPort)]),
      "pathMappings" := JArr(MappingsToJson(session.pathMappings)),
      "justMyCode" := JBool(justMyCode),
      "redirectOutput" := JBool(true),
      "subProcess" := JBool(true)]
  }

  /** `generateDebugConfiguration(session, justMyCode, debugOptions)`: a `python` attach
      configuration for the session's endpoint. */
  function GenerateDebugConfiguration(session: Session, justMyCode: bool,
                                      debugOptions: Option<DebugOptions>): Object
  {
    var flags := DebugOptionFlags(debugOptions);
    var base := AttachBase(session, justMyCode);
    if |flags| > 0 then base["debugOptions" := JArr(FlagsToJson(flags))] else base
  }

  /** The `debugOptions` member is present exactly when some flag is on, and then lists the
      flags that are on; an empty array is left out. Every other member is the base's. */
  lemma GeneratedConfigShape(session: Session, justMyCode: bool, debugOptions: Option<DebugOptions>)
    ensures var c := GenerateDebugConfiguration(session, justMyCode, debugOptions);
      && ("debugOptions" in c <==> exists f :: debugOptions.Some? && FlagOn(debugOptions.value, f))
      && ("debugOptions" in c ==> c["debugOptions"] == JArr(FlagsToJson(DebugOptionFlags(debugOptions))))
      && (forall k | k != "debugOptions" :: Get(c, k) == Get(AttachBase(session, justMyCode), k))
  {
    var flags := DebugOptionFlags(debugOptions);
    assert "debugOptions" !in AttachBase(session, justMyCode);
    if |flags| == 0 {
      assert forall f :: f !in flags;
    } else {
      assert FlagOn(debugOptions.value, flags[0]);
    }
  }

  /** The names in a generated `debugOptions` array are exactly those of the switches that are on. */
  lemma GeneratedFlagNames(o: DebugOptions, f: Flag)
    ensures JStr(FlagName(f)) in FlagsToJson(DebugOptionFlags(Some(o))) <==> FlagOn(o, f)
  {
    var flags := DebugOptionFlags(Some(o));
    var items := FlagsToJson(flags);
    if JStr(FlagName(f)) in items {
      var k :| 0 <= k < |items| && items[k] == JStr(FlagName(f));
      FlagNameInjective(f, flags[k]);
    }
    if FlagOn(o, f) {
      var k :| 0 <= k < |flags| && flags[k] == f;
      assert items[k] == JStr(FlagName(f));
    }
  }

  /** The generated configuration is a `python` attach request named after the port. */
  lemma GeneratedConfigIdentity(session: Session, justMyCode: bool, debugOptions: Option<DebugOptions>)
    ensures var c := GenerateDebugConfiguration(session, justMyCode, debugOptions);
      && Get(c, "type") == Some(JStr("python")) && Get(c, "request") == Some(JStr("attach"))
      && Get(c, "name") == Some(JStr("Minecraft Debug (Port: " + IntToString(session.debugPort) + ")"))
  {
    GeneratedConfigShape(session, justMyCode, debugOptions);
    var c := GenerateDebugConfiguration(session, justMyCode, debugOptions);
    var b := AttachBase(session, justMyCode);
    assert Get(c, "type") == Get(b, "type");
    assert Get(c, "request") == Get(b, "request");
    assert Get(c, "name") == Get(b, "name");
  }

  /** The generated configuration connects to the session's recorded endpoint. */
  lemma GeneratedConfigEndpoint(session: Session, justMyCode: bool, debugOptions: Option<DebugOptions>)
    ensures var c := GenerateDebugConfiguration(session, justMyCode, debugOptions);
      && AsString(Prop(Get(c, "connect"), "host")) == Some(session.debugIp)
      && AsInt(Prop(Get(c, "connect"), "port")) == Some(session.debugPort)
  {
    GeneratedConfigShape(session, justMyCode, debugOptions);
    var c := GenerateDebugConfiguration(session, justMyCode, debugOptions);
    var b := AttachBase(session, justMyCode);
    assert Get(c, "connect") == Get(b, "connect");
  }

  /** The generated configuration carries the session's path mappings (read back unchanged,
      in order), the given `justMyCode`, and output redirection and sub-process debugging on. */
  lemma GeneratedConfigOptions(session: Session, justMyCode: bool, debugOptions: Option<DebugOptions>)
    ensures var c := GenerateDebugConfiguration(session, justMyCode, debugOptions);
      && MappingsFromJson(Get(c, "pathMappings")) == Some(session.pathMappings)
      && AsBool(Get(c, "justMyCode")) == Some(justMyCode)
      && Get(c, "redirectOutput") == Some(JBool(true)) && Get(c, "subProcess") == Some(JBool(true))
  {
    GeneratedConfigShape(session, justMyCode, debugOptions);
    var c := GenerateDebugConfiguration(session, justMyCode, debugOptions);
    var b := AttachBase(session, justMyCode);
    assert Get(c, "pathMappings") == Get(b, "pathMappings");
    assert Get(c, "justMyCode") == Get(b, "justMyCode");
    assert Get(c, "redirectOutput") == Get(b, "redirectOutput");
    assert Get(c, "subProcess") == Get(b, "subProcess");
    MappingsRoundTrip(session.pathMappings);
  }

  // ----- settings -----

  /** `globalConfig.get<T>(key, default)` for a boolean, string or number setting of the
      `mcdev-tools` section; a setting of another JSON type counts as unset. */
  function SettingBool(global: Object, key: string, default: bool): bool {
    AsBool(Get(global, key)).GetOr(default)
  }

  function SettingString(global: Object, key: string, default: string): string {
    AsString(Get(global, key)).GetOr(default)
  }

  function SettingInt(global: Object, key: string, default: int): int {
    AsInt(Get(global, key)).GetOr(default)
  }

  /** `launchConfig?.[group]?.[key]` */
  function LaunchValue(launchConfig: Option<Object>, group: string, key: string): Option<Json> {
    match launchConfig
    case None => None
    case Some(l) => Prop(Get(l, group), key)
  }

  /** `launchConfig?.dapConfig?.debugOptions?.[key]` */
  function LaunchDebugOption(launchConfig: Option<Object>, key: string): Option<Json> {
    Prop(LaunchValue(launchConfig, "dapConfig", "debugOptions"), key)
  }

  /** `b` is what `launch ?? setting` gives for a boolean: the launch value when it is a
      boolean, the setting when the launch value is absent or `null`. */
  predicate BoolPrecedence(b: bool, launch: Option<Json>, setting: bool) {
    && (AsBool(launch).Some? ==> b == AsBool(launch).value)
    && (launch in {None, Some(JNull)} ==> b == setting)
  }

  /** `getDebugConfigFromSettings(launchConfig)`: each value from the launch configuration
      when it sets it (to something other than `null`), otherwise from the global settings,
      otherwise the built-in default. */
  function GetDebugConfigFromSettings(launchConfig: Option<Object>, global: Object): (c: PtvsdConfig)
    ensures AsString(LaunchValue(launchConfig, "ptvsd", "ip")).Some? ==> c.ip == AsString(LaunchValue(launchConfig, "ptvsd", "ip")).value
    ensures LaunchValue(launchConfig, "ptvsd", "ip") in {None, Some(JNull)} ==> c.ip == SettingString(global, "ptvsd.ip", "localhost")
    ensures AsInt(LaunchValue(launchConfig, "ptvsd", "port")).Some? ==> c.preferredPort == AsInt(LaunchValue(launchConfig, "ptvsd", "port")).value
    ensures LaunchValue(launchConfig, "ptvsd", "port") in {None, Some(JNull)} ==> c.preferredPort == SettingInt(global, "ptvsd.port", 56788)
    ensures AsBool(LaunchValue(launchConfig, "dapConfig", "justMyCode")).Some? ==> c.justMyCode == AsBool(LaunchValue(launchConfig, "dapConfig", "justMyCode")).value
    ensures LaunchValue(launchConfig, "dapConfig", "justMyCode") in {None, Some(JNull)} ==> c.justMyCode == SettingBool(global, "ptvsd.justMyCode", false)
    ensures launchConfig.None? ==> c.additionalPathMappings == None
    ensures launchConfig.Some? ==>
              c.additionalPathMappings == MappingsFromJson(LaunchValue(launchConfig, "dapConfig", "pathMappings"))
    ensures BoolPrecedence(c.enabled, LaunchValue(launchConfig, "ptvsd", "enabled"), SettingBool(global, "ptvsd.enabled", true))
    ensures BoolPrecedence(c.debugOptions.showPrivateMembers, LaunchDebugOption(launchConfig, "showPrivateMembers"),
                           SettingBool(global, "ptvsd.debugOptions.showPrivateMembers", false))
    ensures BoolPrecedence(c.debugOptions.showSpecialMembers, LaunchDebugOption(launchConfig, "showSpecialMembers"),
                           SettingBool(global, "ptvsd.debugOptions.showSpecialMembers", false))
    ensures BoolPrecedence(c.debugOptions.showFunctionMembers, LaunchDebugOption(launchConfig, "showFunctionMembers"),
                           SettingBool(global, "ptvsd.debugOptions.showFunctionMembers", false))
    ensures BoolPrecedence(c.debugOptions.showBuiltinMembers, LaunchDebugOption(launchConfig, "showBuiltinMembers"),
                           SettingBool(global, "ptvsd.debugOptions.showBuiltinMembers", false))
  {
    var opts := DebugOptions(
      AsBool(LaunchDebugOption(launchConfig, "showPrivateMembers"))
        .GetOr(SettingBool(global, "ptvsd.debugOptions.showPrivateMembers", false)),
      AsBool(LaunchDebugOption(launchConfig, "showSpecialMembers"))
        .GetOr(SettingBool(global, "ptvsd.debugOptions.showSpecialMembers", false)),
      AsBool(LaunchDebugOption(launchConfig, "showFunctionMembers"))
        .GetOr(SettingBool(global, "ptvsd.debugOptions.showFunctionMembers", false)),
      AsBool(LaunchDebugOption(launchConfig, "showBuiltinMembers"))
        .GetOr(SettingBool(global, "ptvsd.debugOptions.showBuiltinMembers", false)));
    PtvsdConfig(
      AsBool(LaunchValue(launchConfig, "ptvsd", "enabled")).GetOr(SettingBool(global, "ptvsd.enabled", true)),
      AsString(LaunchValue(launchConfig, "ptvsd", "ip")).GetOr(SettingString(global, "ptvsd.ip", "localhost")),
      AsInt(LaunchValue(launchConfig, "ptvsd", "port")).GetOr(SettingInt(global, "ptvsd.port", 56788)),
      AsBool(LaunchValue(launchConfig, "dapConfig", "justMyCode")).GetOr(SettingBool(global, "ptvsd.justMyCode", false)),
      MappingsFromJson(LaunchValue(launchConfig, "dapConfig", "pathMappings")),
      opts)
  }

  /** With nothing configured anywhere, ptvsd is on, listens on localhost:56788, debugs
      library code too and filters no variables. */
  lemma SettingsDefaults()
    ensures GetDebugConfigFromSettings(None, map[])
            == PtvsdConfig(true, "localhost", 56788, false, None, DebugOptions(false, false, false, false))
  {
  }

  /** A launch configuration that sets every value decides the whole configuration: the global
      settings are not consulted, and its path mappings are read back as written. */
  lemma LaunchConfigWins(launch: Object, global: Object, enabled: bool, ip: string, port: int, justMyCode: bool,
                         mappings: seq<PathMapping>, opts: DebugOptions)
    requires LaunchValue(Some(launch), "ptvsd", "enabled") == Some(JBool(enabled))
    requires LaunchValue(Some(launch), "ptvsd", "ip") == Some(JStr(ip))
    requires LaunchValue(Some(launch), "ptvsd", "port") == Some(JNum(port))
    requires LaunchValue(Some(launch), "dapConfig", "justMyCode") == Some(JBool(justMyCode))
    requires LaunchValue(Some(launch), "dapConfig", "pathMappings") == Some(JArr(MappingsToJson(mappings)))
    requires LaunchDebugOption(Some(launch), "showPrivateMembers") == Some(JBool(opts.showPrivateMembers))
    requires LaunchDebugOption(Some(launch), "showSpecialMembers") == Some(JBool(opts.showSpecialMembers))
    requires LaunchDebugOption(Some(launch), "showFunctionMembers") == Some(JBool(opts.showFunctionMembers))
    requires LaunchDebugOption(Some(launch), "showBuiltinMembers") == Some(JBool(opts.showBuiltinMembers))
    ensures GetDebugConfigFromSettings(Some(launch), global)
            == PtvsdConfig(enabled, ip, port, justMyCode, Some(mappings), opts)
  {
    MappingsRoundTrip(mappings);
  }

  /** Without a launch configuration the global settings decide. */
  lemma GlobalSettingsApply(global: Object, ip: string, port: int)
    requires Get(global, "ptvsd.ip") == Some(JStr(ip)) && Get(global, "ptvsd.port") == Some(JNum(port))
    ensures var c := GetDebugConfigFromSettings(None, global);
            c.ip == ip && c.preferredPort == port && c.additionalPathMappings == None
  {
  }
}
