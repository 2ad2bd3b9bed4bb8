/** The shared helpers of the inject-mode debugger: the scan for a free port and the check that
    a workspace folder looks like a Minecraft add-on. Socket binds are an oracle giving the
    outcome of `server.listen(port, '127.0.0.1')`; the file system is a directory tree. */
module Utils {
  import opened Wrappers

  /** What binding a probe server to a port came to. */
  datatype BindOutcome = Listening | BindError(code: string)

  /** `isPortInUse`: only an `EADDRINUSE` error means the port is taken; a successful bind and
      every other error count as free. */
  predicate IsPortInUse(b: BindOutcome) {
    b.BindError? && b.code == "EADDRINUSE"
  }

  /** The range `findAvailablePort` reports when it gives up: first and last candidate. */
  datatype NoPortInRange = NoPortInRange(first: int, last: int)

  /** Port `p` is skipped by the scan: claimed by a debug session, or reported in use. */
  predicate Taken(used: set<int>, bind: int -> BindOutcome, p: int) {
    p in used || IsPortInUse(bind(p))
  }

  /** The first free port among the candidates from `start + i` up to `start + count`. */
  function FirstFreeFrom(start: int, used: set<int>, bind: int -> BindOutcome, i: nat, count: int)
    : (r: Option<int>)
    ensures r.Some? ==> && start + i <= r.value < start + count
                        && !Taken(used, bind, r.value)
                        && forall p | start + i <= p < r.value :: Taken(used, bind, p)
    ensures r.None? <==> forall p | start + i <= p < start + count :: Taken(used, bind, p)
    decreases count - i
  {
    if i >= count then None
    else if !Taken(used, bind, start + i) then Some(start + i)
    else FirstFreeFrom(start, used, bind, i + 1, count)
  }

  /** The first port of `[start, start + count)` that is not taken, if any. */
  function FirstFree(start: int, used: set<int>, bind: int -> BindOutcome, count: int): Option<int> {
    FirstFreeFrom(start, used, bind, 0, count)
  }

  /** `findAvailablePort(startPort, usedPorts, maxAttempts)`: the first port of
      `[startPort, startPort + maxAttempts)` that no session uses and whose bind does not fail
      with `EADDRINUSE`, or the error naming the range. Ports in `used` are never probed;
      `probed` lists the ports that were. */
  method FindAvailablePort(startPort: int, used: set<int>, maxAttempts: int, bind: int -> BindOutcome)
    returns (r: Result<int, NoPortInRange>, ghost probed: seq<int>)
    ensures r.Success? <==> FirstFree(startPort, used, bind, maxAttempts).Some?
    ensures r.Success? ==> r.value == FirstFree(startPort, used, bind, maxAttempts).value
    ensures r.Failure? ==> r.error == NoPortInRange(startPort, startPort + maxAttempts - 1)
    ensures forall p | p in probed :: p !in used
  {
    probed := [];
    var i: nat := 0;
    while i < maxAttempts
      invariant FirstFreeFrom(startPort, used, bind, i, maxAttempts) == FirstFree(startPort, used, bind, maxAttempts)
      invariant forall p | p in probed :: p !in used
      decreases maxAttempts - i
    {
      var port := startPort + i;
      if port in used {
        i := i + 1;
        continue;
      }
      probed := probed + [port];
      var inUse := IsPortInUse(bind(port));
      if !inUse {
        return Success(port), probed;
      }
      i := i + 1;
    }
    return Failure(NoPortInRange(startPort, startPort + maxAttempts - 1)), probed;
  }

  /** A bind refused for any other reason than `EADDRINUSE` (say `EACCES`) counts as free: when
      every earlier candidate is taken, the scan chooses that port. */
  lemma OtherBindErrorsCountAsFree(start: int, used: set<int>, bind: int -> BindOutcome, count: int, p: int)
    requires p !in used && bind(p).BindError? && bind(p).code != "EADDRINUSE"
    requires start <= p < start + count
    requires forall q | start <= q < p :: Taken(used, bind, q)
    ensures !Taken(used, bind, p)
    ensures FirstFree(start, used, bind, count) == Some(p)
  {
    var r := FirstFreeFrom(start, used, bind, 0, count);
    assert start + 0 <= p < start + count && !Taken(used, bind, p);
    assert !(r.value < p);
    assert !(p < r.value);
  }

  // ----- the add-on workspace check -----

  /** A file-system entry. `listable` is false for a directory whose listing fails. */
  datatype Node = File | Dir(entries: map<string, Node>, listable: bool)

  /** `fs.existsSync(path.join(dir, name))` */
  predicate Has(dir: Node, name: string) {
    dir.Dir? && name in dir.entries
  }

  /** `fs.existsSync(p) && fs.statSync(p).isDirectory()` for `p = path.join(dir, name)` */
  predicate HasDir(dir: Node, name: string) {
    dir.Dir? && name in dir.entries && dir.entries[name].Dir?
  }

  /** The workspace root is itself a pack: a manifest next to `entities` or `textures`, of any
      kind. */
  predicate RootIsPack(root: Node) {
    Has(root, "manifest.json") && (Has(root, "entities") || Has(root, "textures"))
  }

  /** A directory below the root is a pack: a manifest next to an `entities` or `textures`
      directory. */
  predicate IsPack(dir: Node) {
    Has(dir, "manifest.json") && (HasDir(dir, "entities") || HasDir(dir, "textures"))
  }

  /** Some sub-directory of the listable directory `dir` is a pack. */
  predicate HasPackChild(dir: Node) {
    dir.Dir? && dir.listable && exists name | name in dir.entries :: dir.entries[name].Dir? && IsPack(dir.entries[name])
  }

  /** What `isMinecraftAddonWorkspace` decides: a `.mcdev.json` at the root, the root a pack,
      or a pack among the root's sub-directories or their sub-directories. */
  predicate AddonWorkspace(root: Node) {
    || Has(root, ".mcdev.json")
    || RootIsPack(root)
    || (root.Dir? && root.listable &&
        exists name | name in root.entries ::
          root.entries[name].Dir? && (IsPack(root.entries[name]) || HasPackChild(root.entries[name])))
  }

  /** `isMinecraftAddonWorkspace(folder)` on the tree at the folder's path. */
  method IsMinecraftAddonWorkspace(root: Node) returns (r: bool)
    ensures r == AddonWorkspace(root)
  {
    if Has(root, ".mcdev.json") {
      return true;
    }
    if Has(root, "manifest.json") && (Has(root, "entities") || Has(root, "textures")) {
      return true;
    }
    if !root.Dir? || !root.listable {
      return false;
    }
    var children := root.entries.Keys;
    while children != {}
      invariant children <= root.entries.Keys
      invariant forall name | name in root.entries.Keys - children ::
                  !(root.entries[name].Dir? && (IsPack(root.entries[name]) || HasPackChild(root.entries[name])))
      decreases children
    {
      var name :| name in children;
      children := children - {name};
      var child := root.entries[name];
      if !child.Dir? {
        continue;
      }
      if IsPack(child) {
        return true;
      }
      var found := HasPackSubdirectory(child);
      if found {
        return true;
      }
    }
    return false;
  }

  /** The inner loop over the sub-directories of `child`; an unlistable `child` is skipped. */
  method HasPackSubdirectory(child: Node) returns (found: bool)
    requires child.Dir?
    ensures found == HasPackChild(child)
  {
    if !child.listable {
      return false;
    }
    var subs := child.entries.Keys;
    while subs != {}
      invariant subs <= child.entries.Keys
      invariant forall name | name in child.entries.Keys - subs ::
                  !(child.entries[name].Dir? && IsPack(child.entries[name]))
      decreases subs
    {
      var name :| name in subs;
      subs := subs - {name};
      var packDir := child.entries[name];
      if packDir.Dir? && IsPack(packDir) {
        return true;
      }
    }
    return false;
  }

  /** `node` with everything more than `depth` levels below it emptied: what lies deeper is
      replaced by empty, listable directories. */
  function Prune(node: Node, depth: nat): (r: Node)
    ensures r.Dir? <==> node.Dir?
    ensures node.Dir? && depth > 0 ==> r.entries.Keys == node.entries.Keys
    decreases depth
  {
    match node
    case File => File
    case Dir(entries, listable) =>
      if depth == 0 then Dir(map[], true)
      else Dir(map name | name in entries :: Prune(entries[name], depth - 1), listable)
  }

  /** The kinds of the entries of a pruned directory are those of the original. */
  lemma PruneEntry(node: Node, depth: nat, name: string)
    requires node.Dir? && depth > 0 && name in node.entries
    ensures name in Prune(node, depth).entries
    ensures Prune(node, depth).entries[name] == Prune(node.entries[name], depth - 1)
  {
  }

  /** A pack is recognised from what lies at most one level below its directory. */
  lemma IsPackPruned(dir: Node, depth: nat)
    requires dir.Dir? && depth >= 1
    ensures IsPack(Prune(dir, depth)) == IsPack(dir)
  {
    var p := Prune(dir, depth);
    forall name | name in dir.entries
      ensures name in p.entries && (p.entries[name].Dir? <==> dir.entries[name].Dir?)
    {
      PruneEntry(dir, depth, name);
    }
  }

  lemma HasPackChildPruned(dir: Node, depth: nat)
    requires dir.Dir? && depth >= 2
    ensures HasPackChild(Prune(dir, depth)) == HasPackChild(dir)
  {
    var p := Prune(dir, depth);
    forall name | name in dir.entries
      ensures name in p.entries
      ensures p.entries[name].Dir? <==> dir.entries[name].Dir?
      ensures dir.entries[name].Dir? ==> IsPack(p.entries[name]) == IsPack(dir.entries[name])
    {
      PruneEntry(dir, depth, name);
      if dir.entries[name].Dir? {
        IsPackPruned(dir.entries[name], depth - 1);
      }
    }
  }

  /** Nothing deeper than three levels below the workspace root (the kind of an entry in a
      grandchild directory) takes part in the decision. */
  lemma AddonWorkspaceDepth(root: Node)
    ensures AddonWorkspace(Prune(root, 3)) == AddonWorkspace(root)
  {
    if root.Dir? {
      var p := Prune(root, 3);
      forall name | name in root.entries
        ensures name in p.entries
        ensures p.entries[name].Dir? <==> root.entries[name].Dir?
        ensures root.entries[name].Dir? ==>
                  && IsPack(p.entries[name]) == IsPack(root.entries[name])
                  && HasPackChild(p.entries[name]) == HasPackChild(root.entries[name])
      {
        PruneEntry(root, 3, name);
        if root.entries[name].Dir? {
          IsPackPruned(root.entries[name], 2);
          HasPackChildPruned(root.entries[name], 2);
        }
      }
    }
  }
}
