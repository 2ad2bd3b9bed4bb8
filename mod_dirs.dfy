/** The mod directory list of `.mcdev.json` (`included_mod_dirs`), shared by both sidebar
    editors: how the stored entries are read into rows, how rows are written back, and the edits
    the directory list offers. */
module ModDirs {
  import opened Wrappers
  import opened JsonValues

  /** A row of the list: a path and whether its mods hot-reload. */
  datatype ModDir = ModDir(path: string, hotReload: bool)

  /** The single row an absent or malformed list is read as. */
  const DefaultDir := ModDir("./", true)

  /** One stored entry: a string is a hot-reloading path; an object keeps its path (`'./'` when
      it is empty or missing) and turns hot reload off only for an explicit `false`; anything
      else is the default row. */
  function ParseModDir(item: Json): (r: ModDir)
    ensures item.JStr? ==> r == ModDir(item.s, true)
    ensures item.JObj? ==> (!r.hotReload <==> Get(item.fields, "hot_reload") == Some(JBool(false)))
    ensures !item.JStr? ==> r.path != ""
    ensures !item.JStr? && !item.JObj? && !item.JArr? ==> r == DefaultDir
  {
    match item
    case JStr(s) => ModDir(s, true)
    case JObj(m) =>
      var path := match Get(m, "path") case Some(JStr(p)) => if p == "" then "./" else p case _ => "./";
      ModDir(path, Get(m, "hot_reload") != Some(JBool(false)))
    case JArr(_) => DefaultDir
    case _ => DefaultDir
  }

  /** `parseModDirs(dirs)`: the rows of a stored list, one per entry and in order; an absent
      value, or one that is not an array, is the one default row. */
  function ParseModDirs(dirs: Option<Json>): (r: seq<ModDir>)
    ensures !(dirs.Some? && dirs.value.JArr?) ==> r == [DefaultDir]
    ensures dirs.Some? && dirs.value.JArr? ==>
              |r| == |dirs.value.items| && forall i | 0 <= i < |r| :: r[i] == ParseModDir(dirs.value.items[i])
  {
    match dirs
    case Some(JArr(items)) => seq(|items|, i requires 0 <= i < |items| => ParseModDir(items[i]))
    case _ => [DefaultDir]
  }

  /** `modDirs.every(d => d.hot_reload)` */
  predicate AllHotReload(dirs: seq<ModDir>) {
    forall i | 0 <= i < |dirs| :: dirs[i].hotReload
  }

  /** The stored form of one row when some row does not hot-reload. */
  function DirObject(d: ModDir): Json {
    JObj(map["path" := JStr(d.path), "hot_reload" := JBool(d.hotReload)])
  }

  /** What `collectData` stores under `included_mod_dirs`: a plain list of paths when every row
      hot-reloads (the empty list included), otherwise one `{path, hot_reload}` object per row. */
  function EncodeModDirs(dirs: seq<ModDir>): (r: Json)
    ensures r.JArr? && |r.items| == |dirs|
  {
    if AllHotReload(dirs) then JArr(seq(|dirs|, i requires 0 <= i < |dirs| => JStr(dirs[i].path)))
    else JArr(seq(|dirs|, i requires 0 <= i < |dirs| => DirObject(dirs[i])))
  }

  /** The stored list is a list of plain strings exactly when every row hot-reloads. */
  lemma EncodedPlainIffAllHot(dirs: seq<ModDir>)
    ensures var items := EncodeModDirs(dirs).items;
            (forall i | 0 <= i < |items| :: items[i].JStr?) <==> AllHotReload(dirs)
  {
    var items := EncodeModDirs(dirs).items;
    if !AllHotReload(dirs) {
      var i :| 0 <= i < |dirs| && !dirs[i].hotReload;
      assert !items[i].JStr?;
    }
  }

  /** Writing the rows and reading them back gives the same rows, whenever no path is empty. */
  lemma ParseEncodeModDirs(dirs: seq<ModDir>)
    requires forall i | 0 <= i < |dirs| :: dirs[i].path != ""
    ensures ParseModDirs(Some(EncodeModDirs(dirs))) == dirs
  {
    var r := ParseModDirs(Some(EncodeModDirs(dirs)));
    forall i | 0 <= i < |dirs| ensures r[i] == dirs[i] {
      if !AllHotReload(dirs) {
        assert Get(DirObject(dirs[i]).fields, "path") == Some(JStr(dirs[i].path));
        assert Get(DirObject(dirs[i]).fields, "hot_reload") == Some(JBool(dirs[i].hotReload));
      }
    }
  }

  /** An empty path survives the trip only in a plain list, where every row hot-reloads; once
      the rows are stored as objects, it comes back as `'./'`. */
  lemma EmptyPathComesBackAsRoot(dirs: seq<ModDir>, i: int)
    requires 0 <= i < |dirs| && dirs[i].path == ""
    ensures var r := ParseModDirs(Some(EncodeModDirs(dirs)));
            r[i] == if AllHotReload(dirs) then dirs[i] else ModDir("./", dirs[i].hotReload)
  {
    if !AllHotReload(dirs) {
      assert EncodeModDirs(dirs).items[i] == DirObject(dirs[i]);
      assert Get(DirObject(dirs[i]).fields, "path") == Some(JStr(""));
      assert Get(DirObject(dirs[i]).fields, "hot_reload") == Some(JBool(dirs[i].hotReload));
    }
  }

  /** Reading a stored list, writing it and reading it again gives the rows of the first read:
      a load followed by a save changes the list at most once, to its normal form. */
  lemma ParseModDirsNormalises(dirs: Option<Json>)
    requires forall i | 0 <= i < |ParseModDirs(dirs)| :: ParseModDirs(dirs)[i].path != ""
    ensures ParseModDirs(Some(EncodeModDirs(ParseModDirs(dirs)))) == ParseModDirs(dirs)
  {
    ParseEncodeModDirs(ParseModDirs(dirs));
  }

  // ----- the edits of the directory list -----

  /** `removeDir(index)`: `modDirs.filter((_, i) => i !== index)`. */
  function RemoveDir(dirs: seq<ModDir>, index: int): (r: seq<ModDir>)
    ensures !(0 <= index < |dirs|) ==> r == dirs
    ensures 0 <= index < |dirs| ==> && |r| == |dirs| - 1
                                     && (forall j | 0 <= j < index :: r[j] == dirs[j])
                                     && (forall j | index <= j < |r| :: r[j] == dirs[j + 1])
  {
    if 0 <= index < |dirs| then dirs[..index] + dirs[index + 1..] else dirs
  }

  /** The list with row `index` given the path `path`. */
  function WithPath(dirs: seq<ModDir>, index: int, path: string): (r: seq<ModDir>)
    requires 0 <= index < |dirs|
    ensures |r| == |dirs| && r[index].path == path && r[index].hotReload == dirs[index].hotReload
    ensures forall j | 0 <= j < |dirs| && j != index :: r[j] == dirs[j]
  {
    dirs[index := dirs[index].(path := path)]
  }

  /** The list with the hot-reload flag of row `index` flipped. */
  function WithToggled(dirs: seq<ModDir>, index: int): (r: seq<ModDir>)
    requires 0 <= index < |dirs|
    ensures |r| == |dirs| && r[index].path == dirs[index].path && r[index].hotReload == !dirs[index].hotReload
    ensures forall j | 0 <= j < |dirs| && j != index :: r[j] == dirs[j]
  {
    dirs[index := dirs[index].(hotReload := !dirs[index].hotReload)]
  }

  /** Flipping a row's flag twice restores the list. */
  lemma ToggleTwice(dirs: seq<ModDir>, index: int)
    requires 0 <= index < |dirs|
    ensures WithToggled(WithToggled(dirs, index), index) == dirs
  {
  }

  /** Copies the list into a new array, as `[...modDirs]` does, and returns the array's contents. */
  method CopyDirs(dirs: seq<ModDir>) returns (a: array<ModDir>)
    ensures fresh(a) && a[..] == dirs
  {
    a := new ModDir[|dirs|](i requires 0 <= i < |dirs| => dirs[i]);
  }

  /** `updatePath(index, path)`: a copy of the list whose row `index` then gets the new path.
      The source assigns through `undefined` for a missing row, so `index` must name a row. */
  method UpdatePath(dirs: seq<ModDir>, index: int, path: string) returns (r: seq<ModDir>)
    requires 0 <= index < |dirs|
    ensures r == WithPath(dirs, index, path)
  {
    var newDirs := CopyDirs(dirs);
    newDirs[index] := newDirs[index].(path := path);
    r := newDirs[..];
  }

  /** `toggleHotReload(index)`: a copy of the list whose row `index` then has its flag flipped. */
  method ToggleHotReload(dirs: seq<ModDir>, index: int) returns (r: seq<ModDir>)
    requires 0 <= index < |dirs|
    ensures r == WithToggled(dirs, index)
  {
    var newDirs := CopyDirs(dirs);
    newDirs[index] := newDirs[index].(hotReload := !newDirs[index].hotReload);
    r := newDirs[..];
  }

  /** `handleFolderSelected(index, path)` on the list: `-1` appends a hot-reloading row for the
      chosen folder, a row's index sets that row's path, any other index changes nothing. */
  function FolderSelected(dirs: seq<ModDir>, index: int, path: string): (r: seq<ModDir>)
    ensures index == -1 ==> r == dirs + [ModDir(path, true)]
    ensures 0 <= index < |dirs| ==> r == WithPath(dirs, index, path)
    ensures index < -1 || index >= |dirs| ==> r == dirs
  {
    if index == -1 then dirs + [ModDir(path, true)]
    else if 0 <= index < |dirs| then WithPath(dirs, index, path)
    else dirs
  }

  /** A folder chosen for the add button is stored as a plain path as long as every other row
      hot-reloads, and the list grows by that path. */
  lemma AddedFolderKeepsPlainList(dirs: seq<ModDir>, path: string)
    requires AllHotReload(dirs)
    ensures AllHotReload(FolderSelected(dirs, -1, path))
    ensures EncodeModDirs(FolderSelected(dirs, -1, path)).items
            == EncodeModDirs(dirs).items + [JStr(path)]
  {
  }
}
