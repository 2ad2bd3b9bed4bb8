/** The React sidebar editor (`App`): the `.mcdev.json` object being edited, the mod directory
    rows, the unsaved-changes flag and the key binding being captured, with the message and
    keyboard handlers that change them. React state setters become field assignments; the
    status line, the language and the auto-save timer are not modelled. */
module WebviewApp {
  import opened Wrappers
  import opened JsonValues
  import opened Text
  import opened ModDirs

  /** `collectData()`: the edited object with `included_mod_dirs` replaced by the stored form of
      the rows. */
  function CollectData(data: Object, modDirs: seq<ModDir>): (r: Object)
    ensures r.Keys == data.Keys + {"included_mod_dirs"}
    ensures forall k | k in data && k != "included_mod_dirs" :: r[k] == data[k]
    ensures Get(r, "included_mod_dirs") == Some(EncodeModDirs(modDirs))
  {
    data["included_mod_dirs" := EncodeModDirs(modDirs)]
  }

  /** Saving right after loading keeps every member of the file but `included_mod_dirs`, and that
      one reads back as the rows that were loaded, provided no loaded path is empty. */
  lemma LoadThenCollect(data: Object)
    requires var rows := ParseModDirs(Get(data, "included_mod_dirs"));
             forall i | 0 <= i < |rows| :: rows[i].path != ""
    ensures var r := CollectData(data, ParseModDirs(Get(data, "included_mod_dirs")));
            && (forall k | k in data && k != "included_mod_dirs" :: k in r && r[k] == data[k])
            && ParseModDirs(Get(r, "included_mod_dirs")) == ParseModDirs(Get(data, "included_mod_dirs"))
  {
    ParseModDirsNormalises(Get(data, "included_mod_dirs"));
  }

  /** What `handleKeyCapture(key, keyCode)` makes of the object: `debug_options` (a fresh object
      if it was missing) with `key` bound to `keyCode`. */
  function WithKeyBinding(data: Object, key: string, keyCode: string): (r: Object)
    ensures r.Keys == data.Keys + {"debug_options"}
    ensures forall k | k in data && k != "debug_options" :: r[k] == data[k]
    ensures Prop(Get(r, "debug_options"), key) == Some(JStr(keyCode))
    ensures forall k | k != key :: Prop(Get(r, "debug_options"), k) == Prop(Get(data, "debug_options"), k)
  {
    data["debug_options" := JObj(Spread(Get(data, "debug_options"))[key := JStr(keyCode)])]
  }

  /** `keyCode` 27: cancels the capture. */
  const EscKeyCode := 27

  class App {
    var data: Object
    var modDirs: seq<ModDir>
    var hasChanges: bool
    var activeKeyListener: Option<string>

    /** The initial state: an empty object and the default row. */
    constructor ()
      ensures data == map[] && modDirs == [DefaultDir] && !hasChanges && activeKeyListener.None?
    {
      data := map[];
      modDirs := [DefaultDir];
      hasChanges := false;
      activeKeyListener := None;
    }

    /** `loadData(newData)` */
    method LoadData(newData: Object)
      modifies this
      ensures data == newData && modDirs == ParseModDirs(Get(newData, "included_mod_dirs"))
      ensures hasChanges == old(hasChanges) && activeKeyListener == old(activeKeyListener)
    {
      data := newData;
      modDirs := ParseModDirs(Get(newData, "included_mod_dirs"));
    }

    /** The `init` message with the parsed file: the file is loaded unless it is about to be
        saved for the first time, and either way nothing is unsaved. */
    method OnInit(content: Object, needsInitialSave: bool)
      modifies this
      ensures !needsInitialSave ==> data == content && modDirs == ParseModDirs(Get(content, "included_mod_dirs"))
      ensures needsInitialSave ==> data == old(data) && modDirs == old(modDirs)
      ensures !hasChanges && activeKeyListener == old(activeKeyListener)
    {
      if !needsInitialSave {
        LoadData(content);
      }
      hasChanges := false;
    }

    /** The `saved` message. */
    method OnSaved()
      modifies this
      ensures !hasChanges
      ensures data == old(data) && modDirs == old(modDirs) && activeKeyListener == old(activeKeyListener)
    {
      hasChanges := false;
    }

    /** `handleFolderSelected(index, path)`, on the `folderSelected` message. */
    method OnFolderSelected(index: int, path: string)
      modifies this
      ensures modDirs == FolderSelected(old(modDirs), index, path) && hasChanges
      ensures data == old(data) && activeKeyListener == old(activeKeyListener)
    {
      modDirs := FolderSelected(modDirs, index, path);
      hasChanges := true;
    }

    /** The delete button of row `index` (`removeDir`). */
    method OnRemoveDir(index: int)
      modifies this
      ensures modDirs == RemoveDir(old(modDirs), index) && hasChanges
      ensures data == old(data) && activeKeyListener == old(activeKeyListener)
    {
      modDirs := RemoveDir(modDirs, index);
      hasChanges := true;
    }

    /** Editing the path of row `index` (`updatePath`). */
    method OnUpdatePath(index: int, path: string)
      requires 0 <= index < |modDirs|
      modifies this
      ensures modDirs == WithPath(old(modDirs), index, path) && hasChanges
      ensures data == old(data) && activeKeyListener == old(activeKeyListener)
    {
      modDirs := UpdatePath(modDirs, index, path);
      hasChanges := true;
    }

    /** The hot-reload box of row `index` (`toggleHotReload`). */
    method OnToggleHotReload(index: int)
      requires 0 <= index < |modDirs|
      modifies this
      ensures modDirs == WithToggled(old(modDirs), index) && hasChanges
      ensures data == old(data) && activeKeyListener == old(activeKeyListener)
    {
      modDirs := ToggleHotReload(modDirs, index);
      hasChanges := true;
    }

    /** Clicking a key binding starts capturing a key for it. */
    method ListenFor(key: string)
      modifies this
      ensures activeKeyListener == Some(key)
      ensures data == old(data) && modDirs == old(modDirs) && hasChanges == old(hasChanges)
    {
      activeKeyListener := Some(key);
    }

    /** `handleKeyCapture(key, keyCode)` */
    method HandleKeyCapture(key: string, keyCode: string)
      modifies this
      ensures data == WithKeyBinding(old(data), key, keyCode)
      ensures activeKeyListener.None? && hasChanges && modDirs == old(modDirs)
    {
      data := WithKeyBinding(data, key, keyCode);
      activeKeyListener := None;
      hasChanges := true;
    }

    /** The document's keydown handler. `saveChord` is Ctrl or Cmd with `s`; `saved` is the
        object posted for saving, if any. */
    method HandleKeyDown(saveChord: bool, keyCode: int) returns (saved: Option<Object>)
      modifies this
      ensures saveChord ==>
                && saved == (if old(hasChanges) then Some(CollectData(old(data), old(modDirs))) else None)
                && data == old(data) && hasChanges == old(hasChanges) && activeKeyListener == old(activeKeyListener)
      ensures !saveChord ==> saved.None? && modDirs == old(modDirs)
      ensures !saveChord && (old(activeKeyListener).None? || old(activeKeyListener) == Some("")) ==>
                data == old(data) && hasChanges == old(hasChanges) && activeKeyListener == old(activeKeyListener)
      ensures !saveChord && old(activeKeyListener).Some? && old(activeKeyListener) != Some("") && keyCode == EscKeyCode ==>
                data == old(data) && hasChanges == old(hasChanges) && activeKeyListener.None?
      ensures !saveChord && old(activeKeyListener).Some? && old(activeKeyListener) != Some("") && keyCode != EscKeyCode ==>
                data == WithKeyBinding(old(data), old(activeKeyListener).value, IntToString(keyCode))
                && hasChanges && activeKeyListener.None?
      ensures modDirs == old(modDirs)
    {
      if saveChord {
        if hasChanges {
          return Some(CollectData(data, modDirs));
        }
        return None;
      }
      if activeKeyListener.Some? && activeKeyListener.value != "" {
        if keyCode == EscKeyCode {
          activeKeyListener := None;
          return None;
        }
        HandleKeyCapture(activeKeyListener.value, IntToString(keyCode));
      }
      return None;
    }
  }
}
