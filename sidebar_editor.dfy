/** The plain-script sidebar editor (`McdevEditor`). The page's form elements are a map from
    element id to value (`dom`): a text box or selector holds a string, a checkbox a boolean,
    and an id that is absent has no element on the page. `loadData` fills the elements from the
    parsed `.mcdev.json`, `collectData` builds the object to save from them. Each of the loops
    over a field list is one run of `RunStage`, whose step is given by a `Stage`. `Number(text)`
    is a parameter `toNumber` (None for `NaN`). */
module SidebarEditor {
  import opened Wrappers
  import opened JsonValues
  import opened Text
  import opened ModDirs

  const TextFields: seq<string> := ["world_name", "world_folder_name", "world_seed", "user_name"]
  const SelectFields: seq<string> := ["world_type", "game_mode"]
  const CheckboxFields: seq<string> :=
    ["reset_world", "auto_join_game", "include_debug_mod", "enable_cheats", "keep_inventory",
     "auto_hot_reload_mods", "do_weather_cycle", "reload_key_global"]
  const ExperimentFields: seq<string> := ["exp_data_driven_biomes", "exp_data_driven_items", "exp_experimental_molang_features"]
  const KeyBindFields: seq<string> := ["reload_key", "reload_world_key", "reload_addon_key", "reload_shaders_key"]
  /** The checkboxes shown ticked when the file does not mention them. */
  const DefaultTrue: seq<string> :=
    ["auto_join_game", "include_debug_mod", "enable_cheats", "keep_inventory", "auto_hot_reload_mods", "do_weather_cycle"]

  /** `id.replace('exp_', '')` for ids whose only `exp_` is a prefix. */
  function RealKey(id: string): (r: string)
    ensures HasExpPrefix(id) ==> "exp_" + r == id
    ensures !HasExpPrefix(id) ==> r == id
  {
    if HasExpPrefix(id) then id[4..] else id
  }

  /** What one step of a field loop does to one member: nothing, set it, delete it, or set it
      only when it is already there (an element that exists). */
  datatype Edit = Keep | Put(v: Json) | Drop | Replace(v: Json)

  /** The member after an edit, given the member before. */
  function EditResult(before: Option<Json>, e: Edit): Option<Json> {
    match e
    case Keep => before
    case Put(v) => Some(v)
    case Drop => None
    case Replace(v) => if before.Some? then Some(v) else None
  }

  function ApplyEdit(m: Object, k: string, e: Edit): Object {
    match e
    case Keep => m
    case Put(v) => m[k := v]
    case Drop => m - {k}
    case Replace(v) => if k in m then m[k := v] else m
  }

  /** `Number(text)` as stored in the saved file: `NaN` is written as `null`. */
  function NumberJson(n: Option<int>): Json {
    if n.Some? then JNum(n.value) else JNull
  }

  /** `String(v)` as a text box shows it. Arrays and objects show as the empty string. */
  function FieldText(v: Json): string {
    match v
    case JStr(s) => s
    case JNum(n) => IntToString(n)
    case JBool(b) => if b then "true" else "false"
    case JNull => "null"
    case _ => ""
  }

  /** The text in the element `id`. */
  function ElementText(dom: Object, id: string): string {
    match Get(dom, id)
    case Some(JStr(s)) => s
    case _ => ""
  }

  /** Whether the checkbox `id` is ticked. */
  predicate Checked(dom: Object, id: string) {
    Get(dom, id) == Some(JBool(true))
  }

  /** The field loops of `loadData` (into the page) and `collectData` (into the saved object). */
  datatype Stage =
    | LoadText(data: Object)
    | LoadSelect(data: Object)
    | LoadCheckbox(data: Object)
    | LoadExperiment(data: Object)
    | LoadKeyBinding(data: Object)
    | CollectText(dom: Object, toNumber: string -> Option<int>)
    | CollectSelect(dom: Object, toNumber: string -> Option<int>)
    | CollectCheckbox(dom: Object)
    | CollectExperiment(dom: Object)
    | CollectKeyBinding(keyBindings: Object)

  /** The member a loop step for `id` writes. */
  function KeyOf(st: Stage, id: string): string {
    if st.CollectExperiment? then RealKey(id) else id
  }

  /** The loop body for `id`. */
  function EditOf(st: Stage, id: string): Edit {
    match st
    case LoadText(data) => LoadTextEdit(data, id)
    case LoadSelect(data) => Replace(JStr(FieldText(Coalesce(Get(data, id), JNum(1)))))
    case LoadCheckbox(data) => LoadCheckboxEdit(data, id)
    case LoadExperiment(data) => Replace(JBool(Truthy(Prop(Get(data, "experiment_options"), RealKey(id)))))
    case LoadKeyBinding(data) => Put(Coalesce(Prop(Get(data, "debug_options"), id), JStr("")))
    case CollectText(dom, toNumber) => CollectTextEdit(dom, toNumber, id)
    case CollectSelect(dom, toNumber) =>
      if id in dom then Put(NumberJson(toNumber(ElementText(dom, id)))) else Keep
    case CollectCheckbox(dom) =>
      if id == "reload_key_global" || id !in dom then Keep else Put(JBool(Checked(dom, id)))
    case CollectExperiment(dom) =>
      if id in dom then Put(JBool(Checked(dom, id))) else Keep
    case CollectKeyBinding(keyBindings) =>
      if id in keyBindings then Put(keyBindings[id]) else Drop
  }

  /** A text box shows the member (`?? ''`), except that the seed shows nothing for `null`. */
  function LoadTextEdit(data: Object, id: string): Edit {
    Replace(JStr(if id == "world_seed" && Get(data, id) == Some(JNull) then ""
                 else FieldText(Coalesce(Get(data, id), JStr("")))))
  }

  /** A checkbox shows the member's truthiness, or its default when the member is missing; the
      global-reload box is read from `debug_options`. */
  function LoadCheckboxEdit(data: Object, id: string): Edit {
    if id == "reload_key_global" then Replace(JBool(Truthy(Prop(Get(data, "debug_options"), id))))
    else Replace(JBool(if id !in data then id in DefaultTrue else Truthy(Get(data, id))))
  }

  /** A text box saves its trimmed text, deleting the member when that is empty; the seed saves
      a number, or `null`. */
  function CollectTextEdit(dom: Object, toNumber: string -> Option<int>, id: string): Edit {
    if id !in dom then Keep
    else
      var val := Trim(ElementText(dom, id));
      if id == "world_seed" then Put(if val == "" then JNull else NumberJson(toNumber(val)))
      else if val != "" then Put(JStr(val))
      else Drop
  }

  /** An edit of `k` changes `k` as `EditResult` says and nothing else. */
  lemma ApplyEditAt(m: Object, k: string, e: Edit, j: string)
    ensures Get(ApplyEdit(m, k, e), j) == if j == k then EditResult(Get(m, k), e) else Get(m, j)
  {
  }

  /** The object after the loop over `ids` (in order) has run. */
  function ApplyAll(m: Object, ids: seq<string>, st: Stage): Object {
    if ids == [] then m
    else ApplyEdit(ApplyAll(m, ids[..|ids| - 1], st), KeyOf(st, ids[|ids| - 1]), EditOf(st, ids[|ids| - 1]))
  }

  /** No two ids of a loop write the same member. */
  predicate KeysDistinct(ids: seq<string>, st: Stage) {
    forall a, b | a in ids && b in ids && KeyOf(st, a) == KeyOf(st, b) :: a == b
  }

  /** One field loop: the loop body for each id of the list, in order. */
  method RunStage(m: Object, ids: seq<string>, st: Stage) returns (r: Object)
    ensures r == ApplyAll(m, ids, st)
  {
    r := m;
    var i := 0;
    while i < |ids|
      invariant 0 <= i <= |ids|
      invariant r == ApplyAll(m, ids[..i], st)
    {
      assert ids[..i + 1][..i] == ids[..i];
      r := ApplyEdit(r, KeyOf(st, ids[i]), EditOf(st, ids[i]));
      i := i + 1;
    }
    assert ids[..i] == ids;
  }

  /** A loop leaves alone every member none of its ids writes. */
  lemma {:induction false} ApplyAllElsewhere(m: Object, ids: seq<string>, st: Stage, k: string)
    requires forall id | id in ids :: KeyOf(st, id) != k
    ensures Get(ApplyAll(m, ids, st), k) == Get(m, k)
  {
    if ids != [] {
      var last := ids[|ids| - 1];
      ApplyAllElsewhere(m, ids[..|ids| - 1], st, k);
      ApplyEditAt(ApplyAll(m, ids[..|ids| - 1], st), KeyOf(st, last), EditOf(st, last), k);
    }
  }

  /** The member written for `id` ends up as the loop body for `id` makes it. */
  lemma {:induction false} ApplyAllAt(m: Object, ids: seq<string>, st: Stage, id: string)
    requires id in ids && KeysDistinct(ids, st)
    ensures Get(ApplyAll(m, ids, st), KeyOf(st, id)) == EditResult(Get(m, KeyOf(st, id)), EditOf(st, id))
  {
    var k := KeyOf(st, id);
    var init := ids[..|ids| - 1];
    var last := ids[|ids| - 1];
    ApplyEditAt(ApplyAll(m, init, st), KeyOf(st, last), EditOf(st, last), k);
    if last == id {
      if id in init {
        ApplyAllAt(m, init, st, id);
      } else {
        ApplyAllElsewhere(m, init, st, k);
      }
    } else {
      assert KeyOf(st, last) != k;
      assert id in init;
      ApplyAllAt(m, init, st, id);
    }
  }

  // ----- the field lists -----

  /** No member is written by two of the field loops that fill the saved object, nor by a loop
      and the members set after them. */
  lemma FieldListsDisjoint()
    ensures forall id | id in TextFields :: id !in SelectFields && id !in CheckboxFields
    ensures forall id | id in SelectFields :: id !in CheckboxFields
    ensures forall id | id in TextFields + SelectFields + CheckboxFields ::
              id != "included_mod_dirs" && id != "debug_options" && id != "experiment_options"
  {
  }

  /** The experiment checkboxes write the members named after them without the prefix. */
  lemma ExperimentKeys(dom: Object)
    ensures KeysDistinct(ExperimentFields, CollectExperiment(dom))
  {
    forall id | id in ExperimentFields ensures HasExpPrefix(id) {
      ExpPrefixes();
    }
    forall a, b | a in ExperimentFields && b in ExperimentFields && RealKey(a) == RealKey(b) ensures a == b {
      assert a == a[..4] + a[4..] && b == b[..4] + b[4..];
    }
  }

  predicate HasExpPrefix(id: string) {
    |id| >= 4 && id[..4] == "exp_"
  }

  /** Every experiment checkbox id starts with `exp_`. */
  lemma ExpPrefixes()
    ensures forall id | id in ExperimentFields :: HasExpPrefix(id)
  {
    assert HasExpPrefix("exp_data_driven_biomes");
    assert HasExpPrefix("exp_data_driven_items");
    assert HasExpPrefix("exp_experimental_molang_features");
  }

  /** The page after `loadData(data)`: the text, select, checkbox and experiment elements. */
  function Loaded(dom: Object, data: Object): Object {
    var d1 := ApplyAll(dom, TextFields, LoadText(data));
    var d2 := ApplyAll(d1, SelectFields, LoadSelect(data));
    var d3 := ApplyAll(d2, CheckboxFields, LoadCheckbox(data));
    ApplyAll(d3, ExperimentFields, LoadExperiment(data))
  }

  /** `collectData()` on the state and the page. */
  function Collected(data: Object, modDirs: seq<ModDir>, keyBindings: Object, dom: Object,
                     toNumber: string -> Option<int>): Object
  {
    var d4 := CollectedFields(data, dom, toNumber)["included_mod_dirs" := EncodeModDirs(modDirs)];
    var d5 := if Truthy(Get(d4, "debug_options")) || |keyBindings| > 0
              then d4["debug_options" := CollectedDebugOptions(Get(d4, "debug_options"), keyBindings, dom)]
              else d4;
    d5["experiment_options" := CollectedExperimentOptions(dom)]
  }

  /** The `experiment_options` written: a fresh object from the experiment checkboxes. */
  function CollectedExperimentOptions(dom: Object): Json {
    JObj(ApplyAll(map[], ExperimentFields, CollectExperiment(dom)))
  }

  /** The saved object after the text, select and checkbox loops. */
  function CollectedFields(data: Object, dom: Object, toNumber: string -> Option<int>): Object {
    var d1 := ApplyAll(data, TextFields, CollectText(dom, toNumber));
    var d2 := ApplyAll(d1, SelectFields, CollectSelect(dom, toNumber));
    ApplyAll(d2, CheckboxFields, CollectCheckbox(dom))
  }

  /** The members written after the field loops leave the others as the loops made them. */
  lemma CollectedOutside(data: Object, modDirs: seq<ModDir>, keyBindings: Object, dom: Object,
                         toNumber: string -> Option<int>, k: string)
    requires k != "included_mod_dirs" && k != "debug_options" && k != "experiment_options"
    ensures Get(Collected(data, modDirs, keyBindings, dom, toNumber), k) == Get(CollectedFields(data, dom, toNumber), k)
  {
  }

  /** A text box's member is what the text loop made it. */
  lemma CollectedFieldsText(data: Object, dom: Object, toNumber: string -> Option<int>, id: string)
    requires id in TextFields
    ensures Get(CollectedFields(data, dom, toNumber), id) == EditResult(Get(data, id), EditOf(CollectText(dom, toNumber), id))
  {
    FieldListsDisjoint();
    var d1 := ApplyAll(data, TextFields, CollectText(dom, toNumber));
    ApplyAllAt(data, TextFields, CollectText(dom, toNumber), id);
    var d2 := ApplyAll(d1, SelectFields, CollectSelect(dom, toNumber));
    ApplyAllElsewhere(d1, SelectFields, CollectSelect(dom, toNumber), id);
    ApplyAllElsewhere(d2, CheckboxFields, CollectCheckbox(dom), id);
  }

  /** The `debug_options` written: a copy of the loaded one (or a fresh object) with each key
      binding and the global-reload checkbox. */
  function CollectedDebugOptions(before: Option<Json>, keyBindings: Object, dom: Object): Json {
    JObj(ApplyAll(Spread(before), KeyBindFields, CollectKeyBinding(keyBindings))["reload_key_global" := JBool(Checked(dom, "reload_key_global"))])
  }

  // ----- what the field loops promise -----

  /** The text boxes write none of the members set after the loops. */
  lemma TextFieldKey(id: string)
    requires id in TextFields
    ensures id != "included_mod_dirs" && id != "debug_options" && id != "experiment_options"
  {
  }

  /** The loops leave a text box other than the seed holding its trimmed text, or deleted. */
  lemma CollectedFieldsPlainText(data: Object, dom: Object, toNumber: string -> Option<int>, id: string)
    requires id in TextFields && id != "world_seed" && id in dom
    ensures var v := Trim(ElementText(dom, id));
            Get(CollectedFields(data, dom, toNumber), id) == if v != "" then Some(JStr(v)) else None
  {
    CollectedFieldsText(data, dom, toNumber, id);
    PlainTextEdit(Get(data, id), dom, toNumber, id);
  }

  lemma PlainTextEdit(before: Option<Json>, dom: Object, toNumber: string -> Option<int>, id: string)
    requires id != "world_seed" && id in dom
    ensures var v := Trim(ElementText(dom, id));
            EditResult(before, EditOf(CollectText(dom, toNumber), id)) == if v != "" then Some(JStr(v)) else None
  {
  }

  /** The loops leave the seed `null` when blank or not a number, otherwise the number. */
  lemma CollectedFieldsSeed(data: Object, dom: Object, toNumber: string -> Option<int>)
    requires "world_seed" in dom
    ensures var v := Trim(ElementText(dom, "world_seed"));
            Get(CollectedFields(data, dom, toNumber), "world_seed")
            == Some(if v == "" || toNumber(v).None? then JNull else JNum(toNumber(v).value))
  {
    CollectedFieldsText(data, dom, toNumber, "world_seed");
  }

  /** A text box other than the seed saves its trimmed text when that is not empty, and
      deletes the member when it is. */
  lemma CollectedTextField(data: Object, modDirs: seq<ModDir>, keyBindings: Object, dom: Object,
                           toNumber: string -> Option<int>, id: string)
    requires id in TextFields && id != "world_seed" && id in dom
    ensures var v := Trim(ElementText(dom, id));
            Get(Collected(data, modDirs, keyBindings, dom, toNumber), id) == if v != "" then Some(JStr(v)) else None
  {
    TextFieldKey(id);
    CollectedOutside(data, modDirs, keyBindings, dom, toNumber, id);
    CollectedFieldsPlainText(data, dom, toNumber, id);
  }

  /** A ticked checkbox other than the global-reload one saves `true`, an unticked one `false`. */
  lemma CollectedCheckbox(data: Object, modDirs: seq<ModDir>, keyBindings: Object, dom: Object,
                          toNumber: string -> Option<int>, id: string)
    requires id in CheckboxFields && id != "reload_key_global" && id in dom
    ensures Get(Collected(data, modDirs, keyBindings, dom, toNumber), id) == Some(JBool(Checked(dom, id)))
  {
    assert id != "included_mod_dirs" && id != "debug_options" && id != "experiment_options";
    CollectedOutside(data, modDirs, keyBindings, dom, toNumber, id);
    CollectedFieldsCheckbox(data, dom, toNumber, id);
    var d1 := ApplyAll(data, TextFields, CollectText(dom, toNumber));
    var d2 := ApplyAll(d1, SelectFields, CollectSelect(dom, toNumber));
    CheckboxEdit(Get(d2, id), dom, id);
  }

  /** A checkbox's member is what the checkbox loop made it. */
  lemma CollectedFieldsCheckbox(data: Object, dom: Object, toNumber: string -> Option<int>, id: string)
    requires id in CheckboxFields
    ensures var d1 := ApplyAll(data, TextFields, CollectText(dom, toNumber));
            var d2 := ApplyAll(d1, SelectFields, CollectSelect(dom, toNumber));
            Get(CollectedFields(data, dom, toNumber), id) == EditResult(Get(d2, id), EditOf(CollectCheckbox(dom), id))
  {
    var st := CollectCheckbox(dom);
    var d1 := ApplyAll(data, TextFields, CollectText(dom, toNumber));
    var d2 := ApplyAll(d1, SelectFields, CollectSelect(dom, toNumber));
    assert KeysDistinct(CheckboxFields, st) by {
      forall a, b | a in CheckboxFields && b in CheckboxFields && KeyOf(st, a) == KeyOf(st, b) ensures a == b {
      }
    }
    ApplyAllAt(d2, CheckboxFields, st, id);
  }

  lemma CheckboxEdit(before: Option<Json>, dom: Object, id: string)
    requires id != "reload_key_global" && id in dom
    ensures EditResult(before, EditOf(CollectCheckbox(dom), id)) == Some(JBool(Checked(dom, id)))
  {
  }

  /** The `change` listener of `bindEvents` on the auto-hot-reload box: ticking it ticks the
      debug-mod box too, when the page has one. */
  predicate AutoChecksDebugMod(dom: Object, id: string, value: Json) {
    id == "auto_hot_reload_mods" && value == JBool(true) && "include_debug_mod" in dom
  }

  /** The page after the user leaves `value` in the element `id`, with the listeners that
      change other elements run. */
  function Edited(dom: Object, id: string, value: Json): (r: Object)
    ensures r.Keys == dom.Keys + {id} && r[id] == value
    ensures forall k | k in dom && k != id && k != "include_debug_mod" :: r[k] == dom[k]
    ensures "include_debug_mod" in dom && id != "include_debug_mod" ==>
              r["include_debug_mod"] == if AutoChecksDebugMod(dom, id, value) then JBool(true) else dom["include_debug_mod"]
  {
    if AutoChecksDebugMod(dom, id, value) then dom[id := value]["include_debug_mod" := JBool(true)]
    else dom[id := value]
  }

  /** Ticking auto hot-reload makes the next save store both boxes ticked, whatever the
      debug-mod box showed before. */
  lemma AutoHotReloadSavesDebugMod(data: Object, modDirs: seq<ModDir>, keyBindings: Object, dom: Object,
                                   toNumber: string -> Option<int>)
    requires "include_debug_mod" in dom
    ensures var saved := Collected(data, modDirs, keyBindings, Edited(dom, "auto_hot_reload_mods", JBool(true)), toNumber);
            Get(saved, "include_debug_mod") == Some(JBool(true)) && Get(saved, "auto_hot_reload_mods") == Some(JBool(true))
  {
    var edited := Edited(dom, "auto_hot_reload_mods", JBool(true));
    CollectedCheckbox(data, modDirs, keyBindings, edited, toNumber, "include_debug_mod");
    CollectedCheckbox(data, modDirs, keyBindings, edited, toNumber, "auto_hot_reload_mods");
  }

  /** The elements whose edits `setupChangeDetection` listens to. */
  predicate WatchedField(id: string) {
    id in TextFields || id in SelectFields || id in CheckboxFields || id in ExperimentFields
  }

  /** Text typed into a text field (other than the seed) is what the next save stores under
      that field, trimmed, or nothing when it is blank. */
  lemma EditedTextCollected(data: Object, modDirs: seq<ModDir>, keyBindings: Object, dom: Object,
                            toNumber: string -> Option<int>, id: string, text: string)
    requires id in TextFields && id != "world_seed"
    ensures var v := Trim(text);
            Get(Collected(data, modDirs, keyBindings, Edited(dom, id, JStr(text)), toNumber), id)
            == if v != "" then Some(JStr(v)) else None
  {
    var edited := Edited(dom, id, JStr(text));
    assert ElementText(edited, id) == text;
    CollectedTextField(data, modDirs, keyBindings, edited, toNumber, id);
  }

  /** The seed box saves `null` when blank or not a number, otherwise the number. */
  lemma CollectedSeed(data: Object, modDirs: seq<ModDir>, keyBindings: Object, dom: Object,
                      toNumber: string -> Option<int>)
    requires "world_seed" in dom
    ensures var v := Trim(ElementText(dom, "world_seed"));
            Get(Collected(data, modDirs, keyBindings, dom, toNumber), "world_seed")
            == Some(if v == "" || toNumber(v).None? then JNull else JNum(toNumber(v).value))
  {
    CollectedOutside(data, modDirs, keyBindings, dom, toNumber, "world_seed");
    CollectedFieldsSeed(data, dom, toNumber);
  }

  /** Each experiment checkbox on the page gives the member named without its `exp_` prefix. */
  lemma ExperimentOption(dom: Object, id: string)
    requires id in ExperimentFields
    ensures Get(CollectedExperimentOptions(dom).fields, RealKey(id)) == if id in dom then Some(JBool(Checked(dom, id))) else None
  {
    ExperimentOptionEdit(dom, id);
    ExperimentOptionIs(dom, id);
  }

  lemma ExperimentOptionEdit(dom: Object, id: string)
    requires id in ExperimentFields
    ensures Get(CollectedExperimentOptions(dom).fields, RealKey(id)) == EditResult(None, EditOf(CollectExperiment(dom), id))
  {
    ExperimentKeys(dom);
    ApplyAllAt(map[], ExperimentFields, CollectExperiment(dom), id);
  }

  lemma ExperimentOptionIs(dom: Object, id: string)
    ensures EditResult(None, EditOf(CollectExperiment(dom), id)) == if id in dom then Some(JBool(Checked(dom, id))) else None
  {
  }

  /** `experiment_options` is always written, with one member per experiment checkbox on the
      page, named without the `exp_` prefix. */
  lemma CollectedExperiments(data: Object, modDirs: seq<ModDir>, keyBindings: Object, dom: Object,
                             toNumber: string -> Option<int>, id: string)
    requires id in ExperimentFields
    ensures var saved := Collected(data, modDirs, keyBindings, dom, toNumber);
            && Get(saved, "experiment_options").Some? && Get(saved, "experiment_options").value.JObj?
            && Get(Get(saved, "experiment_options").value.fields, RealKey(id))
               == if id in dom then Some(JBool(Checked(dom, id))) else None
  {
    ExperimentOption(dom, id);
  }

  /** The mod directory rows are saved as their stored form, and the text boxes do not touch
      them. */
  lemma CollectedModDirs(data: Object, modDirs: seq<ModDir>, keyBindings: Object, dom: Object,
                         toNumber: string -> Option<int>)
    ensures Get(Collected(data, modDirs, keyBindings, dom, toNumber), "included_mod_dirs") == Some(EncodeModDirs(modDirs))
  {
  }

  /** A checkbox the file does not mention is shown ticked exactly when it is one of the
      default-on options; one it mentions is ticked when the value is truthy. */
  lemma LoadedCheckbox(dom: Object, data: Object, id: string)
    requires id in CheckboxFields && id != "reload_key_global" && id in dom
    ensures Get(Loaded(dom, data), id) == Some(JBool(if id !in data then id in DefaultTrue else Truthy(Get(data, id))))
  {
    LoadedAt(dom, data, id, CheckboxFields, LoadCheckbox(data));
  }

  /** The global-reload checkbox is read from `debug_options`, not from the top level. */
  lemma LoadedReloadKeyGlobal(dom: Object, data: Object)
    requires "reload_key_global" in dom
    ensures Get(Loaded(dom, data), "reload_key_global")
            == Some(JBool(Truthy(Prop(Get(data, "debug_options"), "reload_key_global"))))
  {
    LoadedAt(dom, data, "reload_key_global", CheckboxFields, LoadCheckbox(data));
  }

  /** An experiment checkbox shows the truthiness of its option, and is unticked when the file
      has no `experiment_options`. */
  lemma LoadedExperiment(dom: Object, data: Object, id: string)
    requires id in ExperimentFields && id in dom
    ensures Get(Loaded(dom, data), id) == Some(JBool(Truthy(Prop(Get(data, "experiment_options"), RealKey(id)))))
    ensures "experiment_options" !in data ==> Get(Loaded(dom, data), id) == Some(JBool(false))
  {
    LoadedAt(dom, data, id, ExperimentFields, LoadExperiment(data));
  }

  /** A text box shows the member's text, and the seed shows nothing for `null`. */
  lemma LoadedText(dom: Object, data: Object, id: string)
    requires id in TextFields && id in dom
    ensures Get(Loaded(dom, data), id) == Some(JStr(FieldText(Coalesce(Get(data, id), JStr("")))))
            || (id == "world_seed" && Get(data, id) == Some(JNull) && Get(Loaded(dom, data), id) == Some(JStr("")))
  {
    LoadedAt(dom, data, id, TextFields, LoadText(data));
  }

  /** The element `id` of the loop `ids` of `loadData` holds what that loop's step puts there,
      whatever the other loops do. */
  lemma LoadedAt(dom: Object, data: Object, id: string, ids: seq<string>, st: Stage)
    requires id in dom
    requires (ids == TextFields && st == LoadText(data)) || (ids == SelectFields && st == LoadSelect(data))
             || (ids == CheckboxFields && st == LoadCheckbox(data)) || (ids == ExperimentFields && st == LoadExperiment(data))
    requires id in ids
    ensures Get(Loaded(dom, data), id) == EditResult(Some(dom[id]), EditOf(st, id))
  {
    FieldListsDisjoint();
    assert forall x | x in ExperimentFields :: x !in TextFields + SelectFields + CheckboxFields;
    var d1 := ApplyAll(dom, TextFields, LoadText(data));
    var d2 := ApplyAll(d1, SelectFields, LoadSelect(data));
    var d3 := ApplyAll(d2, CheckboxFields, LoadCheckbox(data));
    if ids == TextFields {
      ApplyAllAt(dom, TextFields, LoadText(data), id);
    } else {
      ApplyAllElsewhere(dom, TextFields, LoadText(data), id);
    }
    if ids == SelectFields {
      ApplyAllAt(d1, SelectFields, LoadSelect(data), id);
    } else {
      ApplyAllElsewhere(d1, SelectFields, LoadSelect(data), id);
    }
    if ids == CheckboxFields {
      ApplyAllAt(d2, CheckboxFields, LoadCheckbox(data), id);
    } else {
      ApplyAllElsewhere(d2, CheckboxFields, LoadCheckbox(data), id);
    }
    if ids == ExperimentFields {
      ApplyAllAt(d3, ExperimentFields, LoadExperiment(data), id);
    } else {
      ApplyAllElsewhere(d3, ExperimentFields, LoadExperiment(data), id);
    }
  }

  /** Saving right after loading keeps a text member that is already a trimmed, non-empty
      string. */
  lemma LoadThenCollectText(dom: Object, data: Object, modDirs: seq<ModDir>, keyBindings: Object,
                            toNumber: string -> Option<int>, id: string, s: string)
    requires id in TextFields && id != "world_seed" && id in dom
    requires Get(data, id) == Some(JStr(s)) && s != "" && Trim(s) == s
    ensures Get(Collected(data, modDirs, keyBindings, Loaded(dom, data), toNumber), id) == Some(JStr(s))
  {
    LoadedText(dom, data, id);
    CollectedTextField(data, modDirs, keyBindings, Loaded(dom, data), toNumber, id);
  }

  /** Saving right after loading keeps the mod directory rows, provided no path is empty. */
  lemma LoadThenCollectModDirs(dom: Object, data: Object, keyBindings: Object, toNumber: string -> Option<int>)
    requires var rows := ParseModDirs(Get(data, "included_mod_dirs"));
             forall i | 0 <= i < |rows| :: rows[i].path != ""
    ensures var rows := ParseModDirs(Get(data, "included_mod_dirs"));
            ParseModDirs(Get(Collected(data, rows, keyBindings, Loaded(dom, data), toNumber), "included_mod_dirs")) == rows
  {
    ParseModDirsNormalises(Get(data, "included_mod_dirs"));
  }

  // ----- escapeHtml -----

  /** `s.replace(/c/g, rep)` */
  function ReplaceAll(s: string, c: char, rep: string): string {
    if s == [] then [] else (if s[0] == c then rep else [s[0]]) + ReplaceAll(s[1..], c, rep)
  }

  /** `escapeHtml(str)`: `&`, `<`, `>` and `"` replaced, in that order. */
  function EscapeHtml(s: string): string {
    ReplaceAll(ReplaceAll(ReplaceAll(ReplaceAll(s, '&', "&amp;"), '<', "&lt;"), '>', "&gt;"), '"', "&quot;")
  }

  /** The escape of one character. */
  function EscapeChar(c: char): string {
    if c == '&' then "&amp;" else if c == '<' then "&lt;" else if c == '>' then "&gt;"
    else if c == '"' then "&quot;" else [c]
  }

  /** Each character escaped on its own, the results put together. */
  function EscapeEach(s: string): string {
    if s == [] then [] else EscapeChar(s[0]) + EscapeEach(s[1..])
  }

  lemma {:induction false} ReplaceAllAppend(a: string, b: string, c: char, rep: string)
    ensures ReplaceAll(a + b, c, rep) == ReplaceAll(a, c, rep) + ReplaceAll(b, c, rep)
  {
    if a != [] {
      var head := if a[0] == c then rep else [a[0]];
      assert (a + b)[0] == a[0] && (a + b)[1..] == a[1..] + b;
      assert ReplaceAll(a + b, c, rep) == head + ReplaceAll(a[1..] + b, c, rep);
      ReplaceAllAppend(a[1..], b, c, rep);
      var x, y := ReplaceAll(a[1..], c, rep), ReplaceAll(b, c, rep);
      assert ReplaceAll(a, c, rep) == head + x;
      assert head + (x + y) == (head + x) + y;
    } else {
      assert a + b == b;
    }
  }

  lemma ReplaceAllSingle(c: char, x: char, rep: string)
    ensures ReplaceAll([c], x, rep) == if c == x then rep else [c]
  {
    assert [c][1..] == [];
    var head := if c == x then rep else [c];
    assert head + [] == head;
  }

  /** Replacing a character that does not occur changes nothing. */
  lemma {:induction false} ReplaceAllAbsent(s: string, c: char, rep: string)
    requires c !in s
    ensures ReplaceAll(s, c, rep) == s
  {
    if s != [] {
      ReplaceAllAbsent(s[1..], c, rep);
    }
  }

  /** Because `&` goes first, no escape is escaped again: the four replacements together
      escape each character exactly once. */
  lemma {:induction false} EscapeHtmlIsEscapeEach(s: string)
    ensures EscapeHtml(s) == EscapeEach(s)
  {
    if s != [] {
      var c := [s[0]];
      assert s == c + s[1..];
      ReplaceAllAppend(c, s[1..], '&', "&amp;");
      var a1 := ReplaceAll(c, '&', "&amp;");
      var b1 := ReplaceAll(s[1..], '&', "&amp;");
      ReplaceAllAppend(a1, b1, '<', "&lt;");
      var a2 := ReplaceAll(a1, '<', "&lt;");
      var b2 := ReplaceAll(b1, '<', "&lt;");
      ReplaceAllAppend(a2, b2, '>', "&gt;");
      var a3 := ReplaceAll(a2, '>', "&gt;");
      var b3 := ReplaceAll(b2, '>', "&gt;");
      ReplaceAllAppend(a3, b3, '"', "&quot;");
      EscapeOneChar(s[0]);
      EscapeHtmlIsEscapeEach(s[1..]);
    }
  }

  lemma EscapeOneChar(c: char)
    ensures ReplaceAll(ReplaceAll(ReplaceAll(ReplaceAll([c], '&', "&amp;"), '<', "&lt;"), '>', "&gt;"), '"', "&quot;")
            == EscapeChar(c)
  {
    ReplaceAllSingle(c, '&', "&amp;");
    if c == '&' {
      ReplacedAlready("&amp;");
    } else {
      ReplaceAllSingle(c, '<', "&lt;");
      if c == '<' {
        ReplacedAlready("&lt;");
      } else {
        ReplaceAllSingle(c, '>', "&gt;");
        if c == '>' {
          ReplacedAlready("&gt;");
        } else {
          ReplaceAllSingle(c, '"', "&quot;");
        }
      }
    }
  }

  /** An entity is left alone by the replacements after the one that made it. */
  lemma ReplacedAlready(e: string)
    requires e == "&amp;" || e == "&lt;" || e == "&gt;"
    ensures ReplaceAll(ReplaceAll(ReplaceAll(e, '<', "&lt;"), '>', "&gt;"), '"', "&quot;") == e
    ensures ReplaceAll(ReplaceAll(e, '>', "&gt;"), '"', "&quot;") == e
    ensures ReplaceAll(e, '"', "&quot;") == e
  {
    assert '<' !in e && '>' !in e && '"' !in e;
    ReplaceAllAbsent(e, '<', "&lt;");
    ReplaceAllAbsent(e, '>', "&gt;");
    ReplaceAllAbsent(e, '"', "&quot;");
  }

  /** The escaped text has no `<`, `>` or `"` left to be read as markup. */
  lemma EscapedHasNoMarkup(s: string)
    ensures var r := EscapeHtml(s); '<' !in r && '>' !in r && '"' !in r
  {
    EscapeHtmlIsEscapeEach(s);
    EscapeEachHasNoMarkup(s);
  }

  lemma {:induction false} EscapeEachHasNoMarkup(s: string)
    ensures var r := EscapeEach(s); '<' !in r && '>' !in r && '"' !in r
  {
    if s != [] {
      EscapeEachHasNoMarkup(s[1..]);
      var e := EscapeChar(s[0]);
      assert '<' !in e && '>' !in e && '"' !in e;
    }
  }

  /** Reading the entities back. */
  function Unescape(t: string): string {
    if t == [] then []
    else if StartsWith(t, "&amp;") then "&" + Unescape(t[5..])
    else if StartsWith(t, "&lt;") then "<" + Unescape(t[4..])
    else if StartsWith(t, "&gt;") then ">" + Unescape(t[4..])
    else if StartsWith(t, "&quot;") then "\"" + Unescape(t[6..])
    else [t[0]] + Unescape(t[1..])
  }

  predicate StartsWith(t: string, p: string) {
    |p| <= |t| && t[..|p|] == p
  }

  /** The escaped text reads back as the original: no two strings escape alike. */
  lemma {:induction false} UnescapeEscapeHtml(s: string)
    ensures Unescape(EscapeHtml(s)) == s
  {
    EscapeHtmlIsEscapeEach(s);
    UnescapeEscapeEach(s);
  }

  lemma {:induction false} UnescapeEscapeEach(s: string)
    ensures Unescape(EscapeEach(s)) == s
  {
    if s != [] {
      UnescapeStep(s[0], EscapeEach(s[1..]));
      UnescapeEscapeEach(s[1..]);
      assert s == [s[0]] + s[1..];
    }
  }

  /** An escaped character reads back as itself, whatever follows it. */
  lemma UnescapeStep(c: char, rest: string)
    ensures Unescape(EscapeChar(c) + rest) == [c] + Unescape(rest)
  {
    var e := EscapeChar(c);
    var t := e + rest;
    assert t[..|e|] == e && t[|e|..] == rest;
    if c == '&' {
      assert StartsWith(t, "&amp;");
    } else if c == '<' {
      Differs(t, "&amp;", 1);
      assert StartsWith(t, "&lt;");
    } else if c == '>' {
      Differs(t, "&amp;", 1);
      Differs(t, "&lt;", 1);
      assert StartsWith(t, "&gt;");
    } else if c == '"' {
      Differs(t, "&amp;", 1);
      Differs(t, "&lt;", 1);
      Differs(t, "&gt;", 1);
      assert StartsWith(t, "&quot;");
    } else {
      Differs(t, "&amp;", 0);
      Differs(t, "&lt;", 0);
      Differs(t, "&gt;", 0);
      Differs(t, "&quot;", 0);
    }
  }

  lemma Differs(t: string, p: string, i: nat)
    requires i < |p| && i < |t| && t[i] != p[i]
    ensures !StartsWith(t, p)
  {
    if |p| <= |t| {
      assert t[..|p|][i] != p[i];
    }
  }

  // ----- the editor -----

  /** `{ code: keyCode, ... }` of the key that was pressed. */
  const EscKeyCode := 27

  class McdevEditor {
    var data: Object
    var modDirs: seq<ModDir>
    var keyBindings: Object
    var hasChanges: bool
    var activeKeyListener: Option<string>
    var dom: Object

    /** The editor over a page whose elements hold `page`. */
    constructor (page: Object)
      ensures data == map[] && modDirs == [] && keyBindings == map[] && !hasChanges
      ensures activeKeyListener.None? && dom == page
    {
      data := map[];
      modDirs := [];
      keyBindings := map[];
      hasChanges := false;
      activeKeyListener := None;
      dom := page;
    }

    /** `markAsChanged()`: sets the flag (and shows the save button) only when it was clear. */
    method MarkAsChanged()
      modifies this
      ensures hasChanges
      ensures data == old(data) && modDirs == old(modDirs) && keyBindings == old(keyBindings)
      ensures activeKeyListener == old(activeKeyListener) && dom == old(dom)
    {
      if !hasChanges {
        hasChanges := true;
      }
    }

    /** The user edits the element `id` of the page, which then holds `value` (typed text, a
        chosen option or a tick). Ticking auto hot-reload also ticks the debug-mod box, and the
        listeners of `setupChangeDetection` mark the change for the watched fields only. */
    method EditField(id: string, value: Json)
      modifies this
      ensures dom == Edited(old(dom), id, value)
      ensures hasChanges == (old(hasChanges) || WatchedField(id))
      ensures data == old(data) && modDirs == old(modDirs) && keyBindings == old(keyBindings)
      ensures activeKeyListener == old(activeKeyListener)
    {
      dom := dom[id := value];
      if id == "auto_hot_reload_mods" && value == JBool(true) && "include_debug_mod" in dom {
        dom := dom["include_debug_mod" := JBool(true)];
      }
      if WatchedField(id) {
        MarkAsChanged();
      }
    }

    /** `loadData(data)`: the state takes the file, the rows its directory list, the elements
        and key bindings their values. */
    method LoadData(newData: Object)
      modifies this
      ensures data == newData && modDirs == ParseModDirs(Get(newData, "included_mod_dirs"))
      ensures dom == Loaded(old(dom), newData)
      ensures keyBindings == ApplyAll(old(keyBindings), KeyBindFields, LoadKeyBinding(newData))
      ensures hasChanges == old(hasChanges) && activeKeyListener == old(activeKeyListener)
    {
      data := newData;
      modDirs := ParseModDirs(Get(newData, "included_mod_dirs"));
      var page := RunStage(dom, TextFields, LoadText(newData));
      page := RunStage(page, SelectFields, LoadSelect(newData));
      page := RunStage(page, CheckboxFields, LoadCheckbox(newData));
      page := RunStage(page, ExperimentFields, LoadExperiment(newData));
      dom := page;
      var bindings := RunStage(keyBindings, KeyBindFields, LoadKeyBinding(newData));
      keyBindings := bindings;
    }

    /** `collectData()`: the object a save writes. */
    method CollectData(toNumber: string -> Option<int>) returns (r: Object)
      ensures r == Collected(data, modDirs, keyBindings, dom, toNumber)
    {
      r := RunStage(data, TextFields, CollectText(dom, toNumber));
      r := RunStage(r, SelectFields, CollectSelect(dom, toNumber));
      r := RunStage(r, CheckboxFields, CollectCheckbox(dom));
      r := r["included_mod_dirs" := EncodeModDirs(modDirs)];
      if Truthy(Get(r, "debug_options")) || |keyBindings| > 0 {
        var debugOptions := RunStage(Spread(Get(r, "debug_options")), KeyBindFields, CollectKeyBinding(keyBindings));
        debugOptions := debugOptions["reload_key_global" := JBool(Checked(dom, "reload_key_global"))];
        r := r["debug_options" := JObj(debugOptions)];
      }
      var expOptions := RunStage(map[], ExperimentFields, CollectExperiment(dom));
      r := r["experiment_options" := JObj(expOptions)];
    }

    /** The `init` message with the parsed file: it is loaded and nothing is unsaved; the
        result tells whether a first save is due. */
    method OnInit(content: Object, needsInitialSave: bool) returns (saveDue: bool)
      modifies this
      ensures data == content && modDirs == ParseModDirs(Get(content, "included_mod_dirs"))
      ensures dom == Loaded(old(dom), content)
      ensures keyBindings == ApplyAll(old(keyBindings), KeyBindFields, LoadKeyBinding(content))
      ensures !hasChanges && saveDue == needsInitialSave && activeKeyListener == old(activeKeyListener)
    {
      LoadData(content);
      hasChanges := false;
      saveDue := needsInitialSave;
    }

    /** The `saved` message. */
    method OnSaved()
      modifies this
      ensures !hasChanges
      ensures data == old(data) && modDirs == old(modDirs) && keyBindings == old(keyBindings)
      ensures activeKeyListener == old(activeKeyListener) && dom == old(dom)
    {
      hasChanges := false;
    }

    /** `handleFolderSelected(index, path)` */
    method HandleFolderSelected(index: int, path: string)
      modifies this
      ensures modDirs == FolderSelected(old(modDirs), index, path) && hasChanges
      ensures data == old(data) && keyBindings == old(keyBindings)
      ensures activeKeyListener == old(activeKeyListener) && dom == old(dom)
    {
      if index == -1 {
        modDirs := modDirs + [ModDir(path, true)];
      } else if 0 <= index < |modDirs| {
        modDirs := modDirs[index := modDirs[index].(path := path)];
      }
      MarkAsChanged();
    }

    /** The path box of row `index`. */
    method OnRowPath(index: int, path: string)
      requires 0 <= index < |modDirs|
      modifies this
      ensures modDirs == WithPath(old(modDirs), index, path) && hasChanges
      ensures data == old(data) && keyBindings == old(keyBindings)
      ensures activeKeyListener == old(activeKeyListener) && dom == old(dom)
    {
      modDirs := modDirs[index := modDirs[index].(path := path)];
      MarkAsChanged();
    }

    /** The hot-reload box of row `index`. */
    method OnRowHotReload(index: int, checked: bool)
      requires 0 <= index < |modDirs|
      modifies this
      ensures modDirs == old(modDirs)[index := ModDir(old(modDirs)[index].path, checked)] && hasChanges
      ensures data == old(data) && keyBindings == old(keyBindings)
      ensures activeKeyListener == old(activeKeyListener) && dom == old(dom)
    {
      modDirs := modDirs[index := modDirs[index].(hotReload := checked)];
      MarkAsChanged();
    }

    /** The delete button of row `index`: `splice(index, 1)`. */
    method OnRowDelete(index: int)
      requires 0 <= index < |modDirs|
      modifies this
      ensures modDirs == RemoveDir(old(modDirs), index) && hasChanges
      ensures data == old(data) && keyBindings == old(keyBindings)
      ensures activeKeyListener == old(activeKeyListener) && dom == old(dom)
    {
      modDirs := modDirs[..index] + modDirs[index + 1..];
      MarkAsChanged();
    }

    /** `startKeyListen(key)`: a capture under way is stopped first. */
    method StartKeyListen(key: string)
      modifies this
      ensures activeKeyListener == Some(key)
      ensures data == old(data) && modDirs == old(modDirs) && keyBindings == old(keyBindings)
      ensures hasChanges == old(hasChanges) && dom == old(dom)
    {
      activeKeyListener := Some(key);
    }

    /** `handleGlobalKeydown(e)`. `saveChord` is Ctrl or Cmd with `s`, which saves whether or
        not anything changed; `saved` is the object posted for saving, if any. */
    method HandleGlobalKeydown(saveChord: bool, keyCode: int, toNumber: string -> Option<int>)
      returns (saved: Option<Object>)
      modifies this
      ensures data == old(data) && modDirs == old(modDirs) && dom == old(dom)
      ensures saveChord ==> && saved == Some(Collected(data, modDirs, keyBindings, dom, toNumber))
                            && keyBindings == old(keyBindings) && hasChanges == old(hasChanges)
                            && activeKeyListener == old(activeKeyListener)
      ensures !saveChord ==> saved.None?
      ensures !saveChord && (old(activeKeyListener).None? || old(activeKeyListener) == Some("")) ==>
                keyBindings == old(keyBindings) && hasChanges == old(hasChanges) && activeKeyListener == old(activeKeyListener)
      ensures !saveChord && old(activeKeyListener).Some? && old(activeKeyListener) != Some("") && keyCode == EscKeyCode ==>
                keyBindings == old(keyBindings) && hasChanges == old(hasChanges) && activeKeyListener.None?
      ensures !saveChord && old(activeKeyListener).Some? && old(activeKeyListener) != Some("") && keyCode != EscKeyCode ==>
                && keyBindings == old(keyBindings)[old(activeKeyListener).value := JStr(IntToString(keyCode))]
                && hasChanges && activeKeyListener.None?
    {
      if saveChord {
        var posted := CollectData(toNumber);
        return Some(posted);
      }
      if activeKeyListener.None? || activeKeyListener.value == "" {
        return None;
      }
      if keyCode == EscKeyCode {
        activeKeyListener := None;
        return None;
      }
      keyBindings := keyBindings[activeKeyListener.value := JStr(IntToString(keyCode))];
      activeKeyListener := None;
      MarkAsChanged();
      return None;
    }
  }
}
