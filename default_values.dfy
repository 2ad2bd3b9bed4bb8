/** The `useDefaultValues` and `useNestedDefaultValues` hooks of the React sidebar editor: on a
    component's first render they fill in every default whose key the (possibly nested) settings
    object lacks, through the component's `onDataChange` callback, and then mark the data as
    changed. The `initialized` ref makes this happen at most once per mounted component. */
module DefaultValues {
  import opened Wrappers
  import opened JsonValues

  /** One `onDataChange(key, value)` call. */
  datatype Change = Change(key: string, value: Json)

  /** The settings object lacks `key`: it is `undefined` (None) or `null` (None, for the nested
      hook's `!data`), or has no such member. A member holding `null`, `false` or `''` is there. */
  predicate Lacks(data: Option<Object>, key: string) {
    data.None? || key !in data.value
  }

  /** The calls the loop over `Object.entries(defaults)` makes, in order. */
  function Missing(data: Option<Object>, defaults: seq<(string, Json)>): (r: seq<Change>)
    ensures |r| <= |defaults|
    ensures forall c | c in r :: (c.key, c.value) in defaults && Lacks(data, c.key)
    ensures forall e | e in defaults && Lacks(data, e.0) :: Change(e.0, e.1) in r
  {
    if defaults == [] then []
    else
      var last := defaults[|defaults| - 1];
      var before := Missing(data, defaults[..|defaults| - 1]);
      assert forall e | e in defaults :: e in defaults[..|defaults| - 1] || e == last;
      if Lacks(data, last.0) then before + [Change(last.0, last.1)] else before
  }

  /** What the component's `onDataChange` callbacks do with the calls: each sets its member. */
  function Apply(data: Object, changes: seq<Change>): (r: Object)
    ensures r.Keys == data.Keys + set c | c in changes :: c.key
  {
    if changes == [] then data
    else
      var last := changes[|changes| - 1];
      var r := Apply(data, changes[..|changes| - 1])[last.key := last.value];
      assert forall c | c in changes :: c in changes[..|changes| - 1] || c == last;
      r
  }

  /** A member the settings already have, whatever its value, is never overwritten. */
  lemma PresentMembersKept(data: Object, defaults: seq<(string, Json)>, key: string)
    requires key in data
    ensures forall c | c in Missing(Some(data), defaults) :: c.key != key
  {
  }

  /** With no nested object at all, every default is applied, in order. */
  lemma {:induction false} AbsentObjectTakesAllDefaults(defaults: seq<(string, Json)>)
    ensures Missing(None, defaults) == seq(|defaults|, i requires 0 <= i < |defaults| => Change(defaults[i].0, defaults[i].1))
  {
    if defaults != [] {
      AbsentObjectTakesAllDefaults(defaults[..|defaults| - 1]);
    }
  }

  /** Once the calls are applied, every default key is present, so a second run would have
      nothing left to fill in. */
  lemma DefaultsFilledOnce(data: Object, defaults: seq<(string, Json)>)
    ensures Missing(Some(Apply(data, Missing(Some(data), defaults))), defaults) == []
  {
    var filled := Apply(data, Missing(Some(data), defaults));
    assert forall e | e in defaults :: e.0 in filled by {
      forall e | e in defaults ensures e.0 in filled {
        if e.0 !in data {
          assert Change(e.0, e.1) in Missing(Some(data), defaults);
        }
      }
    }
    NothingMissing(filled, defaults);
  }

  /** Nothing is filled in when every default key is present. */
  lemma {:induction false} NothingMissing(data: Object, defaults: seq<(string, Json)>)
    requires forall e | e in defaults :: e.0 in data
    ensures Missing(Some(data), defaults) == []
  {
    if defaults != [] {
      NothingMissing(data, defaults[..|defaults| - 1]);
    }
  }

  /** The `initialized` ref of one mounted component. */
  class DefaultsHook {
    var initialized: bool

    constructor ()
      ensures !initialized
    {
      initialized := false;
    }

    /** The effect of `useNestedDefaultValues(data, defaults, onDataChange, markAsChanged)`:
        `changes` are the `onDataChange` calls in order and `marked` tells whether
        `markAsChanged` was called (it is only when one is given, `canMark`). */
    method UseNestedDefaultValues(data: Option<Object>, defaults: seq<(string, Json)>, canMark: bool)
      returns (changes: seq<Change>, marked: bool)
      modifies this
      ensures initialized
      ensures old(initialized) ==> changes == [] && !marked
      ensures !old(initialized) ==> changes == Missing(data, defaults) && (marked <==> changes != [] && canMark)
    {
      if initialized {
        return [], false;
      }
      initialized := true;
      var hasInitialized := false;
      changes := [];
      var i := 0;
      while i < |defaults|
        invariant 0 <= i <= |defaults|
        invariant changes == Missing(data, defaults[..i])
        invariant hasInitialized <==> changes != []
      {
        var entry := defaults[i];
        if data.None? || entry.0 !in data.value {
          changes := changes + [Change(entry.0, entry.1)];
          hasInitialized := true;
        }
        assert defaults[..i + 1][..i] == defaults[..i];
        i := i + 1;
      }
      assert defaults[..i] == defaults;
      marked := hasInitialized && canMark;
    }

    /** The effect of `useDefaultValues(data, defaults, onDataChange, markAsChanged)`, whose
        settings object is always there. */
    method UseDefaultValues(data: Object, defaults: seq<(string, Json)>, canMark: bool)
      returns (changes: seq<Change>, marked: bool)
      modifies this
      ensures initialized
      ensures old(initialized) ==> changes == [] && !marked
      ensures !old(initialized) ==> changes == Missing(Some(data), defaults) && (marked <==> changes != [] && canMark)
    {
      changes, marked := UseNestedDefaultValues(Some(data), defaults, canMark);
    }
  }

  /** Once a mounted component has rendered, every later render changes nothing, whatever
      data and defaults it is given then: the first render alone fills the defaults. */
  method RunsOncePerMount(hook: DefaultsHook, data: Object, defaults: seq<(string, Json)>, canMark: bool,
                          laterData: Object, laterDefaults: seq<(string, Json)>, laterCanMark: bool)
    returns (first: seq<Change>, second: seq<Change>, markedLater: bool)
    modifies hook
    ensures !old(hook.initialized) ==> first == Missing(Some(data), defaults)
    ensures second == [] && !markedLater && hook.initialized
  {
    var marked: bool;
    first, marked := hook.UseDefaultValues(data, defaults, canMark);
    second, markedLater := hook.UseDefaultValues(laterData, laterDefaults, laterCanMark);
  }
}
