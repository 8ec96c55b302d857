/**
 * Selection helpers shared by the service pages: a run-time test for string
 * arrays, the multi-select dropdown update, dropdown-item defaulting, and the
 * builders that turn a list into a text map or a DAML set.
 */
module Common {
  import opened Wrappers
  import Seqs

  /** The JavaScript values a dropdown can report as its selection. */
  datatype JsValue =
    | JsString(s: string)
    | JsNumber(n: real)
    | JsBool(b: bool)
    | JsNull
    | JsUndefined
    | JsObject
    | JsArray(elems: seq<JsValue>)

  /**
   * `elems.reduce((acc, elem) => acc && typeof elem === 'string', acc)`: the fold
   * visits every element and keeps `acc` only while each is a string.
   */
  function AllStringsFrom(acc: bool, elems: seq<JsValue>): (r: bool)
    ensures r <==> acc && forall i :: 0 <= i < |elems| ==> elems[i].JsString?
  {
    if elems == [] then acc
    else
      assert forall i :: 1 <= i < |elems| ==> elems[i] == elems[1..][i - 1];
      AllStringsFrom(acc && elems[0].JsString?, elems[1..])
  }

  /** `isStringArray`: an array all of whose elements are strings; [] counts. */
  function IsStringArray(v: JsValue): (r: bool)
    ensures r <==> v.JsArray? && forall i :: 0 <= i < |v.elems| ==> v.elems[i].JsString?
    ensures v == JsArray([]) ==> r
  {
    if v.JsArray? then AllStringsFrom(true, v.elems) else false
  }

  /** The strings held by an array that passed `isStringArray`. */
  function Strings(elems: seq<JsValue>): (r: seq<string>)
    requires forall i :: 0 <= i < |elems| ==> elems[i].JsString?
    ensures |r| == |elems| && forall i :: 0 <= i < |elems| ==> r[i] == elems[i].s
  {
    seq(|elems|, i requires 0 <= i < |elems| => elems[i].s)
  }

  /**
   * The argument `handleSelectMultiple` hands to the state setter, or None when
   * it does not call the setter at all.
   */
  function SelectMultipleUpdate(value: JsValue, current: seq<string>): (r: Option<seq<string>>)
    ensures value.JsString? ==> r == Some(current + [value.s])
    ensures !value.JsString? && IsStringArray(value) ==> r == Some(Strings(value.elems))
    ensures r.None? <==> !value.JsString? && !IsStringArray(value)
  {
    if value.JsString? then Some(current + [value.s])
    else if IsStringArray(value) then Some(Strings(value.elems))
    else None
  }

  /** A `useState<string[]>` cell holding a multi-select dropdown's selection. */
  class SelectionState {
    var selected: seq<string>

    constructor (initial: seq<string>)
      ensures selected == initial
    {
      selected := initial;
    }

    /** `handleSelectMultiple(result, current, setSelected)`. */
    method HandleSelectMultiple(value: JsValue, current: seq<string>)
      modifies this
      ensures value.JsString? ==> selected == current + [value.s]
      ensures !value.JsString? && IsStringArray(value) ==> selected == Strings(value.elems)
      ensures !value.JsString? && !IsStringArray(value) ==> selected == old(selected)
    {
      var update := SelectMultipleUpdate(value, current);
      if update.Some? {
        selected := update.value;
      }
    }
  }

  /** A dropdown option with its key, value and display text. */
  datatype DropdownItem = DropdownItem(key: string, value: string, text: string)

  /** JavaScript's `x || fallback` on an optional text: "" and undefined are falsy. */
  function OrElse(x: Option<string>, fallback: string): (r: string)
    ensures x.Some? && x.value != "" ==> r == x.value
    ensures x.None? || x.value == "" ==> r == fallback
  {
    if x.Some? && x.value != "" then x.value else fallback
  }

  /** `createDropdownProp(text, value?, key?)`. */
  function CreateDropdownProp(text: string, value: Option<string>, key: Option<string>): (r: DropdownItem)
    ensures r.text == text
    ensures value.Some? && value.value != "" ==> r.value == value.value
    ensures value.None? || value.value == "" ==> r.value == text
    ensures key.Some? && key.value != "" ==> r.key == key.value
    ensures key.None? || key.value == "" ==> r.key == r.value
  {
    var v := OrElse(value, text);
    DropdownItem(OrElse(key, v), v, text)
  }

  /** With only a text, the item's key and value are that text. */
  lemma TextOnlyDropdownProp(text: string)
    ensures CreateDropdownProp(text, None, None) == DropdownItem(text, text, text)
  {
  }

  /** Feeding an item's own fields back in reproduces it, when its key and value are set. */
  lemma CreateDropdownPropIdempotent(text: string, value: Option<string>, key: Option<string>)
    ensures var r := CreateDropdownProp(text, value, key);
      r.value != "" && r.key != "" ==> CreateDropdownProp(r.text, Some(r.value), Some(r.key)) == r
  {
  }

  /** The empty record `{}` every key is mapped to. */
  datatype Empty = Empty

  /** `items.reduce((map, val) => map.set(val, {}), acc)`. */
  function SetFrom<T>(acc: map<T, Empty>, items: seq<T>): (r: map<T, Empty>)
    ensures r.Keys == acc.Keys + set x | x in items
    decreases items
  {
    if items == [] then acc
    else
      var r := SetFrom(acc[items[0] := Empty], items[1..]);
      assert (set x | x in items) == {items[0]} + set x | x in items[1..] by {
        assert items == [items[0]] + items[1..];
      }
      r
  }

  /** `makeDamlSet(items).map`: a DAML map from each item to `{}`. */
  function MakeDamlSet<T>(items: seq<T>): (r: map<T, Empty>)
    ensures r.Keys == set x | x in items
  {
    SetFrom(map[], items)
  }

  /** A map into `{}` is determined by its keys. */
  lemma SameKeysSameMap<T>(a: map<T, Empty>, b: map<T, Empty>)
    requires a.Keys == b.Keys
    ensures a == b
  {
    forall k | k in a
      ensures a[k] == b[k]
    {
      assert a[k] == Empty && b[k] == Empty;
    }
  }

  /** Adding an item that is already present changes nothing: duplicates collapse. */
  lemma MakeDamlSetDuplicate<T>(items: seq<T>, x: T)
    requires x in items
    ensures MakeDamlSet(items + [x]) == MakeDamlSet(items)
  {
    assert (set y | y in items + [x]) == set y | y in items;
    SameKeysSameMap(MakeDamlSet(items + [x]), MakeDamlSet(items));
  }

  /** The DAML set has one entry per distinct item: as many as items exactly when none repeats. */
  lemma {:induction false} MakeDamlSetSize<T>(items: seq<T>)
    ensures |MakeDamlSet(items)| <= |items|
    ensures |MakeDamlSet(items)| == |items| <==> Seqs.NoDuplicates(items)
  {
    ElementsSize(items);
  }

  lemma {:induction false} ElementsSize<T>(items: seq<T>)
    ensures |set x | x in items| <= |items|
    ensures |set x | x in items| == |items| <==> Seqs.NoDuplicates(items)
  {
    if items != [] {
      var rest := items[1..];
      ElementsSize(rest);
      assert items == [items[0]] + rest;
      assert (set x | x in items) == {items[0]} + set x | x in rest;
      Seqs.NoDuplicatesCons(items);
      if items[0] in rest {
        assert (set x | x in items) == set x | x in rest;
      } else {
        assert (set x | x in items) == (set x | x in rest) + {items[0]};
      }
    }
  }

  /**
   * `wrapTextMap(items).map`: an object filled by assigning `{}` to each item in
   * turn, so a repeated item overwrites its own entry.
   */
  method WrapTextMap<T>(items: seq<T>) returns (m: map<T, Empty>)
    ensures m.Keys == set x | x in items
    ensures m == MakeDamlSet(items)
  {
    m := map[];
    var i := 0;
    while i < |items|
      invariant 0 <= i <= |items|
      invariant m.Keys == set x | x in items[..i]
    {
      assert items[..i + 1] == items[..i] + [items[i]];
      m := m[items[i] := Empty];
      i := i + 1;
    }
    assert items[..i] == items;
    SameKeysSameMap(m, MakeDamlSet(items));
  }
}
