/**
 * Style objects and style arrays.
 *
 * Every component of the library hands its host view a style ARRAY: a
 * sequence whose entries are style objects or falsy values (`false` from a
 * `cond && {...}` that did not hold, or an unset `style` prop). The host
 * flattens the array left to right; falsy entries are skipped and a later
 * entry's key overrides an earlier one.
 */
module Styles {
  import opened Wrappers

  /** The style property names that the components write. */
  datatype StyleKey =
    | Flex | FlexDirection | AlignItems | JustifyContent | FlexWrap | AlignSelf
    | Width | Height | MinHeight
    | Padding | PaddingHorizontal | PaddingVertical
    | Margin | MarginHorizontal | MarginVertical | MarginLeft | MarginRight | MarginTop | MarginBottom
    | Gap | Overflow
    | BackgroundColor | BorderColor | BorderWidth | BorderRadius | Opacity
    | Color | FontSize | FontWeight | LineHeight | LetterSpacing | TextAlign

  /** A style value: a number, a keyword or colour string, or a percentage such as `'100%'`. */
  datatype StyleValue = Num(n: real) | Str(s: string) | Pct(p: real)

  type Style = map<StyleKey, StyleValue>

  /**
   * One entry of a style array: a style object or a falsy value (`Object`),
   * or a one-key object guarded by its own value, `x && { key: x }`, which is
   * falsy when the value is absent (`Prop` with `None`).
   */
  datatype Entry =
    | Object(style: Option<Style>)
    | Prop(key: StyleKey, value: Option<StyleValue>)

  /** The keys an entry contributes (none for a falsy entry). */
  function Fragment(e: Entry): Style {
    match e
    case Object(Some(m)) => m
    case Object(None) => map[]
    case Prop(k, Some(v)) => map[k := v]
    case Prop(_, None) => map[]
  }

  /** JavaScript `value || fallback` on an optional string: an absent or empty string falls back. */
  function OrElse(value: Option<string>, fallback: string): (r: string)
    ensures value.Some? && value.value != "" ==> r == value.value
    ensures value.None? || value.value == "" ==> r == fallback
  {
    if value.Some? && value.value != "" then value.value else fallback
  }

  /** The value entry `e` gives key `k`, or None when it does not set `k`. */
  function At(e: Entry, k: StyleKey): Option<StyleValue> {
    match e
    case Object(s) => if s.Some? && k in s.value then Some(s.value[k]) else None
    case Prop(key, v) => if key == k then v else None
  }

  /** Of two values for one key, the later one when it is present. */
  function Later(earlier: Option<StyleValue>, later: Option<StyleValue>): Option<StyleValue> {
    if later.Some? then later else earlier
  }

  /** `s` holds key `k` exactly when `v` is present, and then with `v`'s value. */
  predicate Gives(s: Style, k: StyleKey, v: Option<StyleValue>) {
    && (k in s <==> v.Some?)
    && (k in s ==> s[k] == v.value)
  }

  /** Flattening of a style array: left to right, later keys win. */
  function Flatten(entries: seq<Entry>): Style
    decreases |entries|
  {
    if entries == [] then map[]
    else Flatten(entries[..|entries| - 1]) + Fragment(entries[|entries| - 1])
  }

  /** Reference definition, one key at a time: the value of the last entry that sets `k`. */
  function Lookup(entries: seq<Entry>, k: StyleKey): Option<StyleValue>
    decreases |entries|
  {
    if entries == [] then None
    else Later(Lookup(entries[..|entries| - 1], k), At(entries[|entries| - 1], k))
  }

  /** A fragment gives each key the value its entry gives it. */
  lemma FragmentGives(e: Entry, k: StyleKey)
    ensures Gives(Fragment(e), k, At(e, k))
  {
  }

  /** The flattened style agrees with the key-by-key reference at every key. */
  lemma {:induction false} FlattenLookup(entries: seq<Entry>, k: StyleKey)
    ensures Gives(Flatten(entries), k, Lookup(entries, k))
    decreases |entries|
  {
    if entries != [] {
      var init, last := entries[..|entries| - 1], entries[|entries| - 1];
      FlattenLookup(init, k);
      FragmentGives(last, k);
    }
  }

  /** A key is in the flattened style exactly when some entry sets it. */
  lemma {:induction false} FlattenKeys(entries: seq<Entry>, k: StyleKey)
    ensures k in Flatten(entries) <==> exists i :: 0 <= i < |entries| && At(entries[i], k).Some?
    decreases |entries|
  {
    if entries != [] {
      var init := entries[..|entries| - 1];
      FlattenKeys(init, k);
      if k in Flatten(init) {
        var i :| 0 <= i < |init| && At(init[i], k).Some?;
        assert At(entries[i], k).Some?;
      }
      if exists i :: 0 <= i < |entries| && At(entries[i], k).Some? {
        var i :| 0 <= i < |entries| && At(entries[i], k).Some?;
        if i < |init| {
          assert At(init[i], k).Some?;
        }
      }
    }
  }

  /** The value of a key is the one given by the LAST entry that sets it. */
  lemma {:induction false} FlattenLastWins(entries: seq<Entry>, i: nat, k: StyleKey)
    requires i < |entries| && At(entries[i], k).Some?
    requires forall j :: i < j < |entries| ==> At(entries[j], k).None?
    ensures k in Flatten(entries) && Flatten(entries)[k] == At(entries[i], k).value
    decreases |entries|
  {
    var init := entries[..|entries| - 1];
    if i < |init| {
      FlattenLastWins(init, i, k);
      assert At(entries[|entries| - 1], k).None?;
    }
  }

  /** An entry appended after the others overrides every key it sets and keeps the rest. */
  lemma FlattenAppend(entries: seq<Entry>, last: Entry)
    ensures Flatten(entries + [last]) == Flatten(entries) + Fragment(last)
  {
    assert (entries + [last])[..|entries|] == entries;
  }

  /** A falsy entry contributes nothing. */
  lemma FlattenSkipsFalsy(entries: seq<Entry>)
    ensures Flatten(entries + [Object(None)]) == Flatten(entries)
  {
    FlattenAppend(entries, Object(None));
  }

  /** A spread `{...a, ...b}` gives each key the value of `b` when `b` sets it, else that of `a`. */
  lemma AtUnion(a: Style, b: Style, k: StyleKey)
    ensures At(Object(Some(a + b)), k) == Later(At(Object(Some(a)), k), At(Object(Some(b)), k))
  {
  }

  /** Splitting an array splits the reference lookup: the second part's value wins. */
  lemma {:induction false} LookupConcat(a: seq<Entry>, b: seq<Entry>, k: StyleKey)
    ensures Lookup(a + b, k) == Later(Lookup(a, k), Lookup(b, k))
    decreases |b|
  {
    if b == [] {
      assert a + b == a;
    } else {
      var init := b[..|b| - 1];
      assert (a + b)[..|a + b| - 1] == a + init;
      LookupConcat(a, init, k);
    }
  }

  lemma Lookup1(a: Entry, k: StyleKey)
    ensures Lookup([a], k) == At(a, k)
  {
    assert [a][..0] == [];
  }

  lemma Lookup2(a: Entry, b: Entry, k: StyleKey)
    ensures Lookup([a, b], k) == Later(At(a, k), At(b, k))
  {
    assert [a, b][..1] == [a];
    Lookup1(a, k);
  }

  lemma Lookup3(a: Entry, b: Entry, c: Entry, k: StyleKey)
    ensures Lookup([a, b, c], k) == Later(Later(At(a, k), At(b, k)), At(c, k))
  {
    assert [a, b, c][..2] == [a, b];
    Lookup2(a, b, k);
  }

  lemma Lookup4(a: Entry, b: Entry, c: Entry, d: Entry, k: StyleKey)
    ensures Lookup([a, b, c, d], k) == Later(Later(Later(At(a, k), At(b, k)), At(c, k)), At(d, k))
  {
    assert [a, b, c, d][..3] == [a, b, c];
    Lookup3(a, b, c, k);
  }
}
