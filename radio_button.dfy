/**
 * RadioButton (components/inputs/RadioButton.tsx): one option of a group. It
 * has no state of its own: it is selected when its `value` equals the
 * group's `selected` value, and a press reports its own `value`.
 */
module RadioButtonComponent {
  import opened Wrappers
  import opened Styles
  import opened Tokens
  import opened ControlLabel

  /** The props that decide behaviour and style; `onSelect` is the receiver of `Press`. */
  datatype RadioProps = RadioProps(
    value: string,
    selected: string,
    labelText: Option<string>,
    disabled: Option<bool>,
    style: Option<Style>)

  /** `disabled` is false unless given. */
  function IsDisabled(p: RadioProps): (d: bool)
    ensures d <==> p.disabled == Some(true)
  {
    p.disabled.GetOr(false)
  }

  /** `value === selected`. */
  function IsSelected(p: RadioProps): (b: bool)
    ensures b <==> p.value == p.selected
  {
    p.value == p.selected
  }

  /** The calls one press makes to `onSelect`: none while disabled, else one with the button's own value. */
  function Press(p: RadioProps): (calls: seq<string>)
    ensures |calls| <= 1
    ensures calls == [] <==> IsDisabled(p)
    ensures calls != [] ==> calls[0] == p.value
  {
    if IsDisabled(p) then [] else [p.value]
  }

  /** A parent that stores the reported value as `selected` makes the pressed button selected, and pressing it again changes nothing. */
  lemma PressSelects(p: RadioProps)
    requires !IsDisabled(p)
    ensures IsSelected(p.(selected := Press(p)[0]))
    ensures Press(p.(selected := Press(p)[0])) == Press(p)
  {
  }

  /** The ring: disabled first, then selected, else the plain border colour. */
  function RingToken(p: RadioProps): (c: ColorToken)
    ensures c == Disabled <==> IsDisabled(p)
    ensures c == Primary <==> !IsDisabled(p) && IsSelected(p)
    ensures c == Border <==> !IsDisabled(p) && !IsSelected(p)
  {
    if IsDisabled(p) then Disabled else if IsSelected(p) then Primary else Border
  }

  /** The dot: the disabled colour while disabled, else the primary colour. */
  function DotToken(p: RadioProps): (c: ColorToken)
    ensures c == Disabled <==> IsDisabled(p)
    ensures c == Primary <==> !IsDisabled(p)
  {
    if IsDisabled(p) then Disabled else Primary
  }

  /** A selected button's dot has the colour of its ring. */
  lemma DotMatchesRing(p: RadioProps)
    requires IsSelected(p)
    ensures DotToken(p) == RingToken(p)
  {
  }

  // Rendering

  /** What one render produces; `dot` is None when the inner dot is not mounted. */
  datatype RadioView = RadioView(
    container: Style,
    touchDisabled: bool,
    ring: Style,
    dot: Option<Style>,
    shownLabel: Option<LabelView>)

  const ContainerBase: Style := map[FlexDirection := Str("row"), AlignItems := Str("center")]
  const RingBase: Style := map[JustifyContent := Str("center"), AlignItems := Str("center")]

  function RingEntries(p: RadioProps, t: Theme): seq<Entry> {
    [ Object(Some(RingBase)),
      Object(Some(map[BorderWidth := Num(2.0), BorderColor := ThemeColor(t, RingToken(p)),
                      Width := Num(24.0), Height := Num(24.0), BorderRadius := Num(12.0)])) ]
  }

  function DotEntries(p: RadioProps, t: Theme): seq<Entry> {
    [ Object(Some(map[])),
      Object(Some(map[BackgroundColor := ThemeColor(t, DotToken(p)),
                      Width := Num(12.0), Height := Num(12.0), BorderRadius := Num(6.0)])) ]
  }

  /** `isSelected && <View .../>`. */
  function Dot(p: RadioProps, t: Theme): (r: Option<Style>)
    ensures r.Some? <==> IsSelected(p)
  {
    if IsSelected(p) then Some(Flatten(DotEntries(p, t))) else None
  }

  function Render(p: RadioProps, t: Theme): RadioView {
    RadioView(
      Flatten([Object(Some(ContainerBase)), Object(p.style)]),
      IsDisabled(p),
      Flatten(RingEntries(p, t)),
      Dot(p, t),
      Label(t, p.labelText, IsDisabled(p)))
  }

  /**
   * What is shown follows the props alone: the dot exactly when selected, the
   * label exactly when a non-empty one is given, and the touchable is
   * disabled exactly when a press makes no call.
   */
  lemma RenderFollowsProps(p: RadioProps, t: Theme)
    ensures Render(p, t).dot.Some? <==> p.value == p.selected
    ensures Render(p, t).shownLabel.Some? <==> p.labelText.Some? && p.labelText.value != ""
    ensures Render(p, t).touchDisabled <==> Press(p) == []
  {
  }

  lemma RingByKey(p: RadioProps, t: Theme, k: StyleKey)
    ensures var es := RingEntries(p, t); Gives(Render(p, t).ring, k, Later(At(es[0], k), At(es[1], k)))
  {
    var es := RingEntries(p, t);
    FlattenLookup(es, k);
    Lookup2(es[0], es[1], k);
  }

  /** The ring is a circle 24 across with radius 12 and a 2-wide border in the ring colour. */
  lemma RingValues(p: RadioProps, t: Theme)
    ensures var s := Render(p, t).ring;
      && Width in s && s[Width] == Num(24.0)
      && Height in s && s[Height] == Num(24.0)
      && BorderRadius in s && s[BorderRadius] == Num(12.0)
      && BorderWidth in s && s[BorderWidth] == Num(2.0)
      && BorderColor in s && s[BorderColor] == ThemeColor(t, RingToken(p))
  {
    RingByKey(p, t, Width);
    RingByKey(p, t, Height);
    RingByKey(p, t, BorderRadius);
    RingByKey(p, t, BorderWidth);
    RingByKey(p, t, BorderColor);
  }

  lemma DotByKey(p: RadioProps, t: Theme, k: StyleKey)
    ensures var es := DotEntries(p, t); Gives(Flatten(es), k, Later(At(es[0], k), At(es[1], k)))
  {
    var es := DotEntries(p, t);
    FlattenLookup(es, k);
    Lookup2(es[0], es[1], k);
  }

  /** The dot, when shown, is a circle 12 across with radius 6, half the ring's size, in the dot colour. */
  lemma DotValues(p: RadioProps, t: Theme)
    requires IsSelected(p)
    ensures var s := Render(p, t).dot.value;
      && Width in s && s[Width] == Num(12.0)
      && Height in s && s[Height] == Num(12.0)
      && BorderRadius in s && s[BorderRadius] == Num(6.0)
      && BackgroundColor in s && s[BackgroundColor] == ThemeColor(t, DotToken(p))
  {
    DotByKey(p, t, Width);
    DotByKey(p, t, Height);
    DotByKey(p, t, BorderRadius);
    DotByKey(p, t, BackgroundColor);
  }
}
