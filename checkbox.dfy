/**
 * CheckBox (components/inputs/CheckBox.tsx): a controlled check box. It has
 * no state of its own: what it shows and what a press reports are functions
 * of the `value` and `disabled` props.
 */
module CheckBoxComponent {
  import opened Wrappers
  import opened Styles
  import opened Tokens
  import opened ControlLabel

  /** The props that decide behaviour and style; `onValueChange` is the receiver of `Press`. */
  datatype CheckBoxProps = CheckBoxProps(
    value: bool,
    labelText: Option<string>,
    disabled: Option<bool>,
    style: Option<Style>)

  /** `disabled` is false unless given. */
  function IsDisabled(p: CheckBoxProps): (d: bool)
    ensures d <==> p.disabled == Some(true)
  {
    p.disabled.GetOr(false)
  }

  /**
   * The calls one press makes to `onValueChange`, with their arguments. The
   * touchable is disabled with the box, and the handler checks `disabled`
   * again; either way a disabled box makes no call.
   */
  function Press(p: CheckBoxProps): (calls: seq<bool>)
    ensures |calls| <= 1
    ensures calls == [] <==> IsDisabled(p)
    ensures calls != [] ==> calls[0] == !p.value
  {
    if IsDisabled(p) then [] else [!p.value]
  }

  /** The parent that feeds each reported value back as `value` toggles the box: two presses restore it. */
  lemma PressTwiceRestores(p: CheckBoxProps)
    requires !IsDisabled(p)
    ensures Press(p.(value := Press(p)[0])) == [p.value]
  {
  }

  /** The box border: disabled first, then checked, else the plain border colour. */
  function BorderToken(p: CheckBoxProps): (c: ColorToken)
    ensures c == Disabled <==> IsDisabled(p)
    ensures c == Primary <==> !IsDisabled(p) && p.value
    ensures c == Border <==> !IsDisabled(p) && !p.value
  {
    if IsDisabled(p) then Disabled else if p.value then Primary else Border
  }

  /** The box fill: disabled first, then checked, else transparent. */
  function Background(p: CheckBoxProps): (c: ColorRef)
    ensures c == Token(Disabled) <==> IsDisabled(p)
    ensures c == Token(Primary) <==> !IsDisabled(p) && p.value
    ensures c == Literal("transparent") <==> !IsDisabled(p) && !p.value
  {
    if IsDisabled(p) then Token(Disabled) else if p.value then Token(Primary) else Literal("transparent")
  }

  /** Border and fill agree while disabled or checked: the box is then one solid colour. */
  lemma SolidWhenCheckedOrDisabled(p: CheckBoxProps, t: Theme)
    requires IsDisabled(p) || p.value
    ensures Resolve(t.colors, Background(p)) == Tokens.Color(t.colors, BorderToken(p))
  {
  }

  // Rendering

  /** The glyph the source file holds for the checkmark (see README, Findings). */
  const CheckmarkAsWritten: string := "\U{00E2}\U{0153}\U{201C}"

  /** The check mark U+2713. */
  const CheckMark: string := "\U{2713}"

  /** A rendered glyph and its style. */
  datatype Glyph = Glyph(text: string, style: Style)

  /** What one render produces; `touchDisabled` is the touchable's `disabled`. */
  datatype CheckBoxView = CheckBoxView(
    container: Style,
    touchDisabled: bool,
    box: Style,
    checkmark: Option<Glyph>,
    shownLabel: Option<LabelView>)

  const ContainerBase: Style := map[FlexDirection := Str("row"), AlignItems := Str("center")]
  const BoxBase: Style := map[JustifyContent := Str("center"), AlignItems := Str("center"),
                              BorderWidth := Num(2.0), Width := Num(24.0), Height := Num(24.0)]
  const CheckmarkBase: Style := map[FontSize := Num(16.0), FontWeight := Str("bold")]

  function ContainerEntries(p: CheckBoxProps): seq<Entry> {
    [Object(Some(ContainerBase)), Object(p.style)]
  }

  function BoxEntries(p: CheckBoxProps, t: Theme): seq<Entry> {
    [ Object(Some(BoxBase)),
      Object(Some(map[BorderColor := ThemeColor(t, BorderToken(p)),
                      BackgroundColor := Str(Resolve(t.colors, Background(p))),
                      BorderRadius := Num(Radius(t, RadiusXs))])) ]
  }

  /** The checkmark as the source file renders it: present while checked, with the glyph as written. */
  function CheckmarkWritten(p: CheckBoxProps, t: Theme): Option<Glyph> {
    if p.value then Some(Glyph(CheckmarkAsWritten, Flatten([Object(Some(CheckmarkBase)), Object(Some(map[Color := ThemeColor(t, White)]))])))
    else None
  }

  /** The checkmark: a white check mark while checked, nothing otherwise. */
  function Checkmark(p: CheckBoxProps, t: Theme): (r: Option<Glyph>)
    ensures r.Some? <==> p.value
    ensures r.Some? ==> r.value.text == CheckMark
  {
    if p.value then Some(Glyph(CheckMark, Flatten([Object(Some(CheckmarkBase)), Object(Some(map[Color := ThemeColor(t, White)]))])))
    else None
  }

  /** As written, the checkmark is three characters and not the check mark; only the glyph differs. */
  lemma CheckmarkWrittenIsNotCheck(p: CheckBoxProps, t: Theme)
    requires p.value
    ensures CheckmarkWritten(p, t).value.text != CheckMark && |CheckmarkWritten(p, t).value.text| == 3
    ensures CheckmarkWritten(p, t).value.style == Checkmark(p, t).value.style
  {
  }

  function Render(p: CheckBoxProps, t: Theme): CheckBoxView {
    CheckBoxView(
      Flatten(ContainerEntries(p)),
      IsDisabled(p),
      Flatten(BoxEntries(p, t)),
      Checkmark(p, t),
      Label(t, p.labelText, IsDisabled(p)))
  }

  /**
   * What is shown follows the props alone: the checkmark exactly when `value`
   * holds, the label exactly when a non-empty one is given, and the
   * touchable is disabled exactly when the box is.
   */
  lemma RenderFollowsProps(p: CheckBoxProps, t: Theme)
    ensures Render(p, t).checkmark.Some? <==> p.value
    ensures Render(p, t).shownLabel.Some? <==> p.labelText.Some? && p.labelText.value != ""
    ensures Render(p, t).touchDisabled <==> Press(p) == []
  {
  }

  /** The box is 24 by 24 with a 2-wide border in its border colour, filled with its fill, `xs` rounded. */
  lemma BoxStyleValues(p: CheckBoxProps, t: Theme)
    ensures var s := Render(p, t).box;
      && Width in s && s[Width] == Num(24.0)
      && Height in s && s[Height] == Num(24.0)
      && BorderWidth in s && s[BorderWidth] == Num(2.0)
      && BorderColor in s && s[BorderColor] == ThemeColor(t, BorderToken(p))
      && BackgroundColor in s && s[BackgroundColor] == Str(Resolve(t.colors, Background(p)))
      && BorderRadius in s && s[BorderRadius] == Num(Radius(t, RadiusXs))
  {
    BoxByKey(p, t, Width);
    BoxByKey(p, t, Height);
    BoxByKey(p, t, BorderWidth);
    BoxByKey(p, t, BorderColor);
    BoxByKey(p, t, BackgroundColor);
    BoxByKey(p, t, BorderRadius);
  }

  lemma BoxByKey(p: CheckBoxProps, t: Theme, k: StyleKey)
    ensures var es := BoxEntries(p, t); Gives(Render(p, t).box, k, Later(At(es[0], k), At(es[1], k)))
  {
    var es := BoxEntries(p, t);
    FlattenLookup(es, k);
    Lookup2(es[0], es[1], k);
  }

  /** The container is a centred row, and the caller's style overrides it key by key. */
  lemma ContainerByKey(p: CheckBoxProps, t: Theme, k: StyleKey)
    ensures Gives(Render(p, t).container, k, Later(At(Object(Some(ContainerBase)), k), At(Object(p.style), k)))
  {
    var es := ContainerEntries(p);
    FlattenLookup(es, k);
    Lookup2(es[0], es[1], k);
  }
}
