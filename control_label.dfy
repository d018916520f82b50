/**
 * The optional label that CheckBox and RadioButton both render to the right
 * of their box (components/inputs/CheckBox.tsx and RadioButton.tsx write the
 * same element): body1 text in the theme's text colour, or its tertiary text
 * colour while disabled, set off by the `sm` spacing.
 */
module ControlLabel {
  import opened Wrappers
  import opened Styles
  import opened Tokens

  /** A rendered label: its text and its flattened style. */
  datatype LabelView = LabelView(text: string, style: Style)

  /** The colour of the label: tertiary while disabled. */
  function LabelColor(disabled: bool): (c: ColorToken)
    ensures c == TextTertiary <==> disabled
    ensures c == Text <==> !disabled
  {
    if disabled then TextTertiary else Text
  }

  function LabelEntries(t: Theme, disabled: bool): seq<Entry> {
    [ Object(Some(Typography(t, Body1))),
      Object(Some(map[Color := ThemeColor(t, LabelColor(disabled)), MarginLeft := Num(Spacing(t, Sm))])) ]
  }

  /** `label && <Text ...>{label}</Text>`: nothing for an absent or empty label. */
  function Label(t: Theme, labelText: Option<string>, disabled: bool): (r: Option<LabelView>)
    ensures r.Some? <==> labelText.Some? && labelText.value != ""
    ensures r.Some? ==> r.value.text == labelText.value
  {
    if labelText.Some? && labelText.value != "" then Some(LabelView(labelText.value, Flatten(LabelEntries(t, disabled))))
    else None
  }

  /** A shown label has the body1 size, the colour for its state and the `sm` left margin. */
  lemma LabelStyle(t: Theme, labelText: Option<string>, disabled: bool)
    requires labelText.Some? && labelText.value != ""
    ensures var s := Label(t, labelText, disabled).value.style;
      && Color in s && s[Color] == ThemeColor(t, LabelColor(disabled))
      && MarginLeft in s && s[MarginLeft] == Num(Spacing(t, Sm))
      && FontSize in s && s[FontSize] == Num(t.typography.body1.fontSize)
  {
    var es := LabelEntries(t, disabled);
    FlattenLookup(es, Color);
    FlattenLookup(es, MarginLeft);
    FlattenLookup(es, FontSize);
    Lookup2(es[0], es[1], Color);
    Lookup2(es[0], es[1], MarginLeft);
    Lookup2(es[0], es[1], FontSize);
  }
}
