/**
 * Input (components/inputs/Input.tsx): a labelled text field with an error
 * line. The label, the border and the error line turn to the error colour
 * while an error message is set; a multi-line field grows with its line
 * count.
 */
module InputComponent {
  import opened Wrappers
  import opened Styles
  import opened Tokens

  datatype KeyboardType = DefaultKeyboard | NumericKeyboard | EmailKeyboard | PhoneKeyboard

  /** A callback prop, known only by its identity: the model follows which handler a call reaches, not what it does. */
  datatype Handler = Handler(id: nat)

  /** One call of a text handler, with the text it is given. */
  datatype TextCall = TextCall(handler: Handler, text: string)

  /** The props that decide behaviour and style. */
  datatype InputProps = InputProps(
    value: string,
    onChangeText: Handler,
    placeholder: Option<string>,
    labelText: Option<string>,
    error: Option<string>,
    editable: Option<bool>,
    secureTextEntry: Option<bool>,
    keyboardType: Option<KeyboardType>,
    multiline: Option<bool>,
    numberOfLines: Option<int>,
    style: Option<Style>)

  /** The defaults: editable, not secure, the default keyboard, one line. */
  function IsEditable(p: InputProps): (b: bool)
    ensures b <==> p.editable != Some(false)
  {
    p.editable.GetOr(true)
  }

  function IsSecure(p: InputProps): (b: bool)
    ensures b <==> p.secureTextEntry == Some(true)
  {
    p.secureTextEntry.GetOr(false)
  }

  function Keyboard(p: InputProps): (k: KeyboardType)
    ensures p.keyboardType.None? ==> k == DefaultKeyboard
    ensures p.keyboardType.Some? ==> k == p.keyboardType.value
  {
    p.keyboardType.GetOr(DefaultKeyboard)
  }

  function IsMultiline(p: InputProps): (b: bool)
    ensures b <==> p.multiline == Some(true)
  {
    p.multiline.GetOr(false)
  }

  function Lines(p: InputProps): (n: int)
    ensures p.numberOfLines.None? ==> n == 1
    ensures p.numberOfLines.Some? ==> n == p.numberOfLines.value
  {
    p.numberOfLines.GetOr(1)
  }

  /** `error` is truthy: given and not empty. */
  function HasError(p: InputProps): (b: bool)
    ensures b <==> p.error.Some? && p.error.value != ""
  {
    p.error.Some? && p.error.value != ""
  }

  /** The `numberOfLines` handed to the text field: the prop when multi-line, else 1. */
  function LinesPassed(p: InputProps): (n: int)
    ensures IsMultiline(p) ==> n == Lines(p)
    ensures !IsMultiline(p) ==> n == 1
  {
    if IsMultiline(p) then Lines(p) else 1
  }

  /** `minHeight`: 24 per line plus the `md` padding above and below, only when multi-line. */
  function MinHeightOf(p: InputProps, t: Theme): (h: Option<real>)
    ensures h.Some? <==> IsMultiline(p)
  {
    if IsMultiline(p) then Some(Lines(p) as real * 24.0 + Spacing(t, Md) * 2.0) else None
  }

  /** The minimum height fits the lines handed to the field, and grows by 24 with each line. */
  lemma MinHeightFitsLines(p: InputProps, t: Theme)
    requires IsMultiline(p)
    ensures MinHeightOf(p, t).value == LinesPassed(p) as real * 24.0 + 2.0 * Spacing(t, Md)
    ensures MinHeightOf(p.(numberOfLines := Some(Lines(p) + 1)), t).value == MinHeightOf(p, t).value + 24.0
  {
  }

  /** The label colour: `error` while there is an error, `textSecondary` otherwise. */
  function LabelToken(p: InputProps): (c: ColorToken)
    ensures c == Error <==> HasError(p)
    ensures c == TextSecondary <==> !HasError(p)
  {
    if HasError(p) then Error else TextSecondary
  }

  /** The field border: `error` while there is an error, `border` otherwise. */
  function BorderToken(p: InputProps): (c: ColorToken)
    ensures c == Error <==> HasError(p)
    ensures c == Border <==> !HasError(p)
  {
    if HasError(p) then Error else Border
  }

  /** The field fill: `surface` while editable, `disabled` otherwise. */
  function FillToken(p: InputProps): (c: ColorToken)
    ensures c == Surface <==> IsEditable(p)
    ensures c == Disabled <==> !IsEditable(p)
  {
    if IsEditable(p) then Surface else Disabled
  }

  // Rendering

  /** A rendered text line (label or error message) and its style. */
  datatype TextLine = TextLine(text: string, style: Style)

  /** What the text field is given. */
  datatype Field = Field(
    value: string,
    onChangeText: Handler,
    placeholder: Option<string>,
    placeholderColor: string,
    editable: bool,
    secure: bool,
    keyboard: KeyboardType,
    multiline: bool,
    numberOfLines: int,
    style: Style)

  datatype InputView = InputView(container: Style, shownLabel: Option<TextLine>, field: Field, errorLine: Option<TextLine>)

  function LabelEntries(p: InputProps, t: Theme): seq<Entry> {
    [ Object(Some(Typography(t, Body2))),
      Object(Some(map[Color := ThemeColor(t, LabelToken(p)), MarginBottom := Num(Spacing(t, Xs))])) ]
  }

  function ErrorEntries(t: Theme): seq<Entry> {
    [ Object(Some(Typography(t, Caption))),
      Object(Some(map[Color := ThemeColor(t, Error), MarginTop := Num(Spacing(t, Xs))])) ]
  }

  /** The field's own style object, less its `minHeight`. */
  function FieldObject(p: InputProps, t: Theme): Style {
    map[BorderColor := ThemeColor(t, BorderToken(p)), BorderRadius := Num(Radius(t, RadiusSm)),
        Padding := Num(Spacing(t, Md)), Color := ThemeColor(t, Text),
        BackgroundColor := ThemeColor(t, FillToken(p))]
  }

  /** The field's style array; the `minHeight: undefined` of a single-line field sets nothing. */
  function FieldEntries(p: InputProps, t: Theme): seq<Entry> {
    [ Object(Some(Typography(t, Body1))),
      Object(Some(map[BorderWidth := Num(1.0)])),
      Object(Some(FieldObject(p, t))),
      Prop(MinHeight, if MinHeightOf(p, t).Some? then Some(Num(MinHeightOf(p, t).value)) else None) ]
  }

  /** `label && <Text/>`. */
  function LabelLine(p: InputProps, t: Theme): (r: Option<TextLine>)
    ensures r.Some? <==> p.labelText.Some? && p.labelText.value != ""
  {
    if p.labelText.Some? && p.labelText.value != "" then Some(TextLine(p.labelText.value, Flatten(LabelEntries(p, t)))) else None
  }

  /** `error && <Text/>`. */
  function ErrorLine(p: InputProps, t: Theme): (r: Option<TextLine>)
    ensures r.Some? <==> HasError(p)
    ensures r.Some? ==> r.value.text == p.error.value
  {
    if HasError(p) then Some(TextLine(p.error.value, Flatten(ErrorEntries(t)))) else None
  }

  function FieldOf(p: InputProps, t: Theme): Field {
    Field(p.value, p.onChangeText, p.placeholder, Tokens.Color(t.colors, TextTertiary), IsEditable(p), IsSecure(p), Keyboard(p),
          IsMultiline(p), LinesPassed(p), Flatten(FieldEntries(p, t)))
  }

  function Render(p: InputProps, t: Theme): InputView {
    InputView(
      Flatten([Object(Some(map[Width := Pct(100.0)])), Object(p.style)]),
      LabelLine(p, t),
      FieldOf(p, t),
      ErrorLine(p, t))
  }

  /** What the field's own entries set at each key, after the body1 typography. */
  function FieldOwn(p: InputProps, t: Theme, k: StyleKey): Option<StyleValue> {
    match k
    case BorderWidth => Some(Num(1.0))
    case BorderColor => Some(ThemeColor(t, BorderToken(p)))
    case BorderRadius => Some(Num(Radius(t, RadiusSm)))
    case Padding => Some(Num(Spacing(t, Md)))
    case Color => Some(ThemeColor(t, Text))
    case BackgroundColor => Some(ThemeColor(t, FillToken(p)))
    case MinHeight => if IsMultiline(p) then Some(Num(Lines(p) as real * 24.0 + 2.0 * Spacing(t, Md))) else None
    case _ => None
  }

  lemma FieldObjectAt(p: InputProps, t: Theme, k: StyleKey)
    ensures At(Object(Some(FieldObject(p, t))), k) ==
      match k
      case BorderColor => Some(ThemeColor(t, BorderToken(p)))
      case BorderRadius => Some(Num(Radius(t, RadiusSm)))
      case Padding => Some(Num(Spacing(t, Md)))
      case Color => Some(ThemeColor(t, Text))
      case BackgroundColor => Some(ThemeColor(t, FillToken(p)))
      case _ => None
  {
  }

  lemma FieldOwnAt(p: InputProps, t: Theme, k: StyleKey)
    ensures var es := FieldEntries(p, t); Later(Later(At(es[1], k), At(es[2], k)), At(es[3], k)) == FieldOwn(p, t, k)
  {
    FieldObjectAt(p, t, k);
  }

  /** The field's style at any key: its own setting, else the body1 typography's. */
  lemma {:induction false} FieldByKey(p: InputProps, t: Theme, k: StyleKey)
    ensures Gives(FieldOf(p, t).style, k, Later(At(Object(Some(Typography(t, Body1))), k), FieldOwn(p, t, k)))
  {
    var es := FieldEntries(p, t);
    FlattenLookup(es, k);
    Lookup4(es[0], es[1], es[2], es[3], k);
    FieldOwnAt(p, t, k);
  }

  /** The label, when shown, is coloured `error` exactly while there is an error. */
  lemma LabelColour(p: InputProps, t: Theme)
    requires LabelLine(p, t).Some?
    ensures Color in LabelLine(p, t).value.style
    ensures LabelLine(p, t).value.style[Color] == ThemeColor(t, if HasError(p) then Error else TextSecondary)
  {
    var ls := LabelEntries(p, t);
    FlattenLookup(ls, Color);
    Lookup2(ls[0], ls[1], Color);
  }

  /** The error line, shown exactly while there is an error, is in the error colour. */
  lemma ErrorLineColour(p: InputProps, t: Theme)
    requires HasError(p)
    ensures ErrorLine(p, t).Some?
    ensures Color in ErrorLine(p, t).value.style && ErrorLine(p, t).value.style[Color] == ThemeColor(t, Error)
  {
    var es := ErrorEntries(t);
    FlattenLookup(es, Color);
    Lookup2(es[0], es[1], Color);
  }

  /** With an error set, the field border takes the theme's error colour; without one, the border colour. */
  lemma BorderColour(p: InputProps, t: Theme)
    ensures BorderColor in FieldOf(p, t).style
    ensures FieldOf(p, t).style[BorderColor] == ThemeColor(t, if HasError(p) then Error else Border)
  {
    FieldByKey(p, t, BorderColor);
  }

  /** With an error set, the label (when shown), the field border and the error line all take the error colour. */
  lemma ErrorColoursAgree(p: InputProps, t: Theme)
    requires HasError(p)
    ensures BorderColor in FieldOf(p, t).style && FieldOf(p, t).style[BorderColor] == ThemeColor(t, Error)
    ensures ErrorLine(p, t).Some? && Color in ErrorLine(p, t).value.style
    ensures ErrorLine(p, t).value.style[Color] == ThemeColor(t, Error)
    ensures LabelLine(p, t).Some? ==> Color in LabelLine(p, t).value.style && LabelLine(p, t).value.style[Color] == ThemeColor(t, Error)
  {
    BorderColour(p, t);
    ErrorLineColour(p, t);
    if LabelLine(p, t).Some? {
      LabelColour(p, t);
    }
  }

  /** A field that is not editable is filled with the disabled colour, an editable one with the surface colour. */
  lemma FillFollowsEditable(p: InputProps, t: Theme)
    ensures FieldOf(p, t).editable == IsEditable(p)
    ensures BackgroundColor in FieldOf(p, t).style
    ensures FieldOf(p, t).style[BackgroundColor] == ThemeColor(t, if IsEditable(p) then Surface else Disabled)
  {
    FieldByKey(p, t, BackgroundColor);
  }

  // Editing

  /**
   * The host text field reporting an edit: one call of the handler it was
   * given, with the new text, and none while it is read-only.
   */
  function Edit(f: Field, text: string): (calls: seq<TextCall>)
    ensures |calls| <= 1
    ensures calls == [] <==> !f.editable
    ensures calls != [] ==> calls[0].handler == f.onChangeText && calls[0].text == text
  {
    if f.editable then [TextCall(f.onChangeText, text)] else []
  }

  /**
   * `onChangeText` is handed to the field unchanged: an edit typed into the
   * rendered field reaches the parent's handler once, with the text
   * unchanged, exactly when the input is editable.
   */
  lemma EditReachesParent(p: InputProps, t: Theme, text: string)
    ensures Edit(Render(p, t).field, text) != [] <==> IsEditable(p)
    ensures IsEditable(p) ==> Edit(Render(p, t).field, text) == [TextCall(p.onChangeText, text)]
  {
  }

  /**
   * A controlled input: a parent that stores the reported text as `value`
   * renders a field that shows exactly that text, and keeps the same handler.
   */
  lemma EditRoundTrip(p: InputProps, t: Theme, text: string)
    requires IsEditable(p)
    ensures Edit(Render(p, t).field, text) != []
    ensures var c := Edit(Render(p, t).field, text)[0];
      Render(p.(value := c.text), t).field.value == text &&
      Render(p.(value := c.text), t).field.onChangeText == p.onChangeText
  {
  }
}
