/**
 * Button (components/inputs/Button.tsx): a pressable label with four colour
 * variants and three sizes. While disabled or loading it is dimmed and does
 * not fire; while loading a spinner replaces its content.
 */
module ButtonComponent {
  import opened Wrappers
  import opened Styles
  import opened Tokens
  import TextComponent

  datatype ButtonVariant = PrimaryButton | SecondaryButton | DangerButton | GhostButton

  datatype ButtonSize = Small | Medium | Large

  /** The props that decide behaviour and style; `icon` is reduced to whether one is given. */
  datatype ButtonProps = ButtonProps(
    labelText: string,
    variant: Option<ButtonVariant>,
    size: Option<ButtonSize>,
    disabled: Option<bool>,
    loading: Option<bool>,
    hasIcon: bool,
    style: Option<Style>)

  /** `variant` is `primary` unless given. */
  function EffectiveVariant(p: ButtonProps): (v: ButtonVariant)
    ensures p.variant.None? ==> v == PrimaryButton
    ensures p.variant.Some? ==> v == p.variant.value
  {
    p.variant.GetOr(PrimaryButton)
  }

  /** `size` is `medium` unless given. */
  function EffectiveSize(p: ButtonProps): (s: ButtonSize)
    ensures p.size.None? ==> s == Medium
    ensures p.size.Some? ==> s == p.size.value
  {
    p.size.GetOr(Medium)
  }

  /** `disabled || loading`, each false unless given. */
  function Inactive(p: ButtonProps): (b: bool)
    ensures b <==> p.disabled == Some(true) || p.loading == Some(true)
  {
    p.disabled.GetOr(false) || p.loading.GetOr(false)
  }

  /** How many times one press calls `onPress`: the touchable is disabled while the button is inactive. */
  function Press(p: ButtonProps): (calls: nat)
    ensures calls <= 1
    ensures calls == 0 <==> Inactive(p)
  {
    if Inactive(p) then 0 else 1
  }

  /** `getVariantStyle`. */
  function VariantStyle(v: ButtonVariant, t: Theme): Style {
    match v
    case PrimaryButton => map[BackgroundColor := ThemeColor(t, Primary), BorderColor := ThemeColor(t, Primary)]
    case SecondaryButton => map[BackgroundColor := ThemeColor(t, Secondary), BorderColor := ThemeColor(t, Secondary)]
    case DangerButton => map[BackgroundColor := ThemeColor(t, Error), BorderColor := ThemeColor(t, Error)]
    case GhostButton => map[BackgroundColor := Str("transparent"), BorderColor := ThemeColor(t, Primary), BorderWidth := Num(1.0)]
  }

  /** `getSizeStyle`. */
  function SizeStyle(s: ButtonSize, t: Theme): Style {
    match s
    case Small => map[PaddingHorizontal := Num(Spacing(t, Md)), PaddingVertical := Num(Spacing(t, Sm)), MinHeight := Num(32.0)]
    case Large => map[PaddingHorizontal := Num(Spacing(t, Lg)), PaddingVertical := Num(Spacing(t, Md)), MinHeight := Num(56.0)]
    case Medium => map[PaddingHorizontal := Num(Spacing(t, Lg)), PaddingVertical := Num(Spacing(t, Md)), MinHeight := Num(48.0)]
  }

  /** The fill of each variant, as a table. */
  function Fill(v: ButtonVariant): (c: ColorRef)
    ensures c == Literal("transparent") <==> v == GhostButton
    ensures v == PrimaryButton ==> c == Token(Primary)
    ensures v == SecondaryButton ==> c == Token(Secondary)
    ensures v == DangerButton ==> c == Token(Error)
  {
    match v
    case PrimaryButton => Token(Primary)
    case SecondaryButton => Token(Secondary)
    case DangerButton => Token(Error)
    case GhostButton => Literal("transparent")
  }

  /** The border colour of each variant, as a table: the fill's token, and `primary` for ghost. */
  function Edge(v: ButtonVariant): (c: ColorToken)
    ensures v != GhostButton ==> Fill(v) == Token(c)
    ensures v == GhostButton ==> c == Primary
  {
    match v
    case PrimaryButton => Primary
    case SecondaryButton => Secondary
    case DangerButton => Error
    case GhostButton => Primary
  }

  /** The minimum height of each size; larger sizes are taller. */
  function MinHeightOf(s: ButtonSize): (h: real)
    ensures s == Small ==> h == 32.0
    ensures s == Medium ==> h == 48.0
    ensures s == Large ==> h == 56.0
  {
    match s
    case Small => 32.0
    case Medium => 48.0
    case Large => 56.0
  }

  /** Opacity: half while inactive, full otherwise. */
  function OpacityOf(p: ButtonProps): (o: real)
    ensures o == 0.5 <==> Inactive(p)
    ensures o == 1.0 <==> !Inactive(p)
  {
    if Inactive(p) then 0.5 else 1.0
  }

  const ButtonBase: Style := map[JustifyContent := Str("center"), AlignItems := Str("center"), FlexDirection := Str("row")]

  /** `{...getVariantStyle(), ...getSizeStyle(), borderRadius, opacity}`. */
  function OwnStyle(p: ButtonProps, t: Theme): Style {
    VariantStyle(EffectiveVariant(p), t) + SizeStyle(EffectiveSize(p), t)
      + map[BorderRadius := Num(Radius(t, RadiusMd)), Opacity := Num(OpacityOf(p))]
  }

  function ButtonEntries(p: ButtonProps, t: Theme): seq<Entry> {
    [Object(Some(ButtonBase)), Object(Some(OwnStyle(p, t))), Object(p.style)]
  }

  function ButtonStyle(p: ButtonProps, t: Theme): Style {
    Flatten(ButtonEntries(p, t))
  }

  /** Reference: what the button sets at each key before the caller's style, from the tables above. */
  function ButtonDefault(p: ButtonProps, t: Theme, k: StyleKey): Option<StyleValue> {
    var v, s := EffectiveVariant(p), EffectiveSize(p);
    match k
    case JustifyContent => Some(Str("center"))
    case AlignItems => Some(Str("center"))
    case FlexDirection => Some(Str("row"))
    case BackgroundColor => Some(Str(Resolve(t.colors, Fill(v))))
    case BorderColor => Some(ThemeColor(t, Edge(v)))
    case BorderWidth => if v == GhostButton then Some(Num(1.0)) else None
    case PaddingHorizontal => Some(Num(Spacing(t, if s == Small then Md else Lg)))
    case PaddingVertical => Some(Num(Spacing(t, if s == Small then Sm else Md)))
    case MinHeight => Some(Num(MinHeightOf(s)))
    case BorderRadius => Some(Num(Radius(t, RadiusMd)))
    case Opacity => Some(Num(OpacityOf(p)))
    case _ => None
  }

  lemma VariantAt(v: ButtonVariant, t: Theme, k: StyleKey)
    ensures At(Object(Some(VariantStyle(v, t))), k) ==
      match k
      case BackgroundColor => Some(Str(Resolve(t.colors, Fill(v))))
      case BorderColor => Some(ThemeColor(t, Edge(v)))
      case BorderWidth => if v == GhostButton then Some(Num(1.0)) else None
      case _ => None
  {
  }

  lemma SizeAt(s: ButtonSize, t: Theme, k: StyleKey)
    ensures At(Object(Some(SizeStyle(s, t))), k) ==
      match k
      case PaddingHorizontal => Some(Num(Spacing(t, if s == Small then Md else Lg)))
      case PaddingVertical => Some(Num(Spacing(t, if s == Small then Sm else Md)))
      case MinHeight => Some(Num(MinHeightOf(s)))
      case _ => None
  {
  }

  lemma OwnStyleAt(p: ButtonProps, t: Theme, k: StyleKey)
    ensures var v, s := EffectiveVariant(p), EffectiveSize(p);
      At(Object(Some(OwnStyle(p, t))), k) ==
      match k
      case BackgroundColor => Some(Str(Resolve(t.colors, Fill(v))))
      case BorderColor => Some(ThemeColor(t, Edge(v)))
      case BorderWidth => if v == GhostButton then Some(Num(1.0)) else None
      case PaddingHorizontal => Some(Num(Spacing(t, if s == Small then Md else Lg)))
      case PaddingVertical => Some(Num(Spacing(t, if s == Small then Sm else Md)))
      case MinHeight => Some(Num(MinHeightOf(s)))
      case BorderRadius => Some(Num(Radius(t, RadiusMd)))
      case Opacity => Some(Num(OpacityOf(p)))
      case _ => None
  {
    var vs, ss := VariantStyle(EffectiveVariant(p), t), SizeStyle(EffectiveSize(p), t);
    var rest := map[BorderRadius := Num(Radius(t, RadiusMd)), Opacity := Num(OpacityOf(p))];
    AtUnion(vs + ss, rest, k);
    AtUnion(vs, ss, k);
    VariantAt(EffectiveVariant(p), t, k);
    SizeAt(EffectiveSize(p), t, k);
  }

  lemma OwnAt(p: ButtonProps, t: Theme, k: StyleKey)
    ensures Later(At(Object(Some(ButtonBase)), k), At(Object(Some(OwnStyle(p, t))), k)) == ButtonDefault(p, t, k)
  {
    OwnStyleAt(p, t, k);
  }

  /** The button's style at any key: the caller's value when its style sets the key, else the table value. */
  lemma {:induction false} ButtonStyleByKey(p: ButtonProps, t: Theme, k: StyleKey)
    ensures Gives(ButtonStyle(p, t), k, Later(ButtonDefault(p, t, k), At(Object(p.style), k)))
  {
    var es := ButtonEntries(p, t);
    FlattenLookup(es, k);
    Lookup3(es[0], es[1], es[2], k);
    OwnAt(p, t, k);
  }

  /** Filled variants use one token for fill and border; ghost is transparent with a 1-wide `primary` border. */
  lemma VariantColours(v: ButtonVariant, t: Theme)
    ensures v != GhostButton ==>
      && VariantStyle(v, t)[BackgroundColor] == VariantStyle(v, t)[BorderColor]
      && BorderWidth !in VariantStyle(v, t)
    ensures v == GhostButton ==>
      && VariantStyle(v, t)[BackgroundColor] == Str("transparent")
      && VariantStyle(v, t)[BorderColor] == ThemeColor(t, Primary)
      && VariantStyle(v, t)[BorderWidth] == Num(1.0)
  {
  }

  /** Without a caller opacity, the button is dimmed exactly when a press does not fire. */
  lemma DimmedExactlyWhenInert(p: ButtonProps, t: Theme)
    requires p.style.None? || Opacity !in p.style.value
    ensures Opacity in ButtonStyle(p, t)
    ensures ButtonStyle(p, t)[Opacity] == Num(0.5) <==> Press(p) == 0
  {
    ButtonStyleByKey(p, t, Opacity);
  }

  /** `variant === 'ghost' ? primary : white`. */
  function TextColorOf(v: ButtonVariant): (c: ColorToken)
    ensures c == Primary <==> v == GhostButton
    ensures c == White <==> v != GhostButton
  {
    if v == GhostButton then Primary else White
  }

  /** The label's Text variant: `body3` exactly for small buttons. */
  function LabelVariant(s: ButtonSize): (v: TextVariant)
    ensures v == Body3 <==> s == Small
    ensures v == Body1 <==> s != Small
  {
    if s == Small then Body3 else Body1
  }

  /** What fills the button: a spinner while loading, else the optional icon and the label. */
  datatype ButtonContent =
    | Spinner(color: string, spinnerSize: string)
    | Labelled(icon: bool, text: string, textStyle: Style)

  datatype ButtonView = ButtonView(style: Style, touchDisabled: bool, content: ButtonContent)

  /** The label's Text props: the size's variant, the text colour, and the weight `'600'`. */
  function LabelProps(p: ButtonProps, t: Theme): TextComponent.TextProps {
    TextComponent.TextProps(
      Some(LabelVariant(EffectiveSize(p))),
      Some(Tokens.Color(t.colors, TextColorOf(EffectiveVariant(p)))),
      None,
      Some(map[FontWeight := Str("600")]))
  }

  function Content(p: ButtonProps, t: Theme): ButtonContent {
    var color := Tokens.Color(t.colors, TextColorOf(EffectiveVariant(p)));
    if p.loading.GetOr(false) then Spinner(color, if EffectiveSize(p) == Small then "small" else "large")
    else Labelled(p.hasIcon, p.labelText, TextComponent.TextStyle(LabelProps(p, t), t))
  }

  function Render(p: ButtonProps, t: Theme): ButtonView {
    ButtonView(ButtonStyle(p, t), Inactive(p), Content(p, t))
  }

  /**
   * A spinner is shown exactly while loading, small exactly for small
   * buttons; otherwise the label is shown in the variant's text colour.
   */
  lemma ContentByState(p: ButtonProps, t: Theme)
    ensures Content(p, t).Spinner? <==> p.loading == Some(true)
    ensures Content(p, t).Spinner? ==> (Content(p, t).spinnerSize == "small" <==> EffectiveSize(p) == Small)
    ensures Content(p, t).Spinner? ==> Content(p, t).color == Tokens.Color(t.colors, TextColorOf(EffectiveVariant(p)))
    ensures Content(p, t).Labelled? ==> Content(p, t).text == p.labelText && Content(p, t).icon == p.hasIcon
  {
  }

  /** The label is semi-bold at the font size of `body3` for small buttons and of `body1` otherwise. */
  lemma LabelStyle(p: ButtonProps, t: Theme)
    requires p.loading != Some(true)
    ensures var s := Content(p, t).textStyle;
      && FontWeight in s && s[FontWeight] == Str("600")
      && FontSize in s
      && s[FontSize] == Num(if EffectiveSize(p) == Small then t.typography.body3.fontSize else t.typography.body1.fontSize)
  {
    var q := LabelProps(p, t);
    TextComponent.TextStyleByKey(q, t, FontWeight);
    TextComponent.TextStyleByKey(q, t, FontSize);
  }

  /** The touchable is disabled exactly when a press does not fire. */
  lemma TouchDisabledWhenInert(p: ButtonProps, t: Theme)
    ensures Render(p, t).touchDisabled <==> Press(p) == 0
  {
  }
}
