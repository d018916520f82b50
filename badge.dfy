/**
 * Badge (components/display/Badge.tsx): a pill in a status colour with
 * small white text; the variant picks the colour and the size the padding
 * and font size.
 */
module BadgeComponent {
  import opened Wrappers
  import opened Styles
  import opened Tokens

  datatype BadgeVariant = PrimaryBadge | SecondaryBadge | SuccessBadge | ErrorBadge | WarningBadge | InfoBadge

  datatype BadgeSize = Small | Medium | Large

  /** The props; the children are rendered as they are and are not part of this model. */
  datatype BadgeProps = BadgeProps(variant: Option<BadgeVariant>, size: Option<BadgeSize>, style: Option<Style>)

  /** `variant` is `primary` unless given. */
  function VariantOf(p: BadgeProps): (v: BadgeVariant)
    ensures p.variant.None? ==> v == PrimaryBadge
    ensures p.variant.Some? ==> v == p.variant.value
  {
    p.variant.GetOr(PrimaryBadge)
  }

  /** `size` is `medium` unless given. */
  function SizeOf(p: BadgeProps): (s: BadgeSize)
    ensures p.size.None? ==> s == Medium
    ensures p.size.Some? ==> s == p.size.value
  {
    p.size.GetOr(Medium)
  }

  /** `variantColors`: each variant is coloured by the theme colour of the same name. */
  function VariantToken(v: BadgeVariant): (c: ColorToken)
    ensures c in {Primary, Secondary, ColorToken.Success, Error, Warning, Info}
    ensures v == PrimaryBadge ==> c == Primary
    ensures v == SecondaryBadge ==> c == Secondary
    ensures v == SuccessBadge ==> c == ColorToken.Success
    ensures v == ErrorBadge ==> c == Error
    ensures v == WarningBadge ==> c == Warning
    ensures v == InfoBadge ==> c == Info
  {
    match v
    case PrimaryBadge => Primary
    case SecondaryBadge => Secondary
    case SuccessBadge => ColorToken.Success
    case ErrorBadge => Error
    case WarningBadge => Warning
    case InfoBadge => Info
  }

  /** Distinct variants name distinct theme colours. */
  lemma VariantTokenInjective(a: BadgeVariant, b: BadgeVariant)
    ensures VariantToken(a) == VariantToken(b) <==> a == b
  {
  }

  /** `sizeStyles`. */
  function SizeStyle(s: BadgeSize, t: Theme): Style {
    match s
    case Small => map[PaddingHorizontal := Num(Spacing(t, Xs)), PaddingVertical := Num(Spacing(t, Xs) / 2.0), FontSize := Num(10.0)]
    case Medium => map[PaddingHorizontal := Num(Spacing(t, Sm)), PaddingVertical := Num(Spacing(t, Xs)), FontSize := Num(12.0)]
    case Large => map[PaddingHorizontal := Num(Spacing(t, Md)), PaddingVertical := Num(Spacing(t, Sm)), FontSize := Num(14.0)]
  }

  /** The font size of each size, as a table: 10, 12, 14. */
  function FontSizeOf(s: BadgeSize): (f: real)
    ensures 10.0 <= f <= 14.0
    ensures s == Small ==> f == 10.0
    ensures s == Medium ==> f == 12.0
    ensures s == Large ==> f == 14.0
  {
    match s
    case Small => 10.0
    case Medium => 12.0
    case Large => 14.0
  }

  /** The size table sets exactly the two paddings and the font size, at the font size of the table above. */
  lemma SizeTable(s: BadgeSize, t: Theme)
    ensures FontSize in SizeStyle(s, t) && SizeStyle(s, t)[FontSize] == Num(FontSizeOf(s))
    ensures PaddingHorizontal in SizeStyle(s, t) && PaddingVertical in SizeStyle(s, t)
    ensures SizeStyle(s, t).Keys == {PaddingHorizontal, PaddingVertical, FontSize}
  {
  }

  datatype BadgeView = BadgeView(container: Style, text: Style)

  function ContainerEntries(p: BadgeProps, t: Theme): seq<Entry> {
    [ Object(Some(map[BackgroundColor := ThemeColor(t, VariantToken(VariantOf(p))),
                      BorderRadius := Num(Radius(t, RadiusFull)),
                      AlignSelf := Str("flex-start")] + SizeStyle(SizeOf(p), t))),
      Object(p.style) ]
  }

  /** The text style: white, semi-bold, at the size's font size. */
  function TextStyle(p: BadgeProps, t: Theme): Style {
    var size := SizeStyle(SizeOf(p), t);
    map[Color := ThemeColor(t, White), FontSize := size[FontSize], FontWeight := Str("600")]
  }

  function Render(p: BadgeProps, t: Theme): BadgeView {
    BadgeView(Flatten(ContainerEntries(p, t)), TextStyle(p, t))
  }

  /** Reference: what the container sets at each key before the caller's style. */
  function ContainerDefault(p: BadgeProps, t: Theme, k: StyleKey): Option<StyleValue> {
    var s := SizeOf(p);
    match k
    case BackgroundColor => Some(ThemeColor(t, VariantToken(VariantOf(p))))
    case BorderRadius => Some(Num(Radius(t, RadiusFull)))
    case AlignSelf => Some(Str("flex-start"))
    case FontSize => Some(Num(FontSizeOf(s)))
    case PaddingHorizontal => Some(Num(Spacing(t, match s case Small => Xs case Medium => Sm case Large => Md)))
    case PaddingVertical => Some(Num(match s case Small => Spacing(t, Xs) / 2.0 case Medium => Spacing(t, Xs) case Large => Spacing(t, Sm)))
    case _ => None
  }

  lemma SizeAt(s: BadgeSize, t: Theme, k: StyleKey)
    ensures At(Object(Some(SizeStyle(s, t))), k) ==
      match k
      case FontSize => Some(Num(FontSizeOf(s)))
      case PaddingHorizontal => Some(Num(Spacing(t, match s case Small => Xs case Medium => Sm case Large => Md)))
      case PaddingVertical => Some(Num(match s case Small => Spacing(t, Xs) / 2.0 case Medium => Spacing(t, Xs) case Large => Spacing(t, Sm)))
      case _ => None
  {
  }

  lemma ContainerObjectAt(p: BadgeProps, t: Theme, k: StyleKey)
    ensures At(ContainerEntries(p, t)[0], k) == ContainerDefault(p, t, k)
  {
    AtUnion(map[BackgroundColor := ThemeColor(t, VariantToken(VariantOf(p))),
                BorderRadius := Num(Radius(t, RadiusFull)),
                AlignSelf := Str("flex-start")], SizeStyle(SizeOf(p), t), k);
    SizeAt(SizeOf(p), t, k);
  }

  lemma {:induction false} ContainerByKey(p: BadgeProps, t: Theme, k: StyleKey)
    ensures Gives(Render(p, t).container, k, Later(ContainerDefault(p, t, k), At(Object(p.style), k)))
  {
    var es := ContainerEntries(p, t);
    FlattenLookup(es, k);
    Lookup2(es[0], es[1], k);
    ContainerObjectAt(p, t, k);
  }

  /** The text is white, semi-bold, and as large as the container's font size unless the caller's style changes it. */
  lemma TextMatchesContainer(p: BadgeProps, t: Theme)
    ensures Render(p, t).text[FontSize] == Num(FontSizeOf(SizeOf(p)))
    ensures Render(p, t).text[Color] == ThemeColor(t, White) && Render(p, t).text[FontWeight] == Str("600")
    ensures p.style.None? || FontSize !in p.style.value ==>
      FontSize in Render(p, t).container && Render(p, t).container[FontSize] == Render(p, t).text[FontSize]
  {
    SizeTable(SizeOf(p), t);
    ContainerByKey(p, t, FontSize);
  }
}
