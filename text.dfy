/**
 * Text (components/typography/Text.tsx): the base text component and its
 * sixteen wrappers, one per typography variant.
 */
module TextComponent {
  import opened Wrappers
  import opened Styles
  import opened Tokens

  /** `textAlign` values; every one is a non-empty, truthy string. */
  datatype TextAlignment = AutoAlign | LeftAlign | RightAlign | CenterAlign | Justify {
    function Name(): string {
      match this
      case AutoAlign => "auto"
      case LeftAlign => "left"
      case RightAlign => "right"
      case CenterAlign => "center"
      case Justify => "justify"
    }
  }

  /** TextProps; the children are rendered as they are and are not part of this model. */
  datatype TextProps = TextProps(
    variant: Option<TextVariant>,
    color: Option<string>,
    textAlign: Option<TextAlignment>,
    style: Option<Style>)

  /** The variant Text renders with: `body1` unless one is given. */
  function EffectiveVariant(p: TextProps): (v: TextVariant)
    ensures p.variant.None? ==> v == Body1
    ensures p.variant.Some? ==> v == p.variant.value
  {
    p.variant.GetOr(Body1)
  }

  /** The style array: typography of the variant, colour, alignment when given, caller's style. */
  function TextEntries(p: TextProps, t: Theme): seq<Entry> {
    [ Object(Some(Typography(t, EffectiveVariant(p)))),
      Prop(Color, Some(Str(OrElse(p.color, t.colors.text)))),
      Prop(TextAlign, if p.textAlign.Some? then Some(Str(p.textAlign.value.Name())) else None),
      Object(p.style) ]
  }

  function TextStyle(p: TextProps, t: Theme): Style {
    Flatten(TextEntries(p, t))
  }

  /** Reference: what the props give each key, before the caller's style. */
  function TextContribution(p: TextProps, t: Theme, k: StyleKey): Option<StyleValue> {
    var typo := Typography(t, EffectiveVariant(p));
    match k
    case Color => Some(Str(OrElse(p.color, t.colors.text)))
    case TextAlign => if p.textAlign.Some? then Some(Str(p.textAlign.value.Name())) else None
    case _ => if k in typo then Some(typo[k]) else None
  }

  /**
   * Text's style at any key: the caller's value when its style sets the key,
   * otherwise colour and alignment from the props and the rest from the
   * variant's typography.
   */
  lemma {:induction false} TextStyleByKey(p: TextProps, t: Theme, k: StyleKey)
    ensures Gives(TextStyle(p, t), k, Later(TextContribution(p, t, k), At(Object(p.style), k)))
  {
    var es := TextEntries(p, t);
    FlattenLookup(es, k);
    Lookup4(es[0], es[1], es[2], es[3], k);
  }

  /** Without a caller style the colour is always set: the given colour, or the theme's text colour. */
  lemma TextColor(p: TextProps, t: Theme)
    requires p.style.None?
    ensures Color in TextStyle(p, t)
    ensures TextStyle(p, t)[Color] == Str(if p.color.Some? && p.color.value != "" then p.color.value else t.colors.text)
  {
    TextStyleByKey(p, t, Color);
  }

  /** `textAlign` is in the style exactly when the prop or the caller's style sets it. */
  lemma TextAlignOnlyWhenGiven(p: TextProps, t: Theme)
    ensures TextAlign in TextStyle(p, t) <==> p.textAlign.Some? || (p.style.Some? && TextAlign in p.style.value)
  {
    TextStyleByKey(p, t, TextAlign);
  }

  /** H1 .. Overline: Text with the variant forced, whatever variant the caller passed. */
  function VariantText(v: TextVariant, p: TextProps): (q: TextProps)
    ensures EffectiveVariant(q) == v
    ensures q.color == p.color && q.textAlign == p.textAlign && q.style == p.style
  {
    p.(variant := Some(v))
  }

  /** A wrapper's font size is its variant's unless the caller's style overrides it. */
  lemma VariantTextFontSize(v: TextVariant, p: TextProps, t: Theme)
    ensures FontSize in TextStyle(VariantText(v, p), t)
    ensures TextStyle(VariantText(v, p), t)[FontSize] ==
      if p.style.Some? && FontSize in p.style.value then p.style.value[FontSize]
      else Num(Config(t.typography, v).fontSize)
  {
    TextStyleByKey(VariantText(v, p), t, FontSize);
  }
}
