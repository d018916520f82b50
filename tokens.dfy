/**
 * Theme tokens: the shape of a theme (types/index.ts). The concrete light and
 * dark token values live in a file that is not part of this model, so a theme
 * is always a parameter.
 */
module Tokens {
  import opened Wrappers
  import opened Styles

  /** The names of the colour bank. */
  datatype ColorToken =
    | Primary | Secondary | Background | Surface
    | Text | TextSecondary | TextTertiary
    | Border | BorderLight
    | Error | Success | Warning | Info
    | Transparent | White | Black | Disabled

  /** The colour bank of one theme. */
  datatype Palette = Palette(
    primary: string, secondary: string, background: string, surface: string,
    text: string, textSecondary: string, textTertiary: string,
    border: string, borderLight: string,
    error: string, success: string, warning: string, info: string,
    transparent: string, white: string, black: string, disabled: string)

  function Color(p: Palette, c: ColorToken): string {
    match c
    case Primary => p.primary
    case Secondary => p.secondary
    case Background => p.background
    case Surface => p.surface
    case Text => p.text
    case TextSecondary => p.textSecondary
    case TextTertiary => p.textTertiary
    case Border => p.border
    case BorderLight => p.borderLight
    case Error => p.error
    case Success => p.success
    case Warning => p.warning
    case Info => p.info
    case Transparent => p.transparent
    case White => p.white
    case Black => p.black
    case Disabled => p.disabled
  }

  /** Where a computed colour comes from: a theme colour, or a colour written out in the component. */
  datatype ColorRef = Token(token: ColorToken) | Literal(color: string)

  function Resolve(p: Palette, c: ColorRef): string {
    match c
    case Token(tok) => Color(p, tok)
    case Literal(s) => s
  }

  /** The spacing scale keys `xs`..`xxl`. */
  datatype SpacingKey = Xs | Sm | Md | Lg | Xl | Xxl

  datatype SpacingScale = SpacingScale(xs: real, sm: real, md: real, lg: real, xl: real, xxl: real)

  /** The border-radius scale keys. */
  datatype RadiusKey = RadiusXs | RadiusSm | RadiusMd | RadiusLg | RadiusFull

  datatype RadiusScale = RadiusScale(xs: real, sm: real, md: real, lg: real, full: real)

  /** The typography scale keys (the `variant` prop of Text). */
  datatype TextVariant =
    | H1 | H2 | H3 | H4 | H5 | H6
    | Body1 | Body2 | Body3 | Body4 | Body5 | Body6
    | Subtitle1 | Subtitle2 | Caption | Overline

  datatype TypographyConfig = TypographyConfig(
    fontSize: real, fontWeight: string, lineHeight: real, letterSpacing: Option<real>)

  /** The typography scale: one configuration per variant. */
  datatype TypographySystem = TypographySystem(
    h1: TypographyConfig, h2: TypographyConfig, h3: TypographyConfig,
    h4: TypographyConfig, h5: TypographyConfig, h6: TypographyConfig,
    body1: TypographyConfig, body2: TypographyConfig, body3: TypographyConfig,
    body4: TypographyConfig, body5: TypographyConfig, body6: TypographyConfig,
    subtitle1: TypographyConfig, subtitle2: TypographyConfig,
    caption: TypographyConfig, overline: TypographyConfig)

  /** `typography[variant]`. */
  function Config(sys: TypographySystem, v: TextVariant): TypographyConfig {
    match v
    case H1 => sys.h1
    case H2 => sys.h2
    case H3 => sys.h3
    case H4 => sys.h4
    case H5 => sys.h5
    case H6 => sys.h6
    case Body1 => sys.body1
    case Body2 => sys.body2
    case Body3 => sys.body3
    case Body4 => sys.body4
    case Body5 => sys.body5
    case Body6 => sys.body6
    case Subtitle1 => sys.subtitle1
    case Subtitle2 => sys.subtitle2
    case Caption => sys.caption
    case Overline => sys.overline
  }

  /** One theme; the shadow presets are not part of this model. */
  datatype Theme = Theme(
    colors: Palette,
    typography: TypographySystem,
    spacing: SpacingScale,
    borderRadius: RadiusScale)

  function Spacing(t: Theme, k: SpacingKey): real {
    match k
    case Xs => t.spacing.xs
    case Sm => t.spacing.sm
    case Md => t.spacing.md
    case Lg => t.spacing.lg
    case Xl => t.spacing.xl
    case Xxl => t.spacing.xxl
  }

  function Radius(t: Theme, k: RadiusKey): real {
    match k
    case RadiusXs => t.borderRadius.xs
    case RadiusSm => t.borderRadius.sm
    case RadiusMd => t.borderRadius.md
    case RadiusLg => t.borderRadius.lg
    case RadiusFull => t.borderRadius.full
  }

  function ThemeColor(t: Theme, c: ColorToken): StyleValue {
    Str(Color(t.colors, c))
  }

  /** A typography entry as a style object: only typography keys. */
  function TypographyStyle(cfg: TypographyConfig): (s: Style)
    ensures s.Keys <= {FontSize, FontWeight, LineHeight, LetterSpacing}
    ensures FontSize in s && s[FontSize] == Num(cfg.fontSize)
    ensures FontWeight in s && s[FontWeight] == Str(cfg.fontWeight)
    ensures LineHeight in s && s[LineHeight] == Num(cfg.lineHeight)
    ensures LetterSpacing in s <==> cfg.letterSpacing.Some?
    ensures LetterSpacing in s ==> s[LetterSpacing] == Num(cfg.letterSpacing.value)
  {
    var base := map[FontSize := Num(cfg.fontSize), FontWeight := Str(cfg.fontWeight), LineHeight := Num(cfg.lineHeight)];
    match cfg.letterSpacing
    case Some(ls) => base[LetterSpacing := Num(ls)]
    case None => base
  }

  /** `theme.typography[variant]`: the typography system has an entry for every variant. */
  function Typography(t: Theme, v: TextVariant): Style {
    TypographyStyle(Config(t.typography, v))
  }
}
