/**
 * ProgressBar (components/display/ProgressBar.tsx): a track whose inner fill
 * is as wide, in percent of the track, as the progress clamped to [0, 1].
 */
module ProgressBarComponent {
  import opened Wrappers
  import opened Styles
  import opened Tokens
  import MathUtil

  /** The props; `progress` is a finite number (NaN is not part of this model). */
  datatype ProgressProps = ProgressProps(
    progress: real,
    height: Option<real>,
    color: Option<string>,
    backgroundColor: Option<string>,
    borderRadius: Option<RadiusKey>,
    style: Option<Style>)

  /** `height` is 8 unless given. */
  function HeightOf(p: ProgressProps): (h: real)
    ensures p.height.None? ==> h == 8.0
    ensures p.height.Some? ==> h == p.height.value
  {
    p.height.GetOr(8.0)
  }

  /** `borderRadius` is the `full` token unless given. */
  function RadiusOf(p: ProgressProps): (k: RadiusKey)
    ensures p.borderRadius.None? ==> k == RadiusFull
    ensures p.borderRadius.Some? ==> k == p.borderRadius.value
  {
    p.borderRadius.GetOr(RadiusFull)
  }

  /** `Math.max(0, Math.min(1, progress))`. */
  function Clamped(progress: real): (c: real)
    ensures 0.0 <= c <= 1.0
    ensures 0.0 <= progress <= 1.0 ==> c == progress
    ensures progress < 0.0 ==> c == 0.0
    ensures progress > 1.0 ==> c == 1.0
  {
    var upper := if progress <= 1.0 then progress else 1.0;
    if upper >= 0.0 then upper else 0.0
  }

  /** The bar clamps as the library's `clamp` does with bounds 0 and 1; clamping again changes nothing. */
  lemma ClampedIsClamp(progress: real)
    ensures Clamped(progress) == MathUtil.Clamp(progress, 0.0, 1.0)
    ensures Clamped(Clamped(progress)) == Clamped(progress)
  {
  }

  /** The fill width in percent of the track. */
  function FillPercent(progress: real): (w: real)
    ensures 0.0 <= w <= 100.0
    ensures w == Clamped(progress) * 100.0
  {
    Clamped(progress) * 100.0
  }

  /** More progress never gives a narrower fill. */
  lemma FillMonotone(a: real, b: real)
    requires a <= b
    ensures FillPercent(a) <= FillPercent(b)
  {
  }

  datatype ProgressView = ProgressView(track: Style, fill: Style)

  function TrackEntries(p: ProgressProps, t: Theme): seq<Entry> {
    [ Object(Some(map[Height := Num(HeightOf(p)),
                      BackgroundColor := Str(OrElse(p.backgroundColor, t.colors.border)),
                      BorderRadius := Num(Radius(t, RadiusOf(p))),
                      Overflow := Str("hidden")])),
      Object(p.style) ]
  }

  function Render(p: ProgressProps, t: Theme): ProgressView {
    ProgressView(
      Flatten(TrackEntries(p, t)),
      map[Height := Pct(100.0), Width := Pct(FillPercent(p.progress)),
          BackgroundColor := Str(OrElse(p.color, t.colors.primary))])
  }

  /** Reference: what the track sets at each key before the caller's style. */
  function TrackDefault(p: ProgressProps, t: Theme, k: StyleKey): Option<StyleValue> {
    match k
    case Height => Some(Num(p.height.GetOr(8.0)))
    case BackgroundColor => Some(Str(if p.backgroundColor.Some? && p.backgroundColor.value != "" then p.backgroundColor.value else t.colors.border))
    case BorderRadius => Some(Num(Radius(t, p.borderRadius.GetOr(RadiusFull))))
    case Overflow => Some(Str("hidden"))
    case _ => None
  }

  /** The track: height, colour (falling back to `border`), radius, clipping; the caller's style wins. */
  lemma TrackByKey(p: ProgressProps, t: Theme, k: StyleKey)
    ensures Gives(Render(p, t).track, k, Later(TrackDefault(p, t, k), At(Object(p.style), k)))
  {
    var es := TrackEntries(p, t);
    FlattenLookup(es, k);
    Lookup2(es[0], es[1], k);
  }

  /** The fill is full height, as wide as the clamped progress, in the given colour or else `primary`. */
  lemma FillValues(p: ProgressProps, t: Theme)
    ensures var f := Render(p, t).fill;
      && f[Height] == Pct(100.0)
      && f[Width] == Pct(Clamped(p.progress) * 100.0)
      && f[BackgroundColor] == Str(if p.color.Some? && p.color.value != "" then p.color.value else t.colors.primary)
  {
  }
}
