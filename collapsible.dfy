/**
 * Collapsible (components/layouts/Collapsible.tsx): a titled section whose
 * body is mounted only while it is expanded. The `expanded` flag is the
 * component's own state; each press of the header configures a layout
 * animation and then flips the flag.
 */
module CollapsibleSection {
  import opened Wrappers
  import opened Styles
  import opened Tokens

  // State

  /** The calls a press makes, in order: the animation API, then the state setter. */
  datatype Action = ConfigureAnimation | SetExpanded(value: bool)

  /** The `expanded` flag and every call made so far. */
  datatype SectionState = SectionState(expanded: bool, calls: seq<Action>)

  /** `useState(initiallyExpanded)`, with `initiallyExpanded` false unless given. */
  function Mount(initiallyExpanded: Option<bool>): (s: SectionState)
    ensures initiallyExpanded.None? ==> !s.expanded
    ensures initiallyExpanded.Some? ==> s.expanded == initiallyExpanded.value
    ensures s.calls == []
  {
    SectionState(initiallyExpanded.GetOr(false), [])
  }

  /** `toggleExpanded`: configure the next layout animation, then set the negated flag. */
  function Press(s: SectionState): SectionState {
    SectionState(!s.expanded, s.calls + [ConfigureAnimation, SetExpanded(!s.expanded)])
  }

  /** Each press flips the flag; two presses restore it. */
  lemma PressFlips(s: SectionState)
    ensures Press(s).expanded == !s.expanded
    ensures Press(Press(s)).expanded == s.expanded
  {
  }

  /** The calls come in pairs: an animation is configured before every change of the flag. */
  predicate AnimatedPairs(calls: seq<Action>) {
    && |calls| % 2 == 0
    && forall i :: 0 <= i < |calls| ==> (calls[i] == ConfigureAnimation <==> i % 2 == 0)
  }

  /** Pressing keeps the calls in pairs, and the last call sets the new flag. */
  lemma PressAnimatesFirst(s: SectionState)
    requires AnimatedPairs(s.calls)
    ensures AnimatedPairs(Press(s).calls)
    ensures Press(s).calls[|Press(s).calls| - 1] == SetExpanded(Press(s).expanded)
  {
    var c := Press(s).calls;
    assert |c| == |s.calls| + 2;
    forall i | 0 <= i < |c|
      ensures c[i] == ConfigureAnimation <==> i % 2 == 0
    {
      if i < |s.calls| {
        assert c[i] == s.calls[i];
      }
    }
  }

  /** Presses from mounting: the flag is flipped once per press. */
  function Presses(s: SectionState, n: nat): SectionState
    decreases n
  {
    if n == 0 then s else Press(Presses(s, n - 1))
  }

  /** After `n` presses the section is expanded exactly when it started so and `n` is even, or the reverse. */
  lemma {:induction false} PressesParity(s: SectionState, n: nat)
    requires AnimatedPairs(s.calls)
    ensures Presses(s, n).expanded == (if n % 2 == 0 then s.expanded else !s.expanded)
    ensures |Presses(s, n).calls| == |s.calls| + 2 * n
    ensures AnimatedPairs(Presses(s, n).calls)
    decreases n
  {
    if n > 0 {
      PressesParity(s, n - 1);
      PressAnimatesFirst(Presses(s, n - 1));
    }
  }

  /** The section's state held in place, as React holds it between renders. */
  class Collapsible {
    var expanded: bool
    var calls: seq<Action>

    function State(): SectionState
      reads this
    {
      SectionState(expanded, calls)
    }

    constructor(initiallyExpanded: Option<bool>)
      ensures State() == Mount(initiallyExpanded)
    {
      expanded := initiallyExpanded.GetOr(false);
      calls := [];
    }

    /** `toggleExpanded`, run by a press of the header. */
    method ToggleExpanded()
      modifies this
      ensures State() == Press(old(State()))
    {
      calls := calls + [ConfigureAnimation];
      calls := calls + [SetExpanded(!expanded)];
      expanded := !expanded;
    }
  }

  // Rendering

  /** The glyph the source file holds for the expanded indicator (see README, Findings). */
  const IndicatorAsWritten: string := "\U{00E2}\U{02C6}\U{2019}"

  /** The minus sign U+2212 shown while expanded. */
  const Minus: string := "\U{2212}"

  /** The header indicator, with the glyph as the source file has it. */
  function IndicatorWritten(expanded: bool): string {
    if expanded then IndicatorAsWritten else "+"
  }

  /** The header indicator: a minus sign while expanded, a plus sign while collapsed. */
  function Indicator(expanded: bool): (glyph: string)
    ensures glyph == Minus <==> expanded
    ensures glyph == "+" <==> !expanded
  {
    if expanded then Minus else "+"
  }

  /** As written, the expanded indicator is three characters and not the minus sign. */
  lemma IndicatorWrittenIsNotMinus()
    ensures IndicatorWritten(true) != Minus && |IndicatorWritten(true)| == 3
    ensures IndicatorWritten(true) != Indicator(true)
  {
  }

  /** What one render produces. `content` is the style of the body, None when the body is not mounted. */
  datatype View = View(
    wrapper: Style,
    header: Style,
    title: string,
    titleStyle: Style,
    indicator: string,
    indicatorStyle: Style,
    content: Option<Style>)

  const WrapperBase: Style := map[BorderWidth := Num(1.0), Overflow := Str("hidden")]
  const HeaderBase: Style := map[FlexDirection := Str("row"), JustifyContent := Str("space-between"), AlignItems := Str("center")]

  function WrapperEntries(t: Theme, style: Option<Style>): seq<Entry> {
    [ Object(Some(WrapperBase)),
      Object(Some(map[BorderColor := ThemeColor(t, Border), BorderRadius := Num(Radius(t, RadiusMd))])),
      Object(style) ]
  }

  function TitleEntries(t: Theme): seq<Entry> {
    [ Object(Some(Typography(t, Body1))),
      Object(Some(map[FontWeight := Str("600")])),
      Object(Some(map[Color := ThemeColor(t, Text)])) ]
  }

  function WrapperStyle(t: Theme, style: Option<Style>): Style {
    Flatten(WrapperEntries(t, style))
  }

  function TitleStyle(t: Theme): Style {
    Flatten(TitleEntries(t))
  }

  function Render(t: Theme, title: string, style: Option<Style>, expanded: bool): View {
    View(
      WrapperStyle(t, style),
      Flatten([ Object(Some(HeaderBase)),
                Object(Some(map[Padding := Num(Spacing(t, Md)), BackgroundColor := ThemeColor(t, Surface)])) ]),
      title,
      TitleStyle(t),
      Indicator(expanded),
      Flatten([ Object(Some(Typography(t, H3))), Object(Some(map[Color := ThemeColor(t, TextSecondary)])) ]),
      if expanded then Some(Flatten([ Object(Some(map[])),
        Object(Some(map[Padding := Num(Spacing(t, Md)), BackgroundColor := ThemeColor(t, Background)])) ]))
      else None)
  }

  /** The body is mounted exactly while expanded; the title is shown in both states. */
  lemma ContentOnlyWhenExpanded(t: Theme, title: string, style: Option<Style>, expanded: bool)
    ensures Render(t, title, style, expanded).content.Some? <==> expanded
    ensures Render(t, title, style, expanded).title == title
    ensures Render(t, title, style, expanded).indicator == Indicator(expanded)
  {
  }

  /** What the wrapper sets before the caller's style. */
  function WrapperDefault(t: Theme, k: StyleKey): Option<StyleValue> {
    match k
    case BorderWidth => Some(Num(1.0))
    case Overflow => Some(Str("hidden"))
    case BorderColor => Some(ThemeColor(t, Border))
    case BorderRadius => Some(Num(Radius(t, RadiusMd)))
    case _ => None
  }

  /** The wrapper: a 1-wide border in the theme's border colour, `md` radius, clipped; the caller's style wins. */
  lemma WrapperByKey(t: Theme, style: Option<Style>, k: StyleKey)
    ensures Gives(WrapperStyle(t, style), k, Later(WrapperDefault(t, k), At(Object(style), k)))
  {
    var es := WrapperEntries(t, style);
    FlattenLookup(es, k);
    Lookup3(es[0], es[1], es[2], k);
  }

  /** The title is bold (`'600'`) over the body1 weight, in the theme's text colour. */
  lemma TitleWeightAndColor(t: Theme)
    ensures FontWeight in TitleStyle(t) && TitleStyle(t)[FontWeight] == Str("600")
    ensures Color in TitleStyle(t) && TitleStyle(t)[Color] == ThemeColor(t, Text)
  {
    var es := TitleEntries(t);
    FlattenLookup(es, FontWeight);
    FlattenLookup(es, Color);
    Lookup3(es[0], es[1], es[2], FontWeight);
    Lookup3(es[0], es[1], es[2], Color);
  }
}
