/**
 * Box, Row and Column (components/layouts/Box.tsx): each builds a style array
 * from its layout props, one entry per prop, with the caller's `style` last.
 * Spacing and radius props are token names looked up in the theme; the other
 * props are copied as they are.
 */
module Box {
  import opened Wrappers
  import opened Styles
  import opened Tokens

  /** `flexDirection` values. */
  datatype Direction = DirRow | DirColumn | DirRowReverse | DirColumnReverse {
    function Name(): string {
      match this
      case DirRow => "row"
      case DirColumn => "column"
      case DirRowReverse => "row-reverse"
      case DirColumnReverse => "column-reverse"
    }
  }

  /** `alignItems` values. */
  datatype Alignment = AlignFlexStart | AlignFlexEnd | AlignCenter | AlignStretch | AlignBaseline {
    function Name(): string {
      match this
      case AlignFlexStart => "flex-start"
      case AlignFlexEnd => "flex-end"
      case AlignCenter => "center"
      case AlignStretch => "stretch"
      case AlignBaseline => "baseline"
    }
  }

  /** `justifyContent` values. */
  datatype Justification =
    | JustifyFlexStart | JustifyFlexEnd | JustifyCenter
    | SpaceBetween | SpaceAround | SpaceEvenly
  {
    function Name(): string {
      match this
      case JustifyFlexStart => "flex-start"
      case JustifyFlexEnd => "flex-end"
      case JustifyCenter => "center"
      case SpaceBetween => "space-between"
      case SpaceAround => "space-around"
      case SpaceEvenly => "space-evenly"
    }
  }

  /** `flexWrap` values. */
  datatype Wrap = WrapLines | NoWrap | WrapReverse {
    function Name(): string {
      match this
      case WrapLines => "wrap"
      case NoWrap => "nowrap"
      case WrapReverse => "wrap-reverse"
    }
  }

  /** BoxProps; `None` is an omitted prop. `width`/`height` are a number or a string. */
  datatype BoxProps = BoxProps(
    flex: Option<real>,
    flexDirection: Option<Direction>,
    alignItems: Option<Alignment>,
    justifyContent: Option<Justification>,
    flexWrap: Option<Wrap>,
    padding: Option<SpacingKey>,
    paddingHorizontal: Option<SpacingKey>,
    paddingVertical: Option<SpacingKey>,
    margin: Option<SpacingKey>,
    marginHorizontal: Option<SpacingKey>,
    marginVertical: Option<SpacingKey>,
    gap: Option<SpacingKey>,
    backgroundColor: Option<string>,
    borderRadius: Option<RadiusKey>,
    width: Option<StyleValue>,
    height: Option<StyleValue>,
    style: Option<Style>)

  // Values of the props. `None` stands for an entry that is falsy.

  function Number(x: Option<real>): Option<StyleValue> {
    match x
    case Some(n) => Some(Num(n))
    case None => None
  }

  /** A keyword prop: every keyword is a non-empty, truthy string. */
  function Keyword(name: Option<string>): Option<StyleValue> {
    match name
    case Some(s) => Some(Str(s))
    case None => None
  }

  /** A colour string prop: the empty string is falsy and dropped. */
  function TruthyColor(c: Option<string>): Option<StyleValue> {
    match c
    case Some(s) => if s != "" then Some(Str(s)) else None
    case None => None
  }

  /** `theme.spacing[x]`. */
  function SpacingValue(t: Theme, x: Option<SpacingKey>): Option<StyleValue> {
    match x
    case Some(key) => Some(Num(Spacing(t, key)))
    case None => None
  }

  /** `theme.borderRadius[x]`. */
  function RadiusValue(t: Theme, x: Option<RadiusKey>): Option<StyleValue> {
    match x
    case Some(key) => Some(Num(Radius(t, key)))
    case None => None
  }

  function DirectionName(d: Option<Direction>): Option<string> {
    match d
    case Some(v) => Some(v.Name())
    case None => None
  }

  function AlignmentName(a: Option<Alignment>): Option<string> {
    match a
    case Some(v) => Some(v.Name())
    case None => None
  }

  function JustificationName(j: Option<Justification>): Option<string> {
    match j
    case Some(v) => Some(v.Name())
    case None => None
  }

  function WrapName(w: Option<Wrap>): Option<string> {
    match w
    case Some(v) => Some(v.Name())
    case None => None
  }

  // The style arrays. Box.tsx writes each array as one literal; here it is cut
  // into consecutive runs, which does not change the order of the entries.

  /** Box's first entries: `flex`, `flexDirection`, `alignItems`. */
  function BoxHead(p: BoxProps): seq<Entry> {
    [ Prop(Flex, Number(p.flex)),
      Prop(FlexDirection, Keyword(DirectionName(p.flexDirection))),
      Prop(AlignItems, Keyword(AlignmentName(p.alignItems))) ]
  }

  /** Row's first entries: `flexDirection: 'row'`, `flex`, `alignItems` defaulting to center. */
  function RowHead(p: BoxProps): seq<Entry> {
    [ Object(Some(map[FlexDirection := Str("row")])),
      Prop(Flex, Number(p.flex)),
      Prop(AlignItems, Keyword(Some(p.alignItems.GetOr(AlignCenter).Name()))) ]
  }

  /** Column's first entries: `flexDirection: 'column'`, `flex`, `alignItems` without default. */
  function ColumnHead(p: BoxProps): seq<Entry> {
    [ Object(Some(map[FlexDirection := Str("column")])),
      Prop(Flex, Number(p.flex)),
      Prop(AlignItems, Keyword(AlignmentName(p.alignItems))) ]
  }

  function LayoutEntries(p: BoxProps): seq<Entry> {
    [ Prop(JustifyContent, Keyword(JustificationName(p.justifyContent))),
      Prop(FlexWrap, Keyword(WrapName(p.flexWrap))),
      Prop(Width, p.width),
      Prop(Height, p.height) ]
  }

  function PaddingEntries(p: BoxProps, t: Theme): seq<Entry> {
    [ Prop(Padding, SpacingValue(t, p.padding)),
      Prop(PaddingHorizontal, SpacingValue(t, p.paddingHorizontal)),
      Prop(PaddingVertical, SpacingValue(t, p.paddingVertical)) ]
  }

  function MarginEntries(p: BoxProps, t: Theme): seq<Entry> {
    [ Prop(Margin, SpacingValue(t, p.margin)),
      Prop(MarginHorizontal, SpacingValue(t, p.marginHorizontal)),
      Prop(MarginVertical, SpacingValue(t, p.marginVertical)) ]
  }

  function PaintEntries(p: BoxProps, t: Theme): seq<Entry> {
    [ Prop(Gap, SpacingValue(t, p.gap)),
      Prop(BackgroundColor, TruthyColor(p.backgroundColor)),
      Prop(BorderRadius, RadiusValue(t, p.borderRadius)) ]
  }

  /** The entries all three components share, from `justifyContent` to `borderRadius`. */
  function SharedEntries(p: BoxProps, t: Theme): seq<Entry> {
    LayoutEntries(p) + PaddingEntries(p, t) + MarginEntries(p, t) + PaintEntries(p, t)
  }

  /** The style array of each component ends with the caller's `style`. */
  function BoxStyle(p: BoxProps, t: Theme): Style {
    Flatten(BoxHead(p) + SharedEntries(p, t) + [Object(p.style)])
  }

  function RowStyle(p: BoxProps, t: Theme): Style {
    Flatten(RowHead(p) + SharedEntries(p, t) + [Object(p.style)])
  }

  function ColumnStyle(p: BoxProps, t: Theme): Style {
    Flatten(ColumnHead(p) + SharedEntries(p, t) + [Object(p.style)])
  }

  // Reference definition: what the props give each key, one key at a time.

  /** The value the shared props give key `k`; None when none of them sets it. */
  function SharedContribution(p: BoxProps, t: Theme, k: StyleKey): Option<StyleValue> {
    match k
    case JustifyContent => Keyword(JustificationName(p.justifyContent))
    case FlexWrap => Keyword(WrapName(p.flexWrap))
    case Width => p.width
    case Height => p.height
    case Padding => SpacingValue(t, p.padding)
    case PaddingHorizontal => SpacingValue(t, p.paddingHorizontal)
    case PaddingVertical => SpacingValue(t, p.paddingVertical)
    case Margin => SpacingValue(t, p.margin)
    case MarginHorizontal => SpacingValue(t, p.marginHorizontal)
    case MarginVertical => SpacingValue(t, p.marginVertical)
    case Gap => SpacingValue(t, p.gap)
    case BackgroundColor => TruthyColor(p.backgroundColor)
    case BorderRadius => RadiusValue(t, p.borderRadius)
    case _ => None
  }

  /** The value Box's props give key `k`. */
  function BoxContribution(p: BoxProps, t: Theme, k: StyleKey): Option<StyleValue> {
    match k
    case Flex => Number(p.flex)
    case FlexDirection => Keyword(DirectionName(p.flexDirection))
    case AlignItems => Keyword(AlignmentName(p.alignItems))
    case _ => SharedContribution(p, t, k)
  }

  /** Row: direction forced to row, alignment defaulting to center, otherwise as Box. */
  function RowContribution(p: BoxProps, t: Theme, k: StyleKey): Option<StyleValue> {
    match k
    case FlexDirection => Some(Str("row"))
    case AlignItems => Some(Str(p.alignItems.GetOr(AlignCenter).Name()))
    case _ => BoxContribution(p, t, k)
  }

  /** Column: direction forced to column, otherwise as Box. */
  function ColumnContribution(p: BoxProps, t: Theme, k: StyleKey): Option<StyleValue> {
    match k
    case FlexDirection => Some(Str("column"))
    case _ => BoxContribution(p, t, k)
  }

  // The arrays agree with the reference, key by key.

  /** Each run of shared entries gives its own keys their props' values and no other key a value. */
  lemma LayoutLookup(p: BoxProps, t: Theme, k: StyleKey)
    ensures Lookup(LayoutEntries(p), k) ==
      if k in {JustifyContent, FlexWrap, Width, Height} then SharedContribution(p, t, k) else None
  {
    var l := LayoutEntries(p);
    Lookup4(l[0], l[1], l[2], l[3], k);
  }

  lemma PaddingLookup(p: BoxProps, t: Theme, k: StyleKey)
    ensures Lookup(PaddingEntries(p, t), k) ==
      if k in {Padding, PaddingHorizontal, PaddingVertical} then SharedContribution(p, t, k) else None
  {
    var pd := PaddingEntries(p, t);
    Lookup3(pd[0], pd[1], pd[2], k);
  }

  lemma MarginLookup(p: BoxProps, t: Theme, k: StyleKey)
    ensures Lookup(MarginEntries(p, t), k) ==
      if k in {Margin, MarginHorizontal, MarginVertical} then SharedContribution(p, t, k) else None
  {
    var m := MarginEntries(p, t);
    Lookup3(m[0], m[1], m[2], k);
  }

  lemma PaintLookup(p: BoxProps, t: Theme, k: StyleKey)
    ensures Lookup(PaintEntries(p, t), k) ==
      if k in {Gap, BackgroundColor, BorderRadius} then SharedContribution(p, t, k) else None
  {
    var pt := PaintEntries(p, t);
    Lookup3(pt[0], pt[1], pt[2], k);
  }

  /** The shared run of entries gives each key its shared prop's value. */
  lemma {:induction false} SharedLookup(p: BoxProps, t: Theme, k: StyleKey)
    ensures Lookup(SharedEntries(p, t), k) == SharedContribution(p, t, k)
  {
    var l, pd, m, pt := LayoutEntries(p), PaddingEntries(p, t), MarginEntries(p, t), PaintEntries(p, t);
    LookupConcat(l + pd + m, pt, k);
    LookupConcat(l + pd, m, k);
    LookupConcat(l, pd, k);
    LayoutLookup(p, t, k);
    PaddingLookup(p, t, k);
    MarginLookup(p, t, k);
    PaintLookup(p, t, k);
  }

  /** A style array made of a head, the shared run and the caller's style. */
  lemma {:induction false} ComponentLookup(head: seq<Entry>, p: BoxProps, t: Theme, k: StyleKey)
    ensures Gives(Flatten(head + SharedEntries(p, t) + [Object(p.style)]), k,
      Later(Later(Lookup(head, k), SharedContribution(p, t, k)), At(Object(p.style), k)))
  {
    var es := head + SharedEntries(p, t);
    FlattenLookup(es + [Object(p.style)], k);
    LookupConcat(es, [Object(p.style)], k);
    Lookup1(Object(p.style), k);
    LookupConcat(head, SharedEntries(p, t), k);
    SharedLookup(p, t, k);
  }

  /** Box: a key holds the caller's value when the caller's style sets it, else the value of its prop. */
  lemma {:induction false} BoxStyleByKey(p: BoxProps, t: Theme, k: StyleKey)
    ensures Gives(BoxStyle(p, t), k, Later(BoxContribution(p, t, k), At(Object(p.style), k)))
  {
    var h := BoxHead(p);
    ComponentLookup(h, p, t, k);
    Lookup3(h[0], h[1], h[2], k);
  }

  /** Row: as Box, with `flexDirection` row and `alignItems` center unless the caller's style says otherwise. */
  lemma {:induction false} RowStyleByKey(p: BoxProps, t: Theme, k: StyleKey)
    ensures Gives(RowStyle(p, t), k, Later(RowContribution(p, t, k), At(Object(p.style), k)))
  {
    var h := RowHead(p);
    ComponentLookup(h, p, t, k);
    Lookup3(h[0], h[1], h[2], k);
  }

  /** Column: as Box, with `flexDirection` column unless the caller's style says otherwise. */
  lemma {:induction false} ColumnStyleByKey(p: BoxProps, t: Theme, k: StyleKey)
    ensures Gives(ColumnStyle(p, t), k, Later(ColumnContribution(p, t, k), At(Object(p.style), k)))
  {
    var h := ColumnHead(p);
    ComponentLookup(h, p, t, k);
    Lookup3(h[0], h[1], h[2], k);
  }

  /** Row and Column do not read a `flexDirection` prop: only the caller's style can change their direction. */
  lemma RowColumnIgnoreDirection(p: BoxProps, t: Theme, d: Option<Direction>)
    ensures RowStyle(p.(flexDirection := d), t) == RowStyle(p, t)
    ensures ColumnStyle(p.(flexDirection := d), t) == ColumnStyle(p, t)
  {
    var q := p.(flexDirection := d);
    assert RowHead(q) == RowHead(p);
    assert ColumnHead(q) == ColumnHead(p);
    assert SharedEntries(q, t) == SharedEntries(p, t);
  }

  /** Every prop omitted. */
  predicate NoProps(p: BoxProps) {
    && p.flex.None? && p.flexDirection.None? && p.alignItems.None? && p.justifyContent.None?
    && p.flexWrap.None? && p.padding.None? && p.paddingHorizontal.None? && p.paddingVertical.None?
    && p.margin.None? && p.marginHorizontal.None? && p.marginVertical.None? && p.gap.None?
    && p.backgroundColor.None? && p.borderRadius.None? && p.width.None? && p.height.None? && p.style.None?
  }

  /** Unset props contribute no keys: a Box without props has an empty style. */
  lemma UnsetPropsEmpty(p: BoxProps, t: Theme)
    requires NoProps(p)
    ensures BoxStyle(p, t) == map[]
  {
    forall k: StyleKey
      ensures k !in BoxStyle(p, t)
    {
      BoxStyleByKey(p, t, k);
    }
  }

  /** `flex`, `width` and `height` are kept even when 0, while an empty colour string is falsy and dropped. */
  lemma ZeroKeptEmptyColourDropped(p: BoxProps, t: Theme)
    requires p.flex == Some(0.0) && p.width == Some(Num(0.0)) && p.backgroundColor == Some("") && p.style.None?
    ensures Flex in BoxStyle(p, t) && BoxStyle(p, t)[Flex] == Num(0.0)
    ensures Width in BoxStyle(p, t) && BoxStyle(p, t)[Width] == Num(0.0)
    ensures BackgroundColor !in BoxStyle(p, t)
  {
    BoxStyleByKey(p, t, Flex);
    BoxStyleByKey(p, t, Width);
    BoxStyleByKey(p, t, BackgroundColor);
  }

  /** Without props of its own, a Row is a centred row, and a Column is a column with no alignment set. */
  lemma DefaultDirections(p: BoxProps, t: Theme)
    requires p.alignItems.None? && p.style.None?
    ensures FlexDirection in RowStyle(p, t) && RowStyle(p, t)[FlexDirection] == Str("row")
    ensures AlignItems in RowStyle(p, t) && RowStyle(p, t)[AlignItems] == Str("center")
    ensures FlexDirection in ColumnStyle(p, t) && ColumnStyle(p, t)[FlexDirection] == Str("column")
    ensures AlignItems !in ColumnStyle(p, t)
  {
    RowStyleByKey(p, t, FlexDirection);
    RowStyleByKey(p, t, AlignItems);
    ColumnStyleByKey(p, t, FlexDirection);
    ColumnStyleByKey(p, t, AlignItems);
  }
}
