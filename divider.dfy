/**
 * Divider (components/display/Divider.tsx): a line across its container,
 * `thickness` thick, horizontal unless told otherwise.
 */
module DividerComponent {
  import opened Wrappers
  import opened Styles
  import opened Tokens

  datatype Orientation = Horizontal | Vertical

  datatype DividerProps = DividerProps(
    orientation: Option<Orientation>,
    thickness: Option<real>,
    color: Option<string>,
    style: Option<Style>)

  /** `orientation` is horizontal unless given. */
  function OrientationOf(p: DividerProps): (o: Orientation)
    ensures p.orientation.None? ==> o == Horizontal
    ensures p.orientation.Some? ==> o == p.orientation.value
  {
    p.orientation.GetOr(Horizontal)
  }

  /** `thickness` is 1 unless given. */
  function ThicknessOf(p: DividerProps): (w: real)
    ensures p.thickness.None? ==> w == 1.0
    ensures p.thickness.Some? ==> w == p.thickness.value
  {
    p.thickness.GetOr(1.0)
  }

  /** `{ height: thickness, width: '100%' }` or `{ width: thickness, height: '100%' }`. */
  function Extent(o: Orientation, thickness: real): Style {
    match o
    case Horizontal => map[Height := Num(thickness), Width := Pct(100.0)]
    case Vertical => map[Width := Num(thickness), Height := Pct(100.0)]
  }

  function DividerEntries(p: DividerProps, t: Theme): seq<Entry> {
    [ Object(Some(map[BackgroundColor := Str(OrElse(p.color, t.colors.border))] + Extent(OrientationOf(p), ThicknessOf(p)))),
      Object(p.style) ]
  }

  function DividerStyle(p: DividerProps, t: Theme): Style {
    Flatten(DividerEntries(p, t))
  }

  /** Reference: the line runs across the full extent and is `thickness` thick the other way. */
  function DividerDefault(p: DividerProps, t: Theme, k: StyleKey): Option<StyleValue> {
    var across := p.orientation != Some(Vertical);
    var thick := p.thickness.GetOr(1.0);
    match k
    case BackgroundColor => Some(Str(if p.color.Some? && p.color.value != "" then p.color.value else t.colors.border))
    case Height => Some(if across then Num(thick) else Pct(100.0))
    case Width => Some(if across then Pct(100.0) else Num(thick))
    case _ => None
  }

  lemma {:induction false} DividerByKey(p: DividerProps, t: Theme, k: StyleKey)
    ensures Gives(DividerStyle(p, t), k, Later(DividerDefault(p, t, k), At(Object(p.style), k)))
  {
    var es := DividerEntries(p, t);
    FlattenLookup(es, k);
    Lookup2(es[0], es[1], k);
    AtUnion(map[BackgroundColor := Str(OrElse(p.color, t.colors.border))], Extent(OrientationOf(p), ThicknessOf(p)), k);
  }

  /** Turning a divider swaps its height and width, for the same thickness and colour. */
  lemma TurnSwapsAxes(p: DividerProps, t: Theme)
    requires p.style.None?
    ensures var h := DividerStyle(p.(orientation := Some(Horizontal)), t);
            var v := DividerStyle(p.(orientation := Some(Vertical)), t);
      && Height in h && Width in h && Height in v && Width in v
      && h[Height] == v[Width] && h[Width] == v[Height]
  {
    DividerByKey(p.(orientation := Some(Horizontal)), t, Height);
    DividerByKey(p.(orientation := Some(Horizontal)), t, Width);
    DividerByKey(p.(orientation := Some(Vertical)), t, Height);
    DividerByKey(p.(orientation := Some(Vertical)), t, Width);
  }
}
