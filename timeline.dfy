/**
 * The proportional timeline: the year range of the era table, the linear
 * map from a year to a horizontal pixel offset (3 px per year), each era
 * card's left edge and clamped width, the scroll-button flags and the
 * background theme key chosen from the selected and hovered eras.
 */
module Timeline {
  import opened Js
  import D = Dynasties

  const PixelsPerYear: int := 3
  const MinCardWidth: real := 160.0

  /** The fixed years at which the timeline draws a tick mark. */
  const YearMarkers: seq<int> := [-200, 0, 200, 400, 600, 800, 1000, 1200, 1400, 1600, 1800]

  /** `Math.min(...ds.map(d => d.startYear))` over a non-empty list. */
  function MinStart(ds: seq<D.Dynasty>): (m: int)
    requires |ds| > 0
    ensures forall i :: 0 <= i < |ds| ==> m <= ds[i].startYear
    ensures exists i :: 0 <= i < |ds| && m == ds[i].startYear
  {
    if |ds| == 1 then ds[0].startYear
    else
      var m := MinStart(ds[1..]);
      if ds[0].startYear <= m then ds[0].startYear else m
  }

  /** `Math.max(...ds.map(d => d.endYear))` over a non-empty list. */
  function MaxEnd(ds: seq<D.Dynasty>): (m: int)
    requires |ds| > 0
    ensures forall i :: 0 <= i < |ds| ==> ds[i].endYear <= m
    ensures exists i :: 0 <= i < |ds| && m == ds[i].endYear
  {
    if |ds| == 1 then ds[0].endYear
    else
      var m := MaxEnd(ds[1..]);
      if ds[0].endYear >= m then ds[0].endYear else m
  }

  /** The numbers the layout is computed from. */
  datatype Layout = Layout(minYear: int, maxYear: int, totalYears: int, timelineWidth: int)

  /** A layout whose span and width are derived from its bounds as the component does. */
  predicate Derived(l: Layout) {
    l.totalYears == l.maxYear - l.minYear && l.timelineWidth == l.totalYears * PixelsPerYear
  }

  /**
   * The layout of an era list. An empty list has no finite bounds (the
   * component's `Math.min()` of nothing is `Infinity`), so it has no layout.
   */
  function ComputeLayout(ds: seq<D.Dynasty>): (r: Option<Layout>)
    ensures r.Some? <==> |ds| > 0
    ensures r.Some? ==> Derived(r.value)
    ensures r.Some? ==> (forall i :: 0 <= i < |ds| ==>
                           r.value.minYear <= ds[i].startYear && ds[i].endYear <= r.value.maxYear)
    ensures r.Some? ==> (exists i :: 0 <= i < |ds| && r.value.minYear == ds[i].startYear)
    ensures r.Some? ==> (exists i :: 0 <= i < |ds| && r.value.maxYear == ds[i].endYear)
  {
    if |ds| == 0 then None
    else
      var lo := MinStart(ds);
      var hi := MaxEnd(ds);
      Some(Layout(lo, hi, hi - lo, (hi - lo) * PixelsPerYear))
  }

  /** A pixel offset, or the `NaN` that `0 / 0` gives when the range is empty. */
  datatype Px = Px(px: real) | NaN

  /** `getPositionFromYear`: `((year - minYear) / totalYears) * timelineWidth`. */
  function Position(l: Layout, year: int): (r: Px)
    ensures r.NaN? <==> l.totalYears == 0
  {
    if l.totalYears == 0 then NaN
    else Px(((year - l.minYear) as real / l.totalYears as real) * l.timelineWidth as real)
  }

  /** With a non-empty range the position is exactly `(year - minYear) * pixelsPerYear`. */
  lemma PositionLinear(l: Layout, year: int)
    requires Derived(l) && l.totalYears != 0
    ensures Position(l, year) == Px(((year - l.minYear) * PixelsPerYear) as real)
  {
    var t := l.totalYears as real;
    var q := (year - l.minYear) as real / t;
    assert q * t == (year - l.minYear) as real;
    assert l.timelineWidth as real == t * 3.0;
    calc {
      q * l.timelineWidth as real;
      q * (t * 3.0);
      (q * t) * 3.0;
    }
  }

  /** The first year maps to 0, the last to the full width, and the map is strictly increasing. */
  lemma PositionEndsAndOrder(l: Layout, y1: int, y2: int)
    requires Derived(l) && l.totalYears != 0
    ensures Position(l, l.minYear) == Px(0.0)
    ensures Position(l, l.maxYear) == Px(l.timelineWidth as real)
    ensures y1 < y2 ==> Position(l, y1).px < Position(l, y2).px
  {
    PositionLinear(l, l.minYear);
    PositionLinear(l, l.maxYear);
    PositionLinear(l, y1);
    PositionLinear(l, y2);
  }

  /** Where a card is drawn: its left edge and its width. */
  datatype Rect = Rect(left: Px, width: Px)

  /** `Math.max(a, b)` on pixel values, where any `NaN` operand gives `NaN`. */
  function MaxPx(a: Px, b: real): (r: Px)
    ensures a.Px? ==> r.Px? && r.px >= b && r.px >= a.px && (r.px == a.px || r.px == b)
    ensures a.NaN? ==> r.NaN?
  {
    match a
    case NaN => NaN
    case Px(v) => if v >= b then Px(v) else Px(b)
  }

  /** A card's placement: left at its start year, width from start to end, at least 160 px. */
  function CardRect(l: Layout, d: D.Dynasty): Rect {
    var left := Position(l, d.startYear);
    var right := Position(l, d.endYear);
    var span := if left.Px? && right.Px? then Px(right.px - left.px) else NaN;
    Rect(left, MaxPx(span, MinCardWidth))
  }

  /** Every card starts at its start year's offset and is at least 160 px wide, short eras included. */
  lemma CardRectClamped(l: Layout, d: D.Dynasty)
    requires Derived(l) && l.totalYears != 0
    ensures CardRect(l, d).left == Px(((d.startYear - l.minYear) * PixelsPerYear) as real)
    ensures CardRect(l, d).width.Px?
    ensures CardRect(l, d).width.px >= MinCardWidth
    ensures CardRect(l, d).width.px ==
              if ((d.endYear - d.startYear) * PixelsPerYear) as real >= MinCardWidth
              then ((d.endYear - d.startYear) * PixelsPerYear) as real else MinCardWidth
  {
    PositionLinear(l, d.startYear);
    PositionLinear(l, d.endYear);
  }

  /** No era of the shipped table starts before -221 or ends after 1912. */
  lemma ShippedBounds()
    ensures D.Table[0].startYear == -221 && D.Table[6].endYear == 1912
    ensures forall i :: 0 <= i < |D.Table| ==> -221 <= D.Table[i].startYear
    ensures forall i :: 0 <= i < |D.Table| ==> D.Table[i].endYear <= 1912
  {
    forall i | 0 <= i < |D.Table|
      ensures -221 <= D.Table[i].startYear && D.Table[i].endYear <= 1912
    {
      match i
      case 0 => case 1 => case 2 => case 3 => case 4 => case 5 => case 6 =>
    }
  }

  /** The shipped table spans -221 to 1912: 2133 years, 6399 px. */
  lemma ShippedLayout()
    ensures ComputeLayout(D.Table) == Some(Layout(-221, 1912, 2133, 6399))
  {
    ShippedBounds();
    LayoutOfBounds(D.Table, 0, 6);
  }

  /** The first era starting earliest and the last ending latest fix the layout. */
  lemma LayoutOfBounds(ds: seq<D.Dynasty>, a: nat, b: nat)
    requires a < |ds| && b < |ds|
    requires forall i :: 0 <= i < |ds| ==> ds[a].startYear <= ds[i].startYear && ds[i].endYear <= ds[b].endYear
    ensures ComputeLayout(ds) == Some(Layout(ds[a].startYear, ds[b].endYear, ds[b].endYear - ds[a].startYear,
                                             (ds[b].endYear - ds[a].startYear) * PixelsPerYear))
  {
    var r := ComputeLayout(ds);
    assert r.Some?;
    var l := r.value;
    assert Derived(l);
    var i :| 0 <= i < |ds| && l.minYear == ds[i].startYear;
    var j :| 0 <= j < |ds| && l.maxYear == ds[j].endYear;
    assert ds[a].startYear <= ds[i].startYear && ds[j].endYear <= ds[b].endYear;
    assert l.minYear <= ds[a].startYear && l.maxYear >= ds[b].endYear;
    assert l == Layout(l.minYear, l.maxYear, l.totalYears, l.timelineWidth);
  }

  /** With the shipped table every year marker falls on the drawn timeline. */
  lemma MarkersOnTimeline(k: nat)
    requires k < |YearMarkers|
    ensures Position(Layout(-221, 1912, 2133, 6399), YearMarkers[k]).Px?
    ensures 0.0 <= Position(Layout(-221, 1912, 2133, 6399), YearMarkers[k]).px <= 6399.0
  {
    PositionLinear(Layout(-221, 1912, 2133, 6399), YearMarkers[k]);
  }

  /** The qin card (15 years, 45 px of span) is the one widened by the clamp. */
  lemma QinCardWidened()
    ensures CardRect(Layout(-221, 1912, 2133, 6399), D.Table[0]) == Rect(Px(0.0), Px(160.0))
  {
    CardRectClamped(Layout(-221, 1912, 2133, 6399), D.Table[0]);
  }

  /** The scroll container's metrics, read when a scroll or resize event arrives. */
  datatype ScrollMetrics = ScrollMetrics(scrollLeft: real, scrollWidth: real, clientWidth: real)

  /** The two scroll-button flags. */
  datatype ScrollFlags = ScrollFlags(canScrollLeft: bool, canScrollRight: bool)

  /** `checkScrollButtons`: left while scrolled at all, right while short of the far end. */
  function ScrollButtons(m: ScrollMetrics): (f: ScrollFlags)
    ensures f.canScrollLeft <==> m.scrollLeft > 0.0
    ensures f.canScrollRight <==> m.scrollLeft < m.scrollWidth - m.clientWidth
  {
    ScrollFlags(m.scrollLeft > 0.0, m.scrollLeft < m.scrollWidth - m.clientWidth)
  }

  /** Content that fits the viewport shows no button at offset 0; wider content shows at least one. */
  lemma ScrollButtonsShown(m: ScrollMetrics)
    requires m.scrollLeft >= 0.0
    ensures m.scrollLeft == 0.0 && m.scrollWidth <= m.clientWidth ==> ScrollButtons(m) == ScrollFlags(false, false)
    ensures m.scrollWidth > m.clientWidth ==> ScrollButtons(m).canScrollLeft || ScrollButtons(m).canScrollRight
    ensures m.scrollLeft == m.scrollWidth - m.clientWidth && m.scrollLeft > 0.0 ==> ScrollButtons(m) == ScrollFlags(true, false)
  {
  }

  /**
   * `selectedDynasty?.id || hoveredDynasty?.id || 'default'`. The `||`
   * chain skips an empty id as JavaScript skips any falsy string.
   */
  function ThemeKey(selected: Option<D.Dynasty>, hovered: Option<D.Dynasty>): (key: string)
    ensures key != ""
    ensures selected.Some? && selected.value.id != "" ==> key == selected.value.id
    ensures !(selected.Some? && selected.value.id != "") && hovered.Some? && hovered.value.id != "" ==> key == hovered.value.id
    ensures key == "default" || (selected.Some? && key == selected.value.id) || (hovered.Some? && key == hovered.value.id)
  {
    if selected.Some? && selected.value.id != "" then selected.value.id
    else if hovered.Some? && hovered.value.id != "" then hovered.value.id
    else "default"
  }

  /** With the shipped table, a selected era always sets the theme, whatever is hovered. */
  lemma SelectedWins(i: nat, hovered: Option<D.Dynasty>)
    requires i < |D.Table|
    ensures ThemeKey(Some(D.Table[i]), hovered) == D.Table[i].id
  {
  }

  /** The page-level state of the timeline: selection, hover and the two scroll flags. */
  class TimelineView {
    var selected: Option<D.Dynasty>
    var hovered: Option<D.Dynasty>
    var canScrollLeft: bool
    var canScrollRight: bool

    /** Nothing selected or hovered; the right button shows until the first measurement. */
    constructor ()
      ensures selected == None && hovered == None
      ensures !canScrollLeft && canScrollRight
    {
      selected := None;
      hovered := None;
      canScrollLeft := false;
      canScrollRight := true;
    }

    /** The theme key handed to the particle background. */
    function CurrentTheme(): string
      reads this
    {
      ThemeKey(selected, hovered)
    }

    /** `checkScrollButtons`: without a mounted container (`None`) nothing changes. */
    method CheckScrollButtons(container: Option<ScrollMetrics>)
      modifies this
      ensures selected == old(selected) && hovered == old(hovered)
      ensures container.None? ==> canScrollLeft == old(canScrollLeft) && canScrollRight == old(canScrollRight)
      ensures container.Some? ==> ScrollFlags(canScrollLeft, canScrollRight) == ScrollButtons(container.value)
    {
      if container.Some? {
        var f := ScrollButtons(container.value);
        canScrollLeft := f.canScrollLeft;
        canScrollRight := f.canScrollRight;
      }
    }

    /** A card click opens that era's detail panel. */
    method Select(d: D.Dynasty)
      modifies this`selected
      ensures selected == Some(d)
      ensures CurrentTheme() == (if d.id != "" then d.id else ThemeKey(None, hovered))
    {
      selected := Some(d);
    }

    /** Closing the detail panel clears the selection; the theme falls back to the hovered era. */
    method CloseDetail()
      modifies this`selected
      ensures selected == None
      ensures CurrentTheme() == ThemeKey(None, hovered)
    {
      selected := None;
    }

    /** Mouse enter passes the card's era, mouse leave passes `None`. */
    method Hover(d: Option<D.Dynasty>)
      modifies this`hovered
      ensures hovered == d
    {
      hovered := d;
    }
  }
}
