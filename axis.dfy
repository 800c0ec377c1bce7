/**
 * The axes of the curve widget (DataCurveEx.cs): axis handles, the zoom
 * bookkeeping shared by both axis kinds (AxisZoom), the horizontal time axis
 * (AxisX) and the vertical value axes (AxisY), and the geometry helpers used
 * while the user drags a zoom rectangle. Float coordinates are `real`.
 */
module Axes {
  import opened Numeric
  import opened BasicFramework

  datatype Point = Point(x: int, y: int)

  /** System.Drawing.Rectangle: integer origin and (possibly negative) size. */
  datatype Rect = Rect(x: int, y: int, width: int, height: int)

  /** Rectangle.Empty. */
  const EmptyRect: Rect := Rect(0, 0, 0, 0)

  datatype PointF = PointF(x: real, y: real)

  datatype RectF = RectF(x: real, y: real, width: real, height: real)
  {
    function Right(): real { x + width }
    function Bottom(): real { y + height }
  }

  // ---------------------------------------------------------------------
  // Axis handles

  /**
   * Axis names. The control names every axis by a freshly generated GUID
   * string; the model represents each name by an integer token, with
   * NoName standing for the empty string. All the control does with names
   * is compare them and key dictionaries by them, which tokens preserve.
   */
  type Name = int

  const NoName: Name := 0

  /**
   * AxisItem: the handle callers get back for an axis. Handles are compared
   * and hashed by name only, so a dictionary keyed by AxisItem is modelled
   * as a map keyed by the name.
   */
  datatype AxisItem = AxisItem(id: int, name: Name, axisLabel: string, isVertical: bool, unit: string)
  {
    /** IsInvalid: the id is the -1 sentinel or the name is empty. */
    predicate IsInvalid()
    {
      id == -1 || name == NoName
    }
  }

  /** new AxisItem(): id -1, empty name and label, vertical. */
  const DefaultAxisItem: AxisItem := AxisItem(-1, NoName, "", true, "")

  /** A handle is valid exactly when it has a real id and a name; the default one is not. */
  lemma AxisItemValidity(item: AxisItem)
    ensures DefaultAxisItem.IsInvalid()
    ensures !item.IsInvalid() <==> item.id != -1 && item.name != NoName
  {
  }

  // ---------------------------------------------------------------------
  // AxisZoom helpers

  /** SubtractOrZero(a, b): a - b clipped at zero. */
  function SubtractOrZero(a: int, b: int): (r: int)
    ensures r >= 0 && r >= a - b
    ensures r == 0 || r == a - b
  {
    var result := a - b;
    if result < 0 then 0 else result
  }

  /** The tolerance below which CheckValue considers a range empty. */
  const Epsilon: real := 0.00001

  /** CheckValue(ref max, ref min): widen an (almost) empty range by one unit. */
  function CheckValue(max: real, min: real): (r: real)
    ensures Abs(r - min) > Epsilon
    ensures Abs(max - min) > Epsilon ==> r == max
    ensures r == max || r == max + 1.0
  {
    if Abs(max - min) <= Epsilon then max + 1.0 else max
  }

  /** A whole number, as the view is after any ChangeValue. */
  predicate Integral(r: real)
  {
    r == r.Floor as real
  }

  /** The range an axis currently shows (_cur_max_value, _cur_min_value). */
  datatype View = View(max: real, min: real)

  /**
   * The mutable part of an axis: the zoom window (_max_zoom_value,
   * _min_zoom_value) that Restore returns to, the pending-update flag and
   * the current view.
   */
  datatype ZoomState = ZoomState(maxZoom: real, minZoom: real, update: bool, view: View)

  /** Restore: show the zoom window again. */
  function Restored(z: ZoomState): (r: ZoomState)
    ensures r.view == View(z.maxZoom, z.minZoom)
    ensures r.maxZoom == z.maxZoom && r.minZoom == z.minZoom && r.update == z.update
  {
    z.(view := View(z.maxZoom, z.minZoom))
  }

  /** SetZoomValue(value): move the top of the zoom window and ask for an update. */
  function WithZoomValue(z: ZoomState, value: int): (r: ZoomState)
    ensures r.maxZoom == value as real && r.update
    ensures r.minZoom == z.minZoom && r.view == z.view
  {
    z.(maxZoom := value as real, update := true)
  }

  /** AxisX.Update: a pending update moves the top of the view to the top of the zoom window. */
  function Updated(z: ZoomState): (r: ZoomState)
    ensures !r.update
    ensures z.update ==> r.view == View(z.maxZoom, z.view.min)
    ensures !z.update ==> r == z
    ensures r.maxZoom == z.maxZoom && r.minZoom == z.minZoom
  {
    if z.update then z.(view := z.view.(max := z.maxZoom), update := false) else z
  }

  /** Restoring twice is restoring once. */
  lemma RestoreIdempotent(z: ZoomState)
    ensures Restored(Restored(z)) == Restored(z)
  {
  }

  /** A grown zoom window followed by Update shows the new window top, whatever the view was. */
  lemma ZoomValueThenUpdate(z: ZoomState, value: int)
    ensures Updated(WithZoomValue(z, value)).view == View(value as real, z.view.min)
    ensures !Updated(WithZoomValue(z, value)).update
  {
  }

  // ---------------------------------------------------------------------
  // Zooming into a selected rectangle

  /** The pixel interval [begin, end] that a signed extent starting at `a` covers. */
  function Span(a: int, extent: int): (r: (int, int))
    ensures r.0 <= r.1 && r.1 - r.0 == AbsInt(extent)
    ensures r.0 == a || r.0 == a + extent
  {
    (Min(a, a + extent), Max(a + extent, a))
  }

  /**
   * The value under pixel offset `p` of an extent `w` pixels long showing
   * view `v`: the offset times the value per pixel, plus the bottom of the view.
   */
  function ValueAt(v: View, w: int, p: int): real
    requires w != 0
  {
    p as real * ((v.max - v.min) / w as real) + v.min
  }

  /**
   * AxisX.ChangeValue: the view after zooming into the horizontal extent of
   * `rect`, drawn on a control `totalW` pixels wide with `spLR` pixels of
   * margin on each side. Pixel offsets are scaled to the current view, the
   * left edge clipped at the margin, and the result widened to whole units.
   */
  function ZoomX(v: View, rect: Rect, totalW: int, spLR: int): (r: View)
    requires totalW - spLR * 2 != 0
    ensures Integral(r.max) && Integral(r.min)
  {
    var (begin, end) := Span(rect.x, rect.width);
    var w := totalW - spLR * 2;
    View(Ceil(ValueAt(v, w, end - spLR)) as real, Floor(ValueAt(v, w, SubtractOrZero(begin, spLR))) as real)
  }

  /**
   * AxisY.ChangeValue: the same for the vertical extent, with pixel rows
   * counted up from the bottom margin of a control `totalH` pixels high, and
   * the result passed through CheckValue.
   */
  function ZoomY(v: View, rect: Rect, totalH: int, spUD: int): (r: View)
    requires totalH - spUD * 2 != 0
    ensures Abs(r.max - r.min) > Epsilon
    ensures Integral(r.max) && Integral(r.min)
  {
    var (begin, end) := Span(rect.y, rect.height);
    var h := totalH - spUD * 2;
    var max := Ceil(ValueAt(v, h, totalH - begin - spUD));
    var min := Floor(ValueAt(v, h, SubtractOrZero(totalH, end + spUD)));
    var top := CheckValue(max as real, min as real);
    assert top == max as real || top == (max + 1) as real;
    View(top, min as real)
  }

  /**
   * The pixel-to-value mapping of ComputeRealValueFromLoaction is the linear
   * scaling the axes use when zooming.
   */
  lemma ValueFromLocationLinear(v: View, h: int, p: int)
    requires h != 0
    ensures ComputeRealValueFromLocation(v.max, v.min, h, p as real) == ValueAt(v, h, p)
  {
    var hr, pr := h as real, p as real;
    var s := (v.max - v.min) / hr;
    assert s * hr == v.max - v.min;
    var q := (hr * 1.0 - pr * 1.0) / (hr * 1.0);
    assert q * hr == hr - pr;
    assert q * (v.max - v.min) == q * (s * hr);
    assert q * (s * hr) == (q * hr) * s;
    assert (hr - pr) * s == s * hr - pr * s;
  }

  /**
   * ChangeValue of the time axis reads the view's value under each edge of
   * the selection with the framework's pixel-to-value mapping over the plot
   * width, then rounds outwards to whole units.
   */
  lemma ZoomXUsesValueMapping(v: View, rect: Rect, totalW: int, spLR: int)
    requires totalW - spLR * 2 != 0
    ensures var (begin, end) := Span(rect.x, rect.width);
            var w := totalW - spLR * 2;
            var r := ZoomX(v, rect, totalW, spLR);
            r.max == Ceil(ComputeRealValueFromLocation(v.max, v.min, w, (end - spLR) as real)) as real &&
            r.min == Floor(ComputeRealValueFromLocation(v.max, v.min, w, SubtractOrZero(begin, spLR) as real)) as real
  {
    var (begin, end) := Span(rect.x, rect.width);
    var w := totalW - spLR * 2;
    ValueFromLocationLinear(v, w, end - spLR);
    ValueFromLocationLinear(v, w, SubtractOrZero(begin, spLR));
  }

  /**
   * The same for a value axis, with the pixel row measured up from the
   * bottom margin; the minimum is read at the lower edge of the selection.
   */
  lemma ZoomYUsesValueMapping(v: View, rect: Rect, totalH: int, spUD: int)
    requires totalH - spUD * 2 != 0
    ensures var (begin, end) := Span(rect.y, rect.height);
            var h := totalH - spUD * 2;
            var r := ZoomY(v, rect, totalH, spUD);
            r.min == Floor(ComputeRealValueFromLocation(v.max, v.min, h, SubtractOrZero(totalH, end + spUD) as real)) as real &&
            var top := Ceil(ComputeRealValueFromLocation(v.max, v.min, h, (totalH - begin - spUD) as real)) as real;
            r.max == CheckValue(top, r.min)
  {
    var (begin, end) := Span(rect.y, rect.height);
    var h := totalH - spUD * 2;
    ValueFromLocationLinear(v, h, totalH - begin - spUD);
    ValueFromLocationLinear(v, h, SubtractOrZero(totalH, end + spUD));
  }

  /** Offsets inside the extent map into the view, in the same order. */
  lemma ValueAtWithin(v: View, w: int, t: int, u: int)
    requires v.min <= v.max && 0 <= t <= u <= w && w > 0
    ensures v.min <= ValueAt(v, w, t) <= ValueAt(v, w, u) <= v.max
  {
    var s := (v.max - v.min) / w as real;
    assert s * w as real == v.max - v.min;
    assert s >= 0.0;
    assert t as real * s <= u as real * s;
    assert u as real * s <= w as real * s;
  }

  /** Rounding outwards stays inside whole-unit bounds. */
  lemma RoundWithin(lo: real, a: real, b: real, hi: real)
    requires Integral(lo) && Integral(hi) && lo <= a <= b <= hi
    ensures lo <= Floor(a) as real <= Ceil(b) as real <= hi
  {
    FloorAtLeast(lo.Floor, a);
    CeilAtMost(b, hi.Floor);
  }

  lemma FloorAtLeast(k: int, a: real)
    requires k as real <= a
    ensures k <= Floor(a)
  {
    var f := Floor(a);
    assert k as real < f as real + 1.0;
  }

  lemma CeilAtMost(b: real, m: int)
    requires b <= m as real
    ensures Ceil(b) <= m
  {
    var c := Ceil(b);
    assert c as real - 1.0 < m as real;
  }

  /**
   * Zooming the time axis into a selection drawn inside the plot area never
   * leaves the current whole-unit view: the new view is a sub-range of it.
   */
  lemma ZoomXNarrows(v: View, rect: Rect, totalW: int, spLR: int)
    requires 0 <= spLR && totalW > spLR * 2
    requires Integral(v.max) && Integral(v.min) && v.min <= v.max
    requires var (begin, end) := Span(rect.x, rect.width);
             spLR <= begin && end <= totalW - spLR
    ensures var r := ZoomX(v, rect, totalW, spLR);
            v.min <= r.min <= r.max <= v.max
  {
    var (begin, end) := Span(rect.x, rect.width);
    var w := totalW - spLR * 2;
    ValueAtWithin(v, w, begin - spLR, end - spLR);
    RoundWithin(v.min, ValueAt(v, w, begin - spLR), ValueAt(v, w, end - spLR), v.max);
  }

  /**
   * Zooming a value axis into a selection inside the plot area keeps the
   * bottom of the view and reaches at most one unit above its top (the
   * widening CheckValue applies to an empty selection).
   */
  lemma ZoomYNarrows(v: View, rect: Rect, totalH: int, spUD: int)
    requires 0 <= spUD && totalH > spUD * 2
    requires Integral(v.max) && Integral(v.min) && v.min <= v.max
    requires var (begin, end) := Span(rect.y, rect.height);
             spUD <= begin && end <= totalH - spUD
    ensures var r := ZoomY(v, rect, totalH, spUD);
            v.min <= r.min < r.max <= v.max + 1.0
  {
    var (begin, end) := Span(rect.y, rect.height);
    var h := totalH - spUD * 2;
    ValueAtWithin(v, h, totalH - end - spUD, totalH - begin - spUD);
    RoundWithin(v.min, ValueAt(v, h, totalH - end - spUD), ValueAt(v, h, totalH - begin - spUD), v.max);
  }

  /**
   * The time axis has no CheckValue: a selection of zero width whose edge
   * falls on a whole unit collapses the view to a single value.
   */
  lemma ZoomXCanCollapse()
    ensures ZoomX(View(100.0, 0.0), Rect(80, 10, 0, 40), 200, 50) == View(30.0, 30.0)
  {
    var v := View(100.0, 0.0);
    assert Span(80, 0) == (80, 80);
    assert SubtractOrZero(80, 50) == 30;
    assert (v.max - v.min) / 100 as real == 1.0;
    assert ValueAt(v, 100, 30) == 30.0;
    assert Ceil(30.0) == 30 && Floor(30.0) == 30;
  }

  // ---------------------------------------------------------------------
  // Selection geometry

  /** CalcZoomRect(point1, point2): the rectangle from point1 with extent point2 - point1. */
  function CalcZoomRect(p1: Point, p2: Point): (r: Rect)
    ensures r.x == p1.x && r.y == p1.y
    ensures r.x + r.width == p2.x && r.y + r.height == p2.y
  {
    Rect(p1.x, p1.y, p2.x - p1.x, p2.y - p1.y)
  }

  /** The zoom rectangle HandleZoomData builds from a drag: top-left corner and absolute size. */
  function SelectionRect(start: Point, end: Point): (r: Rect)
    ensures r.width >= 0 && r.height >= 0
  {
    Rect(Min(start.x, end.x), Min(start.y, end.y), AbsInt(start.x - end.x), AbsInt(start.y - end.y))
  }

  /** A rectangle with its signed extent turned into a top-left corner and a non-negative size. */
  function Normalize(r: Rect): (n: Rect)
    ensures n.width >= 0 && n.height >= 0
  {
    var (x0, x1) := Span(r.x, r.width);
    var (y0, y1) := Span(r.y, r.height);
    Rect(x0, y0, x1 - x0, y1 - y0)
  }

  /** The rubber band drawn while dragging covers the same pixels as the rectangle zoomed into. */
  lemma CalcZoomRectNormalizes(start: Point, end: Point)
    ensures Normalize(CalcZoomRect(start, end)) == SelectionRect(start, end)
  {
  }

  /** Clamp one coordinate as BoundPointToRect does: the upper test wins. */
  function Clamp(v: real, lo: real, hi: real): (r: real)
    ensures lo <= hi ==> lo <= r <= hi
    ensures lo <= v <= hi ==> r == v
    ensures v > hi ==> r == hi
    ensures v < lo && v <= hi ==> r == lo
  {
    if v > hi then hi else if v < lo then lo else v
  }

  /** BoundPointToRect(mousePt, rect): the mouse position clamped into `rect`. */
  function BoundPointToRect(mouse: Point, rect: RectF): (r: PointF)
    ensures rect.width >= 0.0 ==> rect.x <= r.x <= rect.Right()
    ensures rect.height >= 0.0 ==> rect.y <= r.y <= rect.Bottom()
    ensures rect.x <= mouse.x as real <= rect.Right() ==> r.x == mouse.x as real
    ensures rect.y <= mouse.y as real <= rect.Bottom() ==> r.y == mouse.y as real
  {
    PointF(Clamp(mouse.x as real, rect.x, rect.Right()), Clamp(mouse.y as real, rect.y, rect.Bottom()))
  }

  /** A clamped point is the nearest point of the rectangle: moving it towards the mouse leaves the rectangle. */
  lemma BoundPointIsNearest(mouse: Point, rect: RectF, q: PointF)
    requires rect.width >= 0.0 && rect.height >= 0.0
    requires rect.x <= q.x <= rect.Right() && rect.y <= q.y <= rect.Bottom()
    ensures var r := BoundPointToRect(mouse, rect);
            Abs(r.x - mouse.x as real) <= Abs(q.x - mouse.x as real) &&
            Abs(r.y - mouse.y as real) <= Abs(q.y - mouse.y as real)
  {
  }

  // ---------------------------------------------------------------------
  // The axis objects

  /** AxisX: the time axis, in minutes, whose zoom window grows as data arrive. */
  class AxisX {
    const name: Name
    const maxValue: real
    const minValue: real
    const segment: int
    var maxZoomValue: real
    var minZoomValue: real
    var update: bool
    var curMaxValue: real
    var curMinValue: real

    function State(): ZoomState
      reads this
    {
      ZoomState(maxZoomValue, minZoomValue, update, View(curMaxValue, curMinValue))
    }

    /** AxisX(name, max, min, seg, clr): window and view both the configured range. */
    constructor (name: Name, max: real, min: real, seg: int)
      ensures this.name == name && maxValue == max && minValue == min && segment == seg
      ensures State() == ZoomState(max, min, false, View(max, min))
    {
      this.name, maxValue, minValue, segment := name, max, min, seg;
      maxZoomValue, minZoomValue, update := max, min, false;
      curMaxValue, curMinValue := max, min;
    }

    method ChangeValue(curRect: Rect, totalW: int, totalH: int, spLR: int, spUD: int)
      requires totalW - spLR * 2 != 0
      modifies this
      ensures State() == old(State()).(view := ZoomX(old(State().view), curRect, totalW, spLR))
    {
      var max0, min0 := curMaxValue, curMinValue;
      var begin := Min(curRect.x, curRect.x + curRect.width);
      var end := Max(curRect.x + curRect.width, curRect.x);
      var scale := (max0 - min0) / (totalW - spLR * 2) as real;
      var curMax := (end - spLR) as real * scale + min0;
      var curMin := SubtractOrZero(begin, spLR) as real * scale + min0;
      ghost var v, w := View(max0, min0), totalW - spLR * 2;
      assert curMax == ValueAt(v, w, end - spLR);
      assert curMin == ValueAt(v, w, SubtractOrZero(begin, spLR));
      curMaxValue := Ceil(curMax) as real;
      curMinValue := Floor(curMin) as real;
    }

    method Restore()
      modifies this
      ensures State() == Restored(old(State()))
    {
      curMaxValue := maxZoomValue;
      curMinValue := minZoomValue;
    }

    /** Reset: view and zoom window back to the configured range. */
    method Reset()
      modifies this
      ensures State() == ZoomState(maxValue, minValue, old(update), View(maxValue, minValue))
    {
      curMaxValue := maxValue;
      curMinValue := minValue;
      maxZoomValue := maxValue;
      minZoomValue := minValue;
    }

    method SetZoomValue(value: int)
      modifies this
      ensures State() == WithZoomValue(old(State()), value)
    {
      maxZoomValue := value as real;
      update := true;
    }

    method Update()
      modifies this
      ensures State() == Updated(old(State()))
    {
      if update {
        curMaxValue := maxZoomValue;
        update := false;
      }
    }
  }

  /** AxisY: a value axis; one per curve. */
  class AxisY {
    const name: Name
    const maxValue: real
    const minValue: real
    const segment: int
    var maxZoomValue: real
    var minZoomValue: real
    var curMaxValue: real
    var curMinValue: real

    function CurView(): View
      reads this
    {
      View(curMaxValue, curMinValue)
    }

    constructor (name: Name, max: real, min: real, seg: int)
      ensures this.name == name && maxValue == max && minValue == min && segment == seg
      ensures maxZoomValue == max && minZoomValue == min && CurView() == View(max, min)
    {
      this.name, maxValue, minValue, segment := name, max, min, seg;
      maxZoomValue, minZoomValue := max, min;
      curMaxValue, curMinValue := max, min;
    }

    method ChangeValue(curRect: Rect, totalW: int, totalH: int, spLR: int, spUD: int)
      requires totalH - spUD * 2 != 0
      modifies this
      ensures CurView() == ZoomY(old(CurView()), curRect, totalH, spUD)
      ensures maxZoomValue == old(maxZoomValue) && minZoomValue == old(minZoomValue)
    {
      var max0, min0 := curMaxValue, curMinValue;
      var begin := Min(curRect.y, curRect.y + curRect.height);
      var end := Max(curRect.y + curRect.height, curRect.y);
      var scale := (max0 - min0) / (totalH - spUD * 2) as real;
      var curMax := (totalH - begin - spUD) as real * scale + min0;
      var curMin := SubtractOrZero(totalH, end + spUD) as real * scale + min0;
      ghost var v, h := View(max0, min0), totalH - spUD * 2;
      assert curMax == ValueAt(v, h, totalH - begin - spUD);
      assert curMin == ValueAt(v, h, SubtractOrZero(totalH, end + spUD));
      curMaxValue := Ceil(curMax) as real;
      curMinValue := Floor(curMin) as real;
      curMaxValue := CheckValue(curMaxValue, curMinValue);
    }

    method Restore()
      modifies this
      ensures CurView() == View(maxZoomValue, minZoomValue)
      ensures maxZoomValue == old(maxZoomValue) && minZoomValue == old(minZoomValue)
    {
      curMaxValue := maxZoomValue;
      curMinValue := minZoomValue;
    }

    /** Reset: only the view goes back to the configured range. */
    method Reset()
      modifies this
      ensures CurView() == View(maxValue, minValue)
      ensures maxZoomValue == old(maxZoomValue) && minZoomValue == old(minZoomValue)
    {
      curMaxValue := maxValue;
      curMinValue := minValue;
    }
  }
}
