/**
 * The non-graphical state of the DataCurveEx control: its axis registries,
 * the live and cache tables of channel buffers, the labels and the zoom
 * rectangle, with the operations that ingest samples, zoom, reload,
 * restore and reset. Each operation is proved against the functions of
 * module Ingest and module Axes.
 */
module DataCurve {
  import opened Numeric
  import opened Wrappers
  import opened BasicFramework
  import opened Filters
  import opened Axes
  import opened Ingest

  /** MAX_SPACE_LEFT_RIGHT and MAX_SPACE_UP_DOWN: the plot's margins in pixels. */
  const MaxSpaceLeftRight: int := 50
  const MaxSpaceUpDown: int := 50

  /** A drag shorter than this in both directions is not a zoom selection. */
  const SelectionThreshold: int := 10

  /** int.MaxValue, the initial visible-count cap. */
  const IntMaxValue: int := 0x7fff_ffff

  /** DataLabel: a named marker on the time axis. */
  datatype DataLabel = DataLabel(name: string, value: real)

  /**
   * CreateDataFilter: the factory for the configured filter kind when the
   * channel asks for filtering, none otherwise.
   */
  function CreateDataFilter(filter: bool, kind: FilterType): (f: Option<FilterFactory>)
    ensures f.None? <==> !filter || kind == FNone
    ensures f == Some(FirstOrderFactory) <==> filter && kind == FFirst
    ensures f == Some(KalmanFactory) <==> filter && kind == FKalman
    ensures f == Some(LimitFactory) <==> filter && kind == FLimit
  {
    if !filter then None
    else match kind
      case FFirst => Some(FirstOrderFactory)
      case FKalman => Some(KalmanFactory)
      case FLimit => Some(LimitFactory)
      case FNone => None
  }

  /** Whether a filter algorithm is what a factory builds. */
  predicate Builds(factory: FilterFactory, alg: FilterAlgorithm)
  {
    match factory
    case LimitFactory => alg.LimitFilter?
    case FirstOrderFactory => alg.FirstOrderFilter?
    case KalmanFactory => alg.KalmanFilter?
  }

  /** A drag too short in both directions to zoom. */
  predicate ShortDrag(start: Point, end: Point)
  {
    AbsInt(end.x - start.x) < SelectionThreshold && AbsInt(end.y - start.y) < SelectionThreshold
  }

  /** ResetCurveData's loop over the ids below `n`: every non-empty buffer keeps its even-indexed samples. */
  method HalveBuffers(items: map<int, DataItem>, n: nat) returns (r: map<int, DataItem>)
    requires forall k :: k in items ==> 0 <= k < n
    ensures r == Halved(items)
  {
    r := items;
    for i := 0 to n
      invariant r.Keys == items.Keys
      invariant forall k :: k in items ==> r[k] == if k < i then Halved(items)[k] else items[k]
    {
      if i in r && |r[i].data| > 0 {
        r := r[i := r[i].(data := Evens(r[i].data))];
      }
    }
  }

  /** ResetCurve's loops over the ids below `n`: every buffer emptied and its count zeroed. */
  method ClearBuffers(items: map<int, DataItem>, n: nat) returns (r: map<int, DataItem>)
    requires forall k :: k in items ==> 0 <= k < n
    ensures r == Cleared(items)
  {
    r := items;
    for i := 0 to n
      invariant r.Keys == items.Keys
      invariant forall k :: k in items ==> r[k] == if k < i then Cleared(items)[k] else items[k]
    {
      if i in r {
        r := r[i := r[i].(data := [], dataSize := 0)];
      }
    }
  }

  /** ReloadCurveData's loop over the live channels 0 .. n - 1, stopping at the first missing list. */
  method ReloadChannels(t0: Tables, fetched: map<int, seq<real>>) returns (t: Tables, thrown: bool)
    requires LiveDense(t0.live)
    ensures (t, thrown) == ReloadItems(t0, fetched, 0, |t0.live|)
  {
    t := t0;
    thrown := false;
    var n := |t0.live|;
    var i := 0;
    while i < n
      invariant 0 <= i <= n && t.live.Keys == t0.live.Keys
      invariant ReloadItems(t, fetched, i, n) == ReloadItems(t0, fetched, 0, n)
    {
      if i !in fetched {
        thrown := true;
        return;
      }
      if i !in t.cache {
        t := t.(cache := t.cache[i := CacheItemFrom(t.live[i], fetched[i])]);
      } else {
        t := t.(live := t.live[i := t.live[i].(data := fetched[i], dataSize := |fetched[i]|)]);
      }
      i := i + 1;
    }
  }

  /** ReloadCurveData on the tables: fetch the window's samples, then reload the channels. */
  method ReloadWindow(t0: Tables, pos: Option<ZoomPos>, fetch: (int, int, int) -> Option<map<int, seq<real>>>)
    returns (t: Tables, thrown: bool)
    requires LiveDense(t0.live)
    ensures (t, thrown) == Reloaded(t0, pos, fetch)
  {
    t, thrown := t0, false;
    if pos.None? {
      return;
    }
    var result := fetch(pos.value.minIndex, pos.value.maxIndex, pos.value.interval);
    if result.None? || |result.value| == 0 {
      return;
    }
    t, thrown := ReloadChannels(t0, result.value);
  }

  /**
   * One AddData entry for a known channel, with the current time axis
   * resolved to `axis`: the live step, then, unless it threw, the cache step.
   */
  method IngestEntry(live0: map<int, DataItem>, cache0: map<int, DataItem>, axis: AxisX, id: int, v: real,
                     ghost axisNames: set<Name>, ghost filterNames: set<Name>)
    returns (live: map<int, DataItem>, cache: map<int, DataItem>, thrown: bool)
    requires id in live0 && ChannelTables(live0, cache0, axisNames, filterNames)
    modifies axis
    ensures Outcome(CurveState(live, cache, Some(axis.State())), thrown) ==
            IngestSample(CurveState(live0, cache0, Some(old(axis.State()))), id, v)
    ensures ChannelTables(live, cache, axisNames, filterNames)
  {
    IngestedTables(CurveState(live0, cache0, Some(axis.State())), id, v, axisNames, filterNames);
    live, cache := live0, cache0;
    var l;
    l, thrown := FeedLive(live0, axis, id, v);
    if !thrown {
      live := l;
      cache, thrown := FeedCache(l, cache0, axis, id, v);
    }
  }

  /**
   * Part 1 of an AddData entry, on the live table and the current time
   * axis, as LiveStep describes. At capacity the source calls
   * ResetCurveData(_dict_data_items, true), whose CalcZoomPos check passes
   * because the current X handle has just resolved to `axis`: every live
   * buffer is halved.
   */
  method FeedLive(live0: map<int, DataItem>, axis: AxisX, id: int, v: real) returns (live: map<int, DataItem>, thrown: bool)
    requires id in live0 && LiveDense(live0)
    modifies axis
    ensures LiveOutcome(live, axis.State(), thrown) == LiveStep(live0, old(axis.State()), id, v)
  {
    if |live0[id].data| < MaxCurvePoint {
      live, thrown := FeedBelowCapacity(live0, axis, id, v);
    } else {
      live := FeedAtCapacity(live0, axis, id);
      thrown := false;
    }
  }

  /** LiveAppend: the decimated append of a buffer below capacity. */
  method FeedBelowCapacity(live0: map<int, DataItem>, axis: AxisX, id: int, v: real)
    returns (live: map<int, DataItem>, thrown: bool)
    requires id in live0
    ensures LiveOutcome(live, axis.State(), thrown) == LiveAppend(live0, axis.State(), id, v)
  {
    live := live0;
    var item := live[id];
    var minIndex := Trunc(axis.minZoomValue * SamplesPerUnit);
    var maxIndex := Trunc(axis.maxZoomValue * SamplesPerUnit);
    var interval := CeilDiv(maxIndex - minIndex, MaxCurvePoint);
    var stride := ULong(interval);
    if stride == 0 {
      thrown := true;
      return;
    }
    thrown := false;
    if item.dataSize % stride == 0 {
      item := item.(data := Appended(item.data, [v], MaxCurvePoint));
    }
    live := live[id := item.(dataSize := item.dataSize + 1)];
  }

  /** LiveAtCapacity: SetZoomValue doubles the window top, then every live buffer is halved. */
  method FeedAtCapacity(live0: map<int, DataItem>, axis: AxisX, id: int) returns (live: map<int, DataItem>)
    requires id in live0 && LiveDense(live0)
    modifies axis
    ensures LiveOutcome(live, axis.State(), false) == LiveAtCapacity(live0, old(axis.State()), id)
  {
    axis.SetZoomValue(Trunc(axis.maxZoomValue * 2.0));
    live := HalveBuffers(live0, |live0|);
    live := live[id := live[id].(dataSize := live[id].dataSize + 1)];
  }

  /** Part 2 of an AddData entry: the cache buffer or the axis update, as CacheStep describes. */
  method FeedCache(live: map<int, DataItem>, cache0: map<int, DataItem>, axis: AxisX, id: int, v: real)
    returns (cache: map<int, DataItem>, thrown: bool)
    requires id in live
    modifies axis
    ensures CacheOutcome(cache, axis.State(), thrown) == CacheStep(live, cache0, old(axis.State()), id, v)
  {
    cache, thrown := cache0, false;
    if id in cache {
      var minIndex := Trunc(axis.curMinValue * SamplesPerUnit);
      var maxIndex := Trunc(axis.curMaxValue * SamplesPerUnit);
      var c := FeedCacheBuffer(cache[id], live[id].dataSize, minIndex, AbsInt(maxIndex - minIndex), v);
      if c.None? {
        thrown := true;
        return;
      }
      cache := cache[id := c.value];
      return;
    }
    axis.Update();
  }

  /** CacheFeed: the cache buffer after one sample, None on a zero divisor. */
  method FeedCacheBuffer(c0: DataItem, received: nat, minIndex: int, span: nat, v: real) returns (r: Option<DataItem>)
    ensures r == CacheFeed(c0, received, minIndex, span, v)
  {
    var c := c0;
    var interval := CeilDiv(span, MaxCurvePoint);
    if interval == 0 {
      return None;
    }
    var maxCount := span / interval;
    if ULong(minIndex) <= received && |c.data| < maxCount {
      var stride := ULong(interval);
      if stride == 0 {
        return None;
      }
      if c.dataSize % stride == 0 {
        c := c.(data := Appended(c.data, [v], maxCount));
      }
    }
    r := Some(c.(dataSize := c.dataSize + 1));
  }

  /** One AddData entry keeps the channel tables consistent with the registries. */
  lemma IngestedTables(s: CurveState, id: int, v: real, axisNames: set<Name>, filterNames: set<Name>)
    requires ChannelTables(s.live, s.cache, axisNames, filterNames)
    ensures var o := IngestSample(s, id, v);
            ChannelTables(o.state.live, o.state.cache, axisNames, filterNames)
  {
    var o := IngestSample(s, id, v);
    assert |o.state.live| == |s.live| by {
      assert o.state.live.Keys == s.live.Keys;
    }
  }

  /**
   * An axis registry: its order lists each name once, and a current handle
   * naming a registered axis is valid.
   */
  ghost predicate Registry<A>(axes: map<Name, A>, order: seq<Name>, cur: AxisItem)
  {
    (forall n :: n in axes <==> n in order) && Distinct(order) &&
    (cur.name in axes ==> !cur.IsInvalid())
  }

  /**
   * Adding an axis under a new name keeps a registry consistent, with the
   * current handle kept or replaced by a valid one for the new axis.
   */
  lemma RegistryExtend<A>(axes: map<Name, A>, order: seq<Name>, cur: AxisItem, cur1: AxisItem, token: Name, a: A)
    requires Registry(axes, order, cur) && token !in axes && token != NoName
    requires (cur1 == cur && !cur.IsInvalid()) || (cur1.name == token && cur1.id == |axes|)
    ensures Registry(axes[token := a], order + [token], cur1)
  {
    DistinctAppend(order, token);
    forall n ensures n in axes[token := a] <==> n in order + [token] {
      assert n in order + [token] <==> n in order || n == token;
    }
  }

  /** Every listed name is registered, and distinct positions hold distinct names. */
  lemma RegistryListed<A>(axes: map<Name, A>, order: seq<Name>, cur: AxisItem, i: int)
    requires Registry(axes, order, cur) && 0 <= i < |order|
    ensures order[i] in axes && order[i] !in order[..i]
  {
    assert order[i] in order;
  }

  /** No name occurs twice. */
  ghost predicate Distinct(names: seq<Name>)
  {
    forall i, j :: 0 <= i < j < |names| ==> names[i] != names[j]
  }


  lemma DistinctAppend(names: seq<Name>, n: Name)
    requires Distinct(names) && n !in names
    ensures Distinct(names + [n])
  {
  }

  /** CreateAxisY numbers a new channel by the table size, so the ids stay dense. */
  lemma DenseExtend(live: map<int, DataItem>, item: DataItem)
    requires LiveDense(live)
    ensures |live| !in live
    ensures LiveDense(live[|live| := item]) && |live[|live| := item]| == |live| + 1
  {
  }

  /**
   * The channel tables against the Y registry's names: ids 0 .. n - 1, one
   * per Y axis, each naming a registered axis; cache buffers only for live
   * channels; filters only for registered axes.
   */
  ghost predicate ChannelTables(live: map<int, DataItem>, cache: map<int, DataItem>, axisNames: set<Name>, filterNames: set<Name>)
  {
    LiveDense(live) && |live| == |axisNames| &&
    (forall k :: k in live ==> live[k].axisName in axisNames) &&
    cache.Keys <= live.Keys &&
    filterNames <= axisNames
  }

  /** Registering a new Y axis together with its channel keeps the tables consistent. */
  lemma ChannelTablesExtend(live: map<int, DataItem>, cache: map<int, DataItem>, axisNames: set<Name>,
                            filterNames: set<Name>, newFilters: set<Name>, item: DataItem)
    requires ChannelTables(live, cache, axisNames, filterNames)
    requires item.axisName !in axisNames && newFilters <= filterNames + {item.axisName}
    ensures ChannelTables(live[|live| := item], cache, axisNames + {item.axisName}, newFilters)
  {
    DenseExtend(live, item);
  }

  /** Emptying every buffer keeps the channel tables consistent. */
  lemma ClearedKeepsTables(live: map<int, DataItem>, cache: map<int, DataItem>, axisNames: set<Name>, filterNames: set<Name>)
    requires ChannelTables(live, cache, axisNames, filterNames)
    ensures ChannelTables(Cleared(live), Cleared(cache), axisNames, filterNames)
  {
    assert |Cleared(live)| == |live| by {
      assert Cleared(live).Keys == live.Keys;
    }
  }

  /** Reloading keeps the channel tables consistent with the registries. */
  lemma ReloadedTables(t: Tables, pos: Option<ZoomPos>, fetch: (int, int, int) -> Option<map<int, seq<real>>>,
                       axisNames: set<Name>, filterNames: set<Name>)
    requires ChannelTables(t.live, t.cache, axisNames, filterNames)
    ensures var r := Reloaded(t, pos, fetch);
            ChannelTables(r.0.live, r.0.cache, axisNames, filterNames)
  {
    ReloadedKeepsAxes(t, pos, fetch);
    var r := Reloaded(t, pos, fetch);
    assert |r.0.live| == |t.live| by {
      assert r.0.live.Keys == t.live.Keys;
    }
  }

  /**
   * The registry invariant: each registry's order lists its names once and
   * each registered axis carries the name it is registered under; a current
   * axis handle that names a registered axis is valid; channel ids are
   * 0 .. n - 1, one per Y axis, each naming a registered Y axis; cache
   * buffers belong to live channels; and filters exist only for registered
   * Y axes.
   */
  ghost predicate ValidState(axesX: map<Name, AxisX>, orderX: seq<Name>, curX: AxisItem,
                             axesY: map<Name, AxisY>, orderY: seq<Name>, curY: AxisItem,
                             live: map<int, DataItem>, cache: map<int, DataItem>, filters: map<Name, FilterAlgorithm>)
  {
    Registry(axesX, orderX, curX) && (forall n :: n in axesX ==> axesX[n].name == n) &&
    Registry(axesY, orderY, curY) && (forall n :: n in axesY ==> axesY[n].name == n) &&
    ChannelTables(live, cache, axesY.Keys, filters.Keys)
  }

  /**
   * CreateAxisY's bookkeeping keeps the invariant: a new Y axis under a new
   * name, its channel numbered by the table size, a filter at most under
   * that name, and the current Y handle kept or taken over by the new axis.
   */
  lemma ValidExtendY(axesX: map<Name, AxisX>, orderX: seq<Name>, curX: AxisItem,
                     axesY: map<Name, AxisY>, orderY: seq<Name>, curY: AxisItem,
                     live: map<int, DataItem>, cache: map<int, DataItem>, filters: map<Name, FilterAlgorithm>,
                     axesY1: map<Name, AxisY>, orderY1: seq<Name>, curY1: AxisItem,
                     live1: map<int, DataItem>, filters1: map<Name, FilterAlgorithm>, axis: AxisY)
    requires ValidState(axesX, orderX, curX, axesY, orderY, curY, live, cache, filters)
    requires axis.name != NoName && axis.name !in axesY
    requires axesY1 == axesY[axis.name := axis] && orderY1 == orderY + [axis.name]
    requires (curY1 == curY && !curY.IsInvalid()) || (curY1.name == axis.name && curY1.id == |axesY|)
    requires |live| in live1 && live1 == live[|live| := live1[|live|]] && live1[|live|].axisName == axis.name
    requires filters1.Keys <= filters.Keys + {axis.name}
    ensures ValidState(axesX, orderX, curX, axesY1, orderY1, curY1, live1, cache, filters1)
  {
    var token := axis.name;
    assert axesY1.Keys == axesY.Keys + {token};
    RegistryExtend(axesY, orderY, curY, curY1, token, axis);
    ChannelTablesExtend(live, cache, axesY.Keys, filters.Keys, filters1.Keys, live1[|live|]);
  }

  class DataCurveEx {
    var curAxisX: AxisItem
    var curAxisY: AxisItem
    /**
     * The axis registries: Dictionary<AxisItem, AxisX/AxisY> compares keys
     * by name, so each is a map from axis name with its names in insertion
     * order, the order in which the dictionary enumerates them.
     */
    var axesX: map<Name, AxisX>
    var orderX: seq<Name>
    var axesY: map<Name, AxisY>
    var orderY: seq<Name>
    /** _dict_data_items and _dict_data_cache_items, keyed by channel id. */
    var live: map<int, DataItem>
    var cache: map<int, DataItem>
    /** _dict_filter, keyed by the Y axis name. */
    var filters: map<Name, FilterAlgorithm>
    var labels: seq<DataLabel>
    var startTime: int
    var zoomRect: Rect
    var maxVisibleCount: int
    const filterType: FilterType

    /** The registry invariant, on the control's fields. */
    ghost predicate Valid()
      reads this
    {
      ValidState(axesX, orderX, curAxisX, axesY, orderY, curAxisY, live, cache, filters)
    }

    /** The objects AddData may change: the time axis the current X handle names. */
    function AxisFrame(): set<AxisX>
      reads this`curAxisX, this`axesX
    {
      if curAxisX.name in axesX then {axesX[curAxisX.name]} else {}
    }

    /** The state AddData works on, as module Ingest describes it. */
    ghost function Snapshot(): CurveState
      reads this`live, this`cache, this`curAxisX, this`axesX, axesX.Values
    {
      CurveState(live, cache, if curAxisX.name in axesX then Some(axesX[curAxisX.name].State()) else None)
    }

    /**
     * CalcZoomPos: the sample window and stride of the current time axis,
     * or None when the current X handle is invalid or names no axis.
     */
    function CalcZoomPos(autoZoom: bool): (r: Option<ZoomPos>)
      reads this`curAxisX, this`axesX, axesX.Values
      ensures r.None? <==> curAxisX.IsInvalid() || curAxisX.name !in axesX
      ensures r.Some? ==>
                var span := r.value.maxIndex - r.value.minIndex;
                (r.value.interval == 0 <==> -MaxCurvePoint < span <= 0) &&
                (span > 0 ==> r.value.interval >= 1 && span <= r.value.interval * MaxCurvePoint &&
                              (r.value.interval - 1) * MaxCurvePoint < span)
    {
      if curAxisX.IsInvalid() || curAxisX.name !in axesX then None
      else
        ZoomPositionStride(axesX[curAxisX.name].State(), autoZoom);
        Some(ZoomPosition(axesX[curAxisX.name].State(), autoZoom))
    }

    /** InitializeDataCurve's engine state: empty registries and tables, no current axes. */
    constructor ()
      ensures Valid()
      ensures curAxisX == DefaultAxisItem && curAxisY == DefaultAxisItem
      ensures axesX == map[] && axesY == map[] && live == map[] && cache == map[] && filters == map[]
      ensures labels == [] && startTime == 0 && zoomRect == EmptyRect
      ensures maxVisibleCount == IntMaxValue && filterType == FFirst
    {
      curAxisX, curAxisY := DefaultAxisItem, DefaultAxisItem;
      axesX, orderX, axesY, orderY := map[], [], map[], [];
      live, cache, filters := map[], map[], map[];
      labels, startTime, zoomRect := [], 0, EmptyRect;
      maxVisibleCount, filterType := IntMaxValue, FFirst;
    }

    // -------------------------------------------------------------------
    // Registries

    /**
     * CreateAxisX: the X registry is cleared and holds one fresh axis named
     * by `token` (the GUID), with id 0; the current X handle is taken over
     * only if it was invalid.
     */
    method CreateAxisX(max: real, min: real, seg: int, unit: string, token: Name) returns (item: AxisItem)
      requires Valid() && token != NoName
      modifies this`axesX, this`orderX, this`curAxisX
      ensures Valid()
      ensures item == AxisItem(0, token, "", false, unit)
      ensures axesX.Keys == {token} && fresh(axesX[token]) && axesX[token].name == token
      ensures axesX[token].State() == ZoomState(max, min, false, View(max, min))
      ensures curAxisX == if old(curAxisX).IsInvalid() then item else old(curAxisX)
    {
      axesX, orderX := map[], [];
      item := AxisItem(|axesX|, token, "", false, unit);
      if curAxisX.IsInvalid() {
        curAxisX := item;
      }
      var axis := new AxisX(token, max, min, seg);
      axesX, orderX := axesX[token := axis], orderX + [token];
    }

    /**
     * CreateAxisY: a fresh Y axis named `token`, numbered by the registry
     * size; a live channel with that number and an empty buffer, shown only
     * if the visible-count cap leaves room; and a filter when the channel
     * asks for one. The source adds the filter before the axis; the steps
     * touch disjoint tables and cannot fail for a fresh name, so the order
     * is not observable.
     */
    method CreateAxisY(max: real, min: real, seg: int, axisLabel: string, thickness: real, unit: string,
                       filter: bool, visible: bool, token: Name) returns (item: AxisItem)
      requires Valid() && token != NoName && token !in axesY
      modifies this`axesY, this`orderY, this`curAxisY, this`live, this`filters
      ensures Valid()
      ensures item == AxisItem(old(|axesY|), token, axisLabel, false, unit)
      ensures token in axesY && axesY == old(axesY)[token := axesY[token]] && orderY == old(orderY) + [token]
      ensures fresh(axesY[token])
      ensures axesY[token].name == token && axesY[token].CurView() == View(max, min)
      ensures axesY[token].maxZoomValue == max && axesY[token].minZoomValue == min
      ensures curAxisY == if old(curAxisY).IsInvalid() then item else old(curAxisY)
      ensures live == old(live)[item.id := DataItem(thickness, visible && RoomForVisible(old(live), maxVisibleCount),
                                                    token, [], 0, filter)]
      ensures CreateDataFilter(filter, filterType).None? ==> filters == old(filters)
      ensures CreateDataFilter(filter, filterType).Some? ==>
                token in filters && filters == old(filters)[token := filters[token]] &&
                Builds(CreateDataFilter(filter, filterType).value, filters[token])
    {
      item := AxisItem(|axesY|, token, axisLabel, false, unit);
      var cur := if curAxisY.IsInvalid() then item else curAxisY;
      var shown := visible;
      if maxVisibleCount - 1 < VisibleCount(live) {
        shown := false;
      }
      var axis := new AxisY(token, max, min, seg);
      RegisterAxisY(axis, cur, DataItem(thickness, shown, token, [], 0, filter));
      AttachFilter(token, filter);
    }

    /** CreateAxisY's registry step: the axis under its name, the current Y handle and the channel. */
    method RegisterAxisY(axis: AxisY, cur: AxisItem, entry: DataItem)
      requires Valid() && axis.name != NoName && axis.name !in axesY && entry.axisName == axis.name
      requires (cur == curAxisY && !curAxisY.IsInvalid()) || (cur.name == axis.name && cur.id == |axesY|)
      modifies this`axesY, this`orderY, this`curAxisY, this`live
      ensures Valid()
      ensures axesY == old(axesY)[axis.name := axis] && orderY == old(orderY) + [axis.name] && curAxisY == cur
      ensures old(|axesY|) == old(|live|) && live == old(live)[old(|live|) := entry]
    {
      ghost var ax, ox, cx, ay, oy, cy, l, c, f := axesX, orderX, curAxisX, axesY, orderY, curAxisY, live, cache, filters;
      assert ValidState(ax, ox, cx, ay, oy, cy, l, c, f);
      assert |ay| == |l| by {
        assert |ay.Keys| == |ay|;
      }
      axesY, orderY, curAxisY, live := axesY[axis.name := axis], orderY + [axis.name], cur, live[|live| := entry];
      ValidExtendY(ax, ox, cx, ay, oy, cy, l, c, f, axesY, orderY, curAxisY, live, filters, axis);
    }

    /** CreateAxisY's filter step: a fresh filter under the axis name when CreateDataFilter gives a factory. */
    method AttachFilter(token: Name, filter: bool)
      requires Valid() && token in axesY
      modifies this`filters
      ensures Valid()
      ensures CreateDataFilter(filter, filterType).None? ==> filters == old(filters)
      ensures CreateDataFilter(filter, filterType).Some? ==>
                token in filters && filters == old(filters)[token := filters[token]] &&
                Builds(CreateDataFilter(filter, filterType).value, filters[token])
    {
      var factory := CreateDataFilter(filter, filterType);
      if factory.Some? {
        var alg := CreateFilter(factory.value);
        filters := filters[token := alg];
      }
    }

    /**
     * LinkLabelCtrl_Click on channel `id`: a hidden channel is shown only
     * while the visible-count cap leaves room; a shown one is always
     * hidden. The channel's cache buffer, if any, has its own flag flipped.
     */
    method ToggleCurveVisible(id: int) returns (toggled: bool)
      requires Valid()
      modifies this`live, this`cache
      ensures Valid()
      ensures toggled <==> id in old(live) && old(live)[id].axisName in axesY &&
                           (old(live)[id].isVisible || RoomForVisible(old(live), maxVisibleCount))
      ensures toggled ==> live == old(live)[id := old(live)[id].(isVisible := !old(live)[id].isVisible)]
      ensures toggled && id in old(cache) ==>
                cache == old(cache)[id := old(cache)[id].(isVisible := !old(cache)[id].isVisible)]
      ensures !toggled ==> live == old(live)
      ensures !toggled || id !in old(cache) ==> cache == old(cache)
    {
      toggled := false;
      if id !in live {
        return;
      }
      var item := live[id];
      if item.axisName !in axesY {
        return;
      }
      var showData := !item.isVisible;
      if showData && maxVisibleCount - 1 < VisibleCount(live) {
        return;
      }
      live := live[id := item.(isVisible := showData)];
      if id in cache {
        cache := cache[id := cache[id].(isVisible := !cache[id].isVisible)];
      }
      toggled := true;
    }

    method SetVisibleCount(count: int)
      modifies this`maxVisibleCount
      ensures maxVisibleCount == count
    {
      maxVisibleCount := count;
    }

    method SetStartTimestamp(timestamp: int)
      modifies this`startTime
      ensures startTime == timestamp
    {
      startTime := timestamp;
    }

    /** AddDataLabel: a label with a non-empty name is appended, moved off zero. */
    method AddDataLabel(pos: real, name: string)
      modifies this`labels
      ensures labels == if name == "" then old(labels) else old(labels) + [DataLabel(name, LabelPosition(pos))]
    {
      if name == "" {
        return;
      }
      var p := pos;
      if p == 0.0 {
        p := p + 0.05;
      }
      labels := labels + [DataLabel(name, p)];
    }

    // -------------------------------------------------------------------
    // Ingestion

    /** ResetCurveData(_dict_data_items, autoZoom): halve every live buffer if there is a time axis. */
    method ResetCurveData(autoZoom: bool)
      requires LiveDense(live)
      modifies this`live
      ensures live == if CalcZoomPos(autoZoom).Some? then Halved(old(live)) else old(live)
    {
      var pos := CalcZoomPos(autoZoom);
      if pos.None? {
        return;
      }
      live := HalveBuffers(live, |live|);
    }

    /** One entry of AddData's loop. */
    method AddSample(id: int, v: real) returns (thrown: bool)
      requires Valid()
      modifies this`live, this`cache, AxisFrame()
      ensures Valid()
      ensures Outcome(Snapshot(), thrown) == IngestSample(old(Snapshot()), id, v)
    {
      thrown := false;
      if id in live && curAxisX.name in axesX {
        var axis := axesX[curAxisX.name];
        live, cache, thrown := IngestEntry(live, cache, axis, id, v, axesY.Keys, filters.Keys);
      }
    }

    /**
     * AddData: the entries in order, each as IngestSample describes;
     * the first DivideByZeroException ends the call.
     */
    method AddData(samples: seq<(int, real)>) returns (thrown: bool)
      requires Valid()
      modifies this`live, this`cache, AxisFrame()
      ensures Valid()
      ensures var o := IngestAll(old(Snapshot()), samples);
              Snapshot() == o.state && thrown == o.thrown
    {
      ghost var s0 := Snapshot();
      thrown := false;
      var i := 0;
      while i < |samples|
        invariant 0 <= i <= |samples| && Valid()
        invariant IngestAll(s0, samples[..i]) == Outcome(Snapshot(), false)
      {
        assert samples[..i + 1][..i] == samples[..i];
        thrown := AddSample(samples[i].0, samples[i].1);
        if thrown {
          IngestStopsAtThrow(s0, samples, i + 1);
          return;
        }
        i := i + 1;
      }
      assert samples[..i] == samples;
    }

    // -------------------------------------------------------------------
    // Zooming

    /**
     * ReloadCurveData(_dict_data_cache_items, autoZoom): fetch the window's
     * samples through `fetch` (the DataCurveZoomData delegate) and reload
     * every live channel, as Reloaded describes.
     */
    method ReloadCurveData(fetch: (int, int, int) -> Option<map<int, seq<real>>>, autoZoom: bool) returns (thrown: bool)
      requires Valid()
      modifies this`live, this`cache
      ensures Valid()
      ensures (Tables(live, cache), thrown) == Reloaded(Tables(old(live), old(cache)), old(CalcZoomPos(autoZoom)), fetch)
    {
      var pos := CalcZoomPos(autoZoom);
      ReloadedTables(Tables(live, cache), pos, fetch, axesY.Keys, filters.Keys);
      var t;
      t, thrown := ReloadWindow(Tables(live, cache), pos, fetch);
      live, cache := t.live, t.cache;
    }

    /** ChangeValue on every X axis, in registry order. */
    method ChangeAxesX(rect: Rect, width: int, height: int)
      requires Valid() && width - MaxSpaceLeftRight * 2 != 0
      modifies axesX.Values
      ensures forall n :: n in axesX ==>
                axesX[n].State() == old(axesX[n].State()).(view := ZoomX(old(axesX[n].State().view), rect, width, MaxSpaceLeftRight))
    {
      for i := 0 to |orderX|
        invariant forall n :: n in axesX ==>
                    (axesX[n].State() ==
                       if n in orderX[..i]
                       then old(axesX[n].State()).(view := ZoomX(old(axesX[n].State().view), rect, width, MaxSpaceLeftRight))
                       else old(axesX[n].State()))
      {
        assert orderX[..i + 1] == orderX[..i] + [orderX[i]];
        RegistryListed(axesX, orderX, curAxisX, i);
        axesX[orderX[i]].ChangeValue(rect, width, height, MaxSpaceLeftRight, MaxSpaceUpDown);
      }
      assert orderX[..|orderX|] == orderX;
    }

    /** ChangeValue on every Y axis, in registry order: each view is zoomed, the zoom windows stay. */
    method ChangeAxesY(rect: Rect, width: int, height: int)
      requires Valid() && height - MaxSpaceUpDown * 2 != 0
      modifies axesY.Values
      ensures forall n :: n in axesY ==>
                axesY[n].CurView() == ZoomY(old(axesY[n].CurView()), rect, height, MaxSpaceUpDown)
      ensures forall n :: n in axesY ==>
                axesY[n].maxZoomValue == old(axesY[n].maxZoomValue) && axesY[n].minZoomValue == old(axesY[n].minZoomValue)
    {
      for i := 0 to |orderY|
        invariant forall n :: n in axesY ==>
                    (axesY[n].CurView() ==
                       if n in orderY[..i] then ZoomY(old(axesY[n].CurView()), rect, height, MaxSpaceUpDown)
                       else old(axesY[n].CurView()))
        invariant forall n :: n in axesY ==>
                    axesY[n].maxZoomValue == old(axesY[n].maxZoomValue) && axesY[n].minZoomValue == old(axesY[n].minZoomValue)
      {
        assert orderY[..i + 1] == orderY[..i] + [orderY[i]];
        RegistryListed(axesY, orderY, curAxisY, i);
        axesY[orderY[i]].ChangeValue(rect, width, height, MaxSpaceLeftRight, MaxSpaceUpDown);
      }
      assert orderY[..|orderY|] == orderY;
    }

    /** Restore on every X axis. */
    method RestoreAxesX()
      requires Valid()
      modifies axesX.Values
      ensures forall n :: n in axesX ==> axesX[n].State() == Restored(old(axesX[n].State()))
    {
      for i := 0 to |orderX|
        invariant forall n :: n in axesX ==>
                    (axesX[n].State() == if n in orderX[..i] then Restored(old(axesX[n].State())) else old(axesX[n].State()))
      {
        assert orderX[..i + 1] == orderX[..i] + [orderX[i]];
        RegistryListed(axesX, orderX, curAxisX, i);
        axesX[orderX[i]].Restore();
      }
      assert orderX[..|orderX|] == orderX;
    }

    /** Restore on every Y axis: each view becomes its zoom window. */
    method RestoreAxesY()
      requires Valid()
      modifies axesY.Values
      ensures forall n :: n in axesY ==>
                axesY[n].CurView() == View(old(axesY[n].maxZoomValue), old(axesY[n].minZoomValue))
      ensures forall n :: n in axesY ==>
                axesY[n].maxZoomValue == old(axesY[n].maxZoomValue) && axesY[n].minZoomValue == old(axesY[n].minZoomValue)
    {
      for i := 0 to |orderY|
        invariant forall n :: n in axesY ==>
                    axesY[n].maxZoomValue == old(axesY[n].maxZoomValue) && axesY[n].minZoomValue == old(axesY[n].minZoomValue)
        invariant forall n :: n in axesY && n in orderY[..i] ==>
                    axesY[n].CurView() == View(old(axesY[n].maxZoomValue), old(axesY[n].minZoomValue))
      {
        assert orderY[..i + 1] == orderY[..i] + [orderY[i]];
        RegistryListed(axesY, orderY, curAxisY, i);
        axesY[orderY[i]].Restore();
      }
      assert orderY[..|orderY|] == orderY;
    }

    /** Reset on every X axis: the view and the zoom window go back to the configured range. */
    method ResetAxesX()
      requires Valid()
      modifies axesX.Values
      ensures forall n :: n in axesX ==>
                axesX[n].State() == ZoomState(axesX[n].maxValue, axesX[n].minValue, old(axesX[n].update),
                                              View(axesX[n].maxValue, axesX[n].minValue))
    {
      for i := 0 to |orderX|
        invariant forall n :: n in axesX && n in orderX[..i] ==>
                    axesX[n].State() == ZoomState(axesX[n].maxValue, axesX[n].minValue, old(axesX[n].update),
                                                  View(axesX[n].maxValue, axesX[n].minValue))
        invariant forall n :: n in axesX && n !in orderX[..i] ==> axesX[n].update == old(axesX[n].update)
      {
        assert orderX[..i + 1] == orderX[..i] + [orderX[i]];
        RegistryListed(axesX, orderX, curAxisX, i);
        axesX[orderX[i]].Reset();
      }
      assert orderX[..|orderX|] == orderX;
    }

    /** Reset on every Y axis: each view goes back to the configured range, the zoom windows stay. */
    method ResetAxesY()
      requires Valid()
      modifies axesY.Values
      ensures forall n :: n in axesY ==> axesY[n].CurView() == View(axesY[n].maxValue, axesY[n].minValue)
      ensures forall n :: n in axesY ==>
                axesY[n].maxZoomValue == old(axesY[n].maxZoomValue) && axesY[n].minZoomValue == old(axesY[n].minZoomValue)
    {
      for i := 0 to |orderY|
        invariant forall n :: n in axesY ==>
                    axesY[n].maxZoomValue == old(axesY[n].maxZoomValue) && axesY[n].minZoomValue == old(axesY[n].minZoomValue)
        invariant forall n :: n in axesY && n in orderY[..i] ==> axesY[n].CurView() == View(axesY[n].maxValue, axesY[n].minValue)
      {
        assert orderY[..i + 1] == orderY[..i] + [orderY[i]];
        RegistryListed(axesY, orderY, curAxisY, i);
        axesY[orderY[i]].Reset();
      }
      assert orderY[..|orderY|] == orderY;
    }

    // -------------------------------------------------------------------
    // Restore, reset, zoom

    /** RestoreAxis: every axis shows its zoom window again; the cache and the zoom rectangle are cleared. */
    method RestoreAxis()
      requires Valid()
      modifies axesX.Values, axesY.Values, this`cache, this`zoomRect
      ensures Valid()
      ensures forall n :: n in axesX ==> axesX[n].State() == Restored(old(axesX[n].State()))
      ensures forall n :: n in axesY ==>
                axesY[n].CurView() == View(old(axesY[n].maxZoomValue), old(axesY[n].minZoomValue))
      ensures forall n :: n in axesY ==>
                axesY[n].maxZoomValue == old(axesY[n].maxZoomValue) && axesY[n].minZoomValue == old(axesY[n].minZoomValue)
      ensures cache == map[] && zoomRect == EmptyRect
    {
      RestoreAxesX();
      RestoreAxesY();
      cache, zoomRect := map[], EmptyRect;
    }

    /** ResetAxis: every axis goes back to its configured range; the cache and the zoom rectangle are cleared. */
    method ResetAxis()
      requires Valid()
      modifies axesX.Values, axesY.Values, this`cache, this`zoomRect
      ensures Valid()
      ensures forall n :: n in axesX ==>
                axesX[n].State() == ZoomState(axesX[n].maxValue, axesX[n].minValue, old(axesX[n].update),
                                              View(axesX[n].maxValue, axesX[n].minValue))
      ensures forall n :: n in axesY ==> axesY[n].CurView() == View(axesY[n].maxValue, axesY[n].minValue)
      ensures forall n :: n in axesY ==>
                axesY[n].maxZoomValue == old(axesY[n].maxZoomValue) && axesY[n].minZoomValue == old(axesY[n].minZoomValue)
      ensures cache == map[] && zoomRect == EmptyRect
    {
      ResetAxesX();
      ResetAxesY();
      cache, zoomRect := map[], EmptyRect;
    }

    /**
     * ResetCurve: every live and cache buffer is emptied, the labels and the
     * start time are cleared, then ResetAxis runs (which drops the cache).
     */
    method ResetCurve()
      requires Valid()
      modifies this`live, this`cache, this`labels, this`startTime, this`zoomRect, axesX.Values, axesY.Values
      ensures Valid()
      ensures live == Cleared(old(live)) && cache == map[]
      ensures labels == [] && startTime == 0 && zoomRect == EmptyRect
      ensures forall n :: n in axesX ==>
                axesX[n].State() == ZoomState(axesX[n].maxValue, axesX[n].minValue, old(axesX[n].update),
                                              View(axesX[n].maxValue, axesX[n].minValue))
      ensures forall n :: n in axesY ==> axesY[n].CurView() == View(axesY[n].maxValue, axesY[n].minValue)
      ensures forall n :: n in axesY ==>
                axesY[n].maxZoomValue == old(axesY[n].maxZoomValue) && axesY[n].minZoomValue == old(axesY[n].minZoomValue)
    {
      ClearCurveData();
      ResetAxis();
    }

    /** ResetCurve's data step: empty buffers, no labels, start time zero. */
    method ClearCurveData()
      requires Valid()
      modifies this`live, this`cache, this`labels, this`startTime
      ensures Valid()
      ensures live == Cleared(old(live)) && cache == Cleared(old(cache))
      ensures labels == [] && startTime == 0
    {
      var n := |live|;
      ClearedKeepsTables(live, cache, axesY.Keys, filters.Keys);
      live := ClearBuffers(live, n);
      cache := ClearBuffers(cache, n);
      labels, startTime := [], 0;
    }

    /**
     * HandleZoomData, on releasing a drag from `start` to `end` over a
     * control of `width` x `height` pixels: a drag shorter than the
     * threshold in both directions changes nothing; otherwise the selection
     * becomes the zoom rectangle, every axis zooms its view to it, and the
     * cache is rebuilt from the data source for the zoomed time window.
     */
    method HandleZoomData(start: Point, end: Point, width: int, height: int,
                          fetch: (int, int, int) -> Option<map<int, seq<real>>>) returns (thrown: bool)
      requires Valid() && width - MaxSpaceLeftRight * 2 != 0 && height - MaxSpaceUpDown * 2 != 0
      modifies this`live, this`cache, this`zoomRect, axesX.Values, axesY.Values
      ensures Valid()
      ensures ShortDrag(start, end) ==>
                !thrown && live == old(live) && cache == old(cache) && zoomRect == old(zoomRect) &&
                (forall n :: n in axesX ==> axesX[n].State() == old(axesX[n].State())) &&
                (forall n :: n in axesY ==> axesY[n].CurView() == old(axesY[n].CurView()))
      ensures !ShortDrag(start, end) ==>
                zoomRect == SelectionRect(start, end) &&
                (forall n :: n in axesX ==>
                   axesX[n].State() == old(axesX[n].State()).(view := ZoomX(old(axesX[n].State().view), zoomRect, width, MaxSpaceLeftRight))) &&
                (forall n :: n in axesY ==>
                   axesY[n].CurView() == ZoomY(old(axesY[n].CurView()), zoomRect, height, MaxSpaceUpDown)) &&
                (Tables(live, cache), thrown) == Reloaded(Tables(old(live), map[]), CalcZoomPos(false), fetch)
      ensures forall n :: n in axesY ==>
                axesY[n].maxZoomValue == old(axesY[n].maxZoomValue) && axesY[n].minZoomValue == old(axesY[n].minZoomValue)
    {
      thrown := false;
      if !ShortDrag(start, end) {
        zoomRect := SelectionRect(start, end);
        ZoomAxes(zoomRect, width, height);
        thrown := ReloadZoomed(fetch);
      }
    }

    /** HandleZoomData's axis step: ChangeValue on every X axis, then on every Y axis. */
    method ZoomAxes(rect: Rect, width: int, height: int)
      requires Valid() && width - MaxSpaceLeftRight * 2 != 0 && height - MaxSpaceUpDown * 2 != 0
      modifies axesX.Values, axesY.Values
      ensures forall n :: n in axesX ==>
                axesX[n].State() == old(axesX[n].State()).(view := ZoomX(old(axesX[n].State().view), rect, width, MaxSpaceLeftRight))
      ensures forall n :: n in axesY ==>
                axesY[n].CurView() == ZoomY(old(axesY[n].CurView()), rect, height, MaxSpaceUpDown)
      ensures forall n :: n in axesY ==>
                axesY[n].maxZoomValue == old(axesY[n].maxZoomValue) && axesY[n].minZoomValue == old(axesY[n].minZoomValue)
    {
      ChangeAxesX(rect, width, height);
      ChangeAxesY(rect, width, height);
    }

    /**
     * UpdateZoomAxisX(max, min): when the current X handle names an axis, its
     * view becomes [min, max] and the cache is rebuilt for that window;
     * otherwise nothing changes.
     */
    method UpdateZoomAxisX(max: real, min: real, fetch: (int, int, int) -> Option<map<int, seq<real>>>)
      returns (thrown: bool)
      requires Valid()
      modifies this`live, this`cache, AxisFrame()
      ensures Valid()
      ensures old(CalcZoomPos(false)).None? ==>
                !thrown && live == old(live) && cache == old(cache) && CalcZoomPos(false).None?
      ensures old(CalcZoomPos(false)).Some? ==>
                axesX[curAxisX.name].State() == old(axesX[curAxisX.name].State()).(view := View(max, min)) &&
                CalcZoomPos(false) == Some(ZoomPosition(axesX[curAxisX.name].State(), false)) &&
                (Tables(live, cache), thrown) == Reloaded(Tables(old(live), map[]), CalcZoomPos(false), fetch)
    {
      thrown := false;
      if curAxisX.IsInvalid() || curAxisX.name !in axesX {
        return;
      }
      var axis := axesX[curAxisX.name];
      axis.curMaxValue, axis.curMinValue := max, min;
      cache := map[];
      thrown := ReloadCurveData(fetch, false);
    }

    /** HandleZoomData's data step: the cache is emptied and rebuilt for the current time window. */
    method ReloadZoomed(fetch: (int, int, int) -> Option<map<int, seq<real>>>) returns (thrown: bool)
      requires Valid()
      modifies this`live, this`cache
      ensures Valid()
      ensures (Tables(live, cache), thrown) == Reloaded(Tables(old(live), map[]), CalcZoomPos(false), fetch)
    {
      cache := map[];
      thrown := ReloadCurveData(fetch, false);
    }
  }
}
