/**
 * The data engine of DataCurveEx as functions on its tables: what AddData
 * does to the live table, the cache table and the current time axis for
 * one sample and for a batch, how ResetCurveData decimates, how
 * CalcZoomPos derives the sample window and stride, and how
 * ReloadCurveData fills the cache from fetched data. The DataCurveEx class
 * (module DataCurve) is proved against these functions; the lemmas below
 * state what they guarantee.
 */
module Ingest {
  import opened Numeric
  import opened Wrappers
  import opened BasicFramework
  import opened Axes

  /** MAX_CURVE_POINT: the most samples a live buffer holds. */
  const MaxCurvePoint: int := 3600

  /** Samples per minute of the time axis (the source's `* 60`). */
  const SamplesPerUnit: real := 60.0

  /**
   * DataItem: one curve's buffer and its display settings. `dataSize` is
   * the number of samples received, which exceeds |data| once samples are
   * decimated.
   */
  datatype DataItem = DataItem(lineThickness: real, isVisible: bool, axisName: Name,
                               data: seq<real>, dataSize: nat, isFilter: bool)

  // ---------------------------------------------------------------------
  // Decimation

  /** The elements of `s` at even indices, in order. */
  function Evens<T>(s: seq<T>): (r: seq<T>)
    ensures |r| == (|s| + 1) / 2
    ensures forall i :: 0 <= i < |r| ==> r[i] == s[2 * i]
    decreases |s|
  {
    if |s| <= 1 then s else [s[0]] + Evens(s[2..])
  }

  /** ResetCurveData's effect on a table: every non-empty buffer keeps its even-indexed samples. */
  function Halved(items: map<int, DataItem>): (r: map<int, DataItem>)
    ensures r.Keys == items.Keys
  {
    map k | k in items :: if |items[k].data| > 0 then items[k].(data := Evens(items[k].data)) else items[k]
  }

  /** Halving keeps every channel and its settings and halves each buffer, rounding up. */
  lemma HalvedBuffers(items: map<int, DataItem>)
    ensures Halved(items).Keys == items.Keys
    ensures forall k :: k in items ==>
              Halved(items)[k] == items[k].(data := Evens(items[k].data)) &&
              |Halved(items)[k].data| == (|items[k].data| + 1) / 2
  {
    forall k | k in items
      ensures Halved(items)[k] == items[k].(data := Evens(items[k].data))
    {
      if |items[k].data| == 0 {
        assert Evens(items[k].data) == items[k].data;
      }
    }
  }

  // ---------------------------------------------------------------------
  // Sample window and stride

  /** CalcZoomPos's outputs: the window in sample indices and the decimation stride. */
  datatype ZoomPos = ZoomPos(minIndex: int, maxIndex: int, interval: int)

  /**
   * CalcZoomPos for an axis in state `z`: the zoom window when `autoZoom`,
   * otherwise the view, in samples, and the stride that fits its span into
   * MaxCurvePoint points.
   */
  function ZoomPosition(z: ZoomState, autoZoom: bool): (p: ZoomPos)
    ensures p.interval == 0 <==> -MaxCurvePoint < p.maxIndex - p.minIndex <= 0
  {
    var lo := if autoZoom then z.minZoom else z.view.min;
    var hi := if autoZoom then z.maxZoom else z.view.max;
    var minIndex := Trunc(lo * SamplesPerUnit);
    var maxIndex := Trunc(hi * SamplesPerUnit);
    CeilDivZero(maxIndex - minIndex, MaxCurvePoint);
    ZoomPos(minIndex, maxIndex, CeilDiv(maxIndex - minIndex, MaxCurvePoint))
  }

  /**
   * For a non-empty window the stride is the smallest one that samples the
   * span in at most MaxCurvePoint points.
   */
  lemma StrideIsSmallest(span: int)
    requires span > 0
    ensures var k := CeilDiv(span, MaxCurvePoint);
            k >= 1 && span <= k * MaxCurvePoint && (k - 1) * MaxCurvePoint < span
  {
    var k := CeilDiv(span, MaxCurvePoint);
    var q := span as real / MaxCurvePoint as real;
    assert q * MaxCurvePoint as real == span as real;
    assert k as real - 1.0 < q <= k as real;
    assert span as real <= (k * MaxCurvePoint) as real;
    assert ((k - 1) * MaxCurvePoint) as real < span as real;
  }

  lemma ZoomPositionStride(z: ZoomState, autoZoom: bool)
    ensures var p := ZoomPosition(z, autoZoom);
            var span := p.maxIndex - p.minIndex;
            span > 0 ==> p.interval >= 1 && span <= p.interval * MaxCurvePoint &&
                         (p.interval - 1) * MaxCurvePoint < span
  {
    var p := ZoomPosition(z, autoZoom);
    if p.maxIndex - p.minIndex > 0 {
      StrideIsSmallest(p.maxIndex - p.minIndex);
    }
  }

  // ---------------------------------------------------------------------
  // AddData

  /**
   * The tables AddData works on and the zoom state of the current time
   * axis (None when the current X handle names no axis).
   */
  datatype CurveState = CurveState(live: map<int, DataItem>, cache: map<int, DataItem>, axis: Option<ZoomState>)

  /** The state after a step and whether the step threw (DivideByZeroException). */
  datatype Outcome = Outcome(state: CurveState, thrown: bool)

  /** The live table and time axis after part 1 of a step, and whether it threw. */
  datatype LiveOutcome = LiveOutcome(live: map<int, DataItem>, axis: ZoomState, thrown: bool)

  /** The cache table and time axis after part 2 of a step, and whether it threw. */
  datatype CacheOutcome = CacheOutcome(cache: map<int, DataItem>, axis: ZoomState, thrown: bool)

  /**
   * Part 1 of one AddData step on channel `id`, with time axis state `z`:
   * decimated append to the live buffer, or, at capacity, doubling of the
   * window and halving of every live buffer; then the channel's
   * received-sample count grows by one.
   */
  function LiveStep(live: map<int, DataItem>, z: ZoomState, id: int, v: real): (o: LiveOutcome)
    requires id in live
    ensures o.live.Keys == live.Keys
    ensures forall k :: k in live ==> o.live[k].axisName == live[k].axisName
  {
    if |live[id].data| < MaxCurvePoint then LiveAppend(live, z, id, v) else LiveAtCapacity(live, z, id)
  }

  /** Below capacity: the sample joins the buffer when the count is a multiple of the stride. */
  function LiveAppend(live: map<int, DataItem>, z: ZoomState, id: int, v: real): (o: LiveOutcome)
    requires id in live
    ensures o.live.Keys == live.Keys && o.axis == z
    ensures forall k :: k in live ==> o.live[k].axisName == live[k].axisName
  {
    var item := live[id];
    var stride := ULong(ZoomPosition(z, true).interval);
    if stride == 0 then LiveOutcome(live, z, true)
    else
      var data := if item.dataSize % stride == 0 then Appended(item.data, [v], MaxCurvePoint) else item.data;
      LiveOutcome(live[id := item.(data := data, dataSize := item.dataSize + 1)], z, false)
  }

  /** At capacity: the window doubles and every live buffer is halved; the sample is only counted. */
  function LiveAtCapacity(live: map<int, DataItem>, z: ZoomState, id: int): (o: LiveOutcome)
    requires id in live
    ensures o.live.Keys == live.Keys && !o.thrown
    ensures forall k :: k in live ==> o.live[k].axisName == live[k].axisName
  {
    var z1 := WithZoomValue(z, Trunc(z.maxZoom * 2.0));
    HalvedBuffers(live);
    var live1 := Halved(live);
    LiveOutcome(live1[id := live1[id].(dataSize := live1[id].dataSize + 1)], z1, false)
  }

  /**
   * Part 2: a channel with a cache buffer (the user has zoomed in) also
   * feeds it, decimated to the view, and skips the axis update; any other
   * channel lets the axis apply a pending window change.
   */
  function CacheStep(live: map<int, DataItem>, cache: map<int, DataItem>, z: ZoomState, id: int, v: real): (o: CacheOutcome)
    requires id in live
    ensures o.cache.Keys == cache.Keys
  {
    if id in cache then
      var (minIndex, maxIndex) := SampleWindow(z.view);
      match CacheFeed(cache[id], live[id].dataSize, minIndex, AbsInt(maxIndex - minIndex), v)
      case None => CacheOutcome(cache, z, true)
      case Some(c1) => CacheOutcome(cache[id := c1], z, false)
    else
      CacheOutcome(cache, Updated(z), false)
  }

  /** The view in sample indices: (int)(min * 60) and (int)(max * 60). */
  function SampleWindow(view: View): (w: (int, int))
    ensures w.0 == Trunc(view.min * SamplesPerUnit) && w.1 == Trunc(view.max * SamplesPerUnit)
  {
    (Trunc(view.min * SamplesPerUnit), Trunc(view.max * SamplesPerUnit))
  }

  /**
   * The cache buffer `c` after one sample, given the live channel's
   * received count and the view's first sample index and span; None when
   * the stride is zero (DivideByZeroException).
   */
  function CacheFeed(c: DataItem, received: nat, minIndex: int, span: nat, v: real): (r: Option<DataItem>)
    ensures span == 0 ==> r.None?
    ensures r.Some? ==> r.value == c.(data := r.value.data, dataSize := c.dataSize + 1) &&
                        (r.value.data == c.data || r.value.data == c.data + [v])
  {
    var interval := CeilDiv(span, MaxCurvePoint);
    CeilDivZero(span, MaxCurvePoint);
    if interval == 0 then None
    else
      var maxCount := span / interval;
      if ULong(minIndex) <= received && |c.data| < maxCount then
        var stride := ULong(interval);
        if stride == 0 then None
        else
          AppendedFits(c.data, [v], maxCount);
          var data := if c.dataSize % stride == 0 then Appended(c.data, [v], maxCount) else c.data;
          Some(c.(data := data, dataSize := c.dataSize + 1))
      else
        Some(c.(dataSize := c.dataSize + 1))
  }

  /**
   * One iteration of AddData's loop for the entry (id, v). Unknown
   * channels, and everything when the current X handle resolves to no
   * axis, are skipped.
   */
  function IngestSample(s: CurveState, id: int, v: real): (o: Outcome)
    ensures o.state.live.Keys == s.live.Keys && o.state.cache.Keys == s.cache.Keys
    ensures o.state.axis.Some? == s.axis.Some?
    ensures forall k :: k in s.live ==> o.state.live[k].axisName == s.live[k].axisName
    ensures id !in s.live || s.axis.None? ==> o == Outcome(s, false)
  {
    if id !in s.live || s.axis.None? then Outcome(s, false)
    else
      var l := LiveStep(s.live, s.axis.value, id, v);
      if l.thrown then Outcome(s, true)
      else
        var c := CacheStep(l.live, s.cache, l.axis, id, v);
        Outcome(CurveState(l.live, c.cache, Some(c.axis)), c.thrown)
  }

  /** AddData(dict): the entries in enumeration order, stopping at the first exception. */
  function IngestAll(s: CurveState, samples: seq<(int, real)>): (o: Outcome)
    ensures o.state.live.Keys == s.live.Keys && o.state.cache.Keys == s.cache.Keys
    ensures o.state.axis.Some? == s.axis.Some?
    ensures forall k :: k in s.live ==> o.state.live[k].axisName == s.live[k].axisName
    decreases |samples|
  {
    if |samples| == 0 then Outcome(s, false)
    else
      var o := IngestAll(s, samples[..|samples| - 1]);
      if o.thrown then o else IngestSample(o.state, samples[|samples| - 1].0, samples[|samples| - 1].1)
  }

  /** Once a batch has thrown, the entries after the throw are never processed. */
  lemma {:induction false} IngestStopsAtThrow(s: CurveState, samples: seq<(int, real)>, i: nat)
    requires i <= |samples| && IngestAll(s, samples[..i]).thrown
    ensures IngestAll(s, samples) == IngestAll(s, samples[..i])
    decreases |samples| - i
  {
    if i < |samples| {
      assert samples[..i + 1][..i] == samples[..i];
      IngestStopsAtThrow(s, samples, i + 1);
    } else {
      assert samples[..i] == samples;
    }
  }

  /** Every live buffer holds at most MaxCurvePoint samples. */
  ghost predicate LiveBounded(live: map<int, DataItem>)
  {
    forall k :: k in live ==> |live[k].data| <= MaxCurvePoint
  }

  /** One sample never pushes a live buffer past MaxCurvePoint. */
  lemma IngestSampleBounded(s: CurveState, id: int, v: real)
    requires LiveBounded(s.live)
    ensures LiveBounded(IngestSample(s, id, v).state.live)
  {
    if id in s.live && s.axis.Some? {
      var item := s.live[id];
      if |item.data| < MaxCurvePoint {
        AppendedFits(item.data, [v], MaxCurvePoint);
      } else {
        HalvedBuffers(s.live);
      }
    }
  }

  /** The live-buffer bound holds after any batch. */
  lemma {:induction false} IngestAllBounded(s: CurveState, samples: seq<(int, real)>)
    requires LiveBounded(s.live)
    ensures LiveBounded(IngestAll(s, samples).state.live)
    decreases |samples|
  {
    if |samples| > 0 {
      IngestAllBounded(s, samples[..|samples| - 1]);
      var o := IngestAll(s, samples[..|samples| - 1]);
      if !o.thrown {
        IngestSampleBounded(o.state, samples[|samples| - 1].0, samples[|samples| - 1].1);
      }
    }
  }

  /**
   * The live step counts the sample once on its own channel and on no
   * other, whether or not it is stored; a zero stride throws before
   * anything changes.
   */
  lemma LiveStepCounts(live: map<int, DataItem>, z: ZoomState, id: int, v: real)
    requires id in live
    ensures var o := LiveStep(live, z, id, v);
            (o.thrown ==> o == LiveOutcome(live, z, true)) &&
            (!o.thrown ==> forall k :: k in live ==>
               o.live[k].dataSize == live[k].dataSize + (if k == id then 1 else 0))
  {
    HalvedBuffers(live);
  }

  /**
   * A sample that throws nothing, on a known channel with a current time
   * axis, counts once on that channel and on no other.
   */
  lemma IngestSampleCounts(s: CurveState, id: int, v: real)
    ensures var o := IngestSample(s, id, v);
            !o.thrown ==> forall k :: k in s.live ==>
              o.state.live[k].dataSize == s.live[k].dataSize + (if k == id && s.axis.Some? then 1 else 0)
  {
    if id in s.live && s.axis.Some? {
      LiveStepCounts(s.live, s.axis.value, id, v);
    }
  }

  /** How often channel `id` occurs in a batch. */
  function Occurrences(samples: seq<(int, real)>, id: int): nat
    decreases |samples|
  {
    if |samples| == 0 then 0
    else Occurrences(samples[..|samples| - 1], id) + (if samples[|samples| - 1].0 == id then 1 else 0)
  }

  /**
   * After a batch that throws nothing, each known channel's received-sample
   * count has grown by the number of its entries in the batch.
   */
  lemma {:induction false} IngestAllCounts(s: CurveState, samples: seq<(int, real)>)
    requires s.axis.Some?
    requires !IngestAll(s, samples).thrown
    ensures var o := IngestAll(s, samples);
            forall k :: k in s.live ==> o.state.live[k].dataSize == s.live[k].dataSize + Occurrences(samples, k)
    decreases |samples|
  {
    if |samples| > 0 {
      var prefix := samples[..|samples| - 1];
      var (id, v) := samples[|samples| - 1];
      var o := IngestAll(s, prefix);
      assert !o.thrown;
      IngestAllCounts(s, prefix);
      IngestSampleCounts(o.state, id, v);
    }
  }

  /** Entries for channels without a live buffer change nothing. */
  lemma {:induction false} IngestUnknownChannels(s: CurveState, samples: seq<(int, real)>)
    requires forall i :: 0 <= i < |samples| ==> samples[i].0 !in s.live
    ensures IngestAll(s, samples) == Outcome(s, false)
    decreases |samples|
  {
    if |samples| > 0 {
      IngestUnknownChannels(s, samples[..|samples| - 1]);
    }
  }

  /**
   * Below capacity a sample is appended exactly when the received count is
   * a multiple of the window stride; a zero stride throws before anything
   * changes. The time axis is not touched here.
   */
  lemma LiveAppendRule(live: map<int, DataItem>, z: ZoomState, id: int, v: real)
    requires id in live && |live[id].data| < MaxCurvePoint
    ensures var stride := ULong(ZoomPosition(z, true).interval);
            var o := LiveStep(live, z, id, v);
            var item, item1 := live[id], o.live[id];
            (o.thrown <==> stride == 0) &&
            (o.thrown ==> o.live == live) &&
            (!o.thrown ==> item1.data == (if item.dataSize % stride == 0 then item.data + [v] else item.data)) &&
            (forall k :: k in live && k != id ==> o.live[k] == live[k]) &&
            o.axis == z
  {
    var item := live[id];
    AppendedFits(item.data, [v], MaxCurvePoint);
  }

  /**
   * At capacity the sample itself is not stored: the window top becomes
   * trunc(2·maxZoom) with an update pending, and every live buffer keeps
   * its even-indexed samples.
   */
  lemma CapacityRule(live: map<int, DataItem>, z: ZoomState, id: int, v: real)
    requires id in live && |live[id].data| >= MaxCurvePoint
    ensures var o := LiveStep(live, z, id, v);
            !o.thrown &&
            o.axis == z.(maxZoom := Trunc(z.maxZoom * 2.0) as real, update := true) &&
            forall k :: k in live ==> o.live[k].data == Evens(live[k].data) &&
                                      |o.live[k].data| == (|live[k].data| + 1) / 2
  {
    HalvedBuffers(live);
  }

  /**
   * A channel with a cache buffer skips the axis update; its cache count
   * grows by one, and a sample joins the cache buffer only when the view
   * starts no later than the samples received and the buffer is below the
   * view's point budget. An empty view throws (integer division by zero).
   */
  lemma CacheRule(c: DataItem, received: nat, minIndex: int, span: nat, v: real)
    ensures var r := CacheFeed(c, received, minIndex, span, v);
            (span == 0 ==> r.None?) &&
            (span < ULongModulus ==> (r.None? <==> span == 0)) &&
            (r.Some? ==> r.value == c.(data := r.value.data, dataSize := c.dataSize + 1) &&
                         (r.value.data == c.data || r.value.data == c.data + [v]) &&
                         (r.value.data != c.data ==>
                            ULong(minIndex) <= received &&
                            |c.data| < span / CeilDiv(span, MaxCurvePoint)))
  {
    CeilDivZero(span, MaxCurvePoint);
    var interval := CeilDiv(span, MaxCurvePoint);
    if span > 0 {
      StrideIsSmallest(span);
      if span < ULongModulus {
        ULongZero(interval);
      }
      if ULong(minIndex) <= received && |c.data| < span / interval {
        AppendedFits(c.data, [v], span / interval);
      }
    }
  }

  /** Channels without a cache buffer end their step with the axis update and leave the cache alone. */
  lemma NoCacheRule(live: map<int, DataItem>, cache: map<int, DataItem>, z: ZoomState, id: int, v: real)
    requires id in live && id !in cache
    ensures CacheStep(live, cache, z, id, v) == CacheOutcome(cache, Updated(z), false)
  {
  }

  // ---------------------------------------------------------------------
  // ReloadCurveData

  /** The live ids are exactly 0 .. |live| - 1, as CreateAxisY numbers them. */
  ghost predicate LiveDense(live: map<int, DataItem>)
  {
    forall i :: i in live <==> 0 <= i < |live|
  }

  /** The two tables ReloadCurveData reads and writes. */
  datatype Tables = Tables(live: map<int, DataItem>, cache: map<int, DataItem>)

  /** A cache buffer built from a live channel's settings and the fetched samples. */
  function CacheItemFrom(item: DataItem, fetched: seq<real>): (c: DataItem)
    ensures c.lineThickness == item.lineThickness && c.isVisible == item.isVisible
    ensures c.axisName == item.axisName && !c.isFilter
    ensures c.data == fetched && c.dataSize == |fetched|
  {
    DataItem(item.lineThickness, item.isVisible, item.axisName, fetched, |fetched|, false)
  }

  /**
   * One iteration of ReloadCurveData's loop for live channel `id`: a
   * missing fetched list throws (KeyNotFoundException); a channel without a
   * cache buffer gets one, and a channel that has one has its live buffer
   * replaced instead.
   */
  function ReloadOne(t: Tables, fetched: map<int, seq<real>>, id: int): (r: (Tables, bool))
    requires id in t.live
    ensures r.0.live.Keys == t.live.Keys
  {
    if id !in fetched then (t, true)
    else if id !in t.cache then (t.(cache := t.cache[id := CacheItemFrom(t.live[id], fetched[id])]), false)
    else (t.(live := t.live[id := t.live[id].(data := fetched[id], dataSize := |fetched[id]|)]), false)
  }

  /** The loop over the live channels i .. n - 1, in order, stopping at the first exception. */
  function ReloadItems(t: Tables, fetched: map<int, seq<real>>, i: nat, n: nat): (r: (Tables, bool))
    requires forall k :: i <= k < n ==> k in t.live
    ensures r.0.live.Keys == t.live.Keys
    decreases n - i
  {
    if n <= i then (t, false)
    else
      var r := ReloadOne(t, fetched, i);
      if r.1 then r else ReloadItems(r.0, fetched, i + 1, n)
  }

  /**
   * ReloadCurveData: no window (no current time axis), no fetch result or
   * an empty one leave everything alone; otherwise every live channel is
   * reloaded from the fetched lists.
   */
  function Reloaded(t: Tables, pos: Option<ZoomPos>, fetch: (int, int, int) -> Option<map<int, seq<real>>>): (r: (Tables, bool))
    requires LiveDense(t.live)
    ensures r.0.live.Keys == t.live.Keys
  {
    if pos.None? then (t, false)
    else
      var result := fetch(pos.value.minIndex, pos.value.maxIndex, pos.value.interval);
      if result.None? || |result.value| == 0 then (t, false)
      else ReloadItems(t, result.value, 0, |t.live|)
  }

  /**
   * Reloading replaces at most live buffers and adds cache buffers only for
   * live channels: every channel keeps its axis, and a cache within the
   * live channels stays within them.
   */
  lemma {:induction false} ReloadKeepsAxes(t: Tables, fetched: map<int, seq<real>>, i: nat, n: nat)
    requires forall k :: i <= k < n ==> k in t.live
    ensures var r := ReloadItems(t, fetched, i, n);
            forall k :: k in t.live ==> r.0.live[k].axisName == t.live[k].axisName
    ensures t.cache.Keys <= t.live.Keys ==> ReloadItems(t, fetched, i, n).0.cache.Keys <= t.live.Keys
    decreases n - i
  {
    if i < n {
      var r := ReloadOne(t, fetched, i);
      if !r.1 {
        ReloadKeepsAxes(r.0, fetched, i + 1, n);
      }
    }
  }

  lemma ReloadedKeepsAxes(t: Tables, pos: Option<ZoomPos>, fetch: (int, int, int) -> Option<map<int, seq<real>>>)
    requires LiveDense(t.live)
    ensures var r := Reloaded(t, pos, fetch);
            forall k :: k in t.live ==> r.0.live[k].axisName == t.live[k].axisName
    ensures t.cache.Keys <= t.live.Keys ==> Reloaded(t, pos, fetch).0.cache.Keys <= t.live.Keys
  {
    if pos.Some? {
      var result := fetch(pos.value.minIndex, pos.value.maxIndex, pos.value.interval);
      if result.Some? && |result.value| > 0 {
        ReloadKeepsAxes(t, result.value, 0, |t.live|);
      }
    }
  }

  /**
   * Reloading, with a fetched list for each of channels 0 .. n - 1, into a
   * cache that holds buffers for exactly the channels before i throws
   * nothing, keeps the live table and gives each channel up to n a cache
   * buffer holding its fetched list.
   */
  lemma {:induction false} ReloadFillsCache(live: map<int, DataItem>, fetched: map<int, seq<real>>, i: nat, n: nat)
    requires i <= n && forall k :: 0 <= k < n ==> k in live && k in fetched
    ensures ReloadItems(Tables(live, FilledCache(live, fetched, i)), fetched, i, n) ==
            (Tables(live, FilledCache(live, fetched, n)), false)
    decreases n - i
  {
    if i < n {
      FillStep(live, fetched, i, n);
      ReloadFillsCache(live, fetched, i + 1, n);
    }
  }

  /** Reloading channel i into the cache filled up to i fills it up to i + 1. */
  lemma FillStep(live: map<int, DataItem>, fetched: map<int, seq<real>>, i: nat, n: nat)
    requires i < n && forall k :: 0 <= k < n ==> k in live && k in fetched
    ensures ReloadOne(Tables(live, FilledCache(live, fetched, i)), fetched, i) ==
            (Tables(live, FilledCache(live, fetched, i + 1)), false)
  {
    var m := FilledCache(live, fetched, i);
    assert i !in m;
    assert m[i := CacheItemFrom(live[i], fetched[i])] == FilledCache(live, fetched, i + 1);
  }

  /** The cache after channels 0 .. n - 1 have been reloaded into an empty one. */
  function FilledCache(live: map<int, DataItem>, fetched: map<int, seq<real>>, n: nat): (m: map<int, DataItem>)
    requires forall i :: 0 <= i < n ==> i in live && i in fetched
    ensures forall i :: i in m <==> 0 <= i < n
  {
    map i | 0 <= i < n :: CacheItemFrom(live[i], fetched[i])
  }

  /** Reloading channels i .. n - 1 succeeds exactly when each of them has a fetched list. */
  lemma {:induction false} ReloadThrows(t: Tables, fetched: map<int, seq<real>>, i: nat, n: nat)
    requires forall k :: i <= k < n ==> k in t.live
    ensures !ReloadItems(t, fetched, i, n).1 <==> forall k :: i <= k < n ==> k in fetched
    decreases n - i
  {
    if i < n {
      var r := ReloadOne(t, fetched, i);
      if !r.1 {
        ReloadThrows(r.0, fetched, i + 1, n);
      }
    }
  }

  /**
   * The zoom handler's reload: with a current time axis and a fetch result
   * that, like the host's, has a list for every live channel whenever it is
   * non-empty, the cache holds one buffer per live channel with exactly the
   * fetched samples, and nothing throws.
   */
  lemma ZoomReload(live: map<int, DataItem>, p: ZoomPos, fetch: (int, int, int) -> Option<map<int, seq<real>>>)
    requires LiveDense(live)
    requires var res := fetch(p.minIndex, p.maxIndex, p.interval);
             res.Some? && |res.value| > 0 ==> forall i :: i in live ==> i in res.value
    ensures var res := fetch(p.minIndex, p.maxIndex, p.interval);
            var r := Reloaded(Tables(live, map[]), Some(p), fetch);
            !r.1 && r.0.live == live &&
            (res.None? || |res.value| == 0 ==> r.0.cache == map[]) &&
            (res.Some? && |res.value| > 0 ==>
               r.0.cache == FilledCache(live, res.value, |live|))
  {
    var res := fetch(p.minIndex, p.maxIndex, p.interval);
    if res.Some? && |res.value| > 0 {
      assert FilledCache(live, res.value, 0) == map[];
      ReloadFillsCache(live, res.value, 0, |live|);
    }
  }

  // ---------------------------------------------------------------------
  // ResetCurve

  /** ResetCurve's effect on a table: every buffer and count emptied, settings kept. */
  function Cleared(items: map<int, DataItem>): (r: map<int, DataItem>)
    ensures r.Keys == items.Keys
    ensures forall k :: k in items ==> r[k] == items[k].(data := [], dataSize := 0)
  {
    map k | k in items :: items[k].(data := [], dataSize := 0)
  }

  /** Clearing is idempotent and leaves every buffer empty. */
  lemma ClearedIsEmpty(items: map<int, DataItem>)
    ensures Cleared(Cleared(items)) == Cleared(items)
    ensures forall k :: k in Cleared(items) ==> |Cleared(items)[k].data| == 0 && Cleared(items)[k].dataSize == 0
  {
  }

  // ---------------------------------------------------------------------
  // Visible-count cap

  /** The channels whose curves are shown. */
  function Shown(live: map<int, DataItem>): (s: set<int>)
    ensures s <= live.Keys
    ensures forall k :: k in s <==> k in live && live[k].isVisible
  {
    set k | k in live && live[k].isVisible
  }

  /** GetVisibleCount: how many live channels are shown. */
  function VisibleCount(live: map<int, DataItem>): (n: nat)
    ensures n <= |live|
  {
    SubsetCard(Shown(live), live.Keys);
    |Shown(live)|
  }

  lemma SubsetCard<T>(a: set<T>, b: set<T>)
    requires a <= b
    ensures |a| <= |b|
  {
    if a != {} {
      var x :| x in a;
      SubsetCard(a - {x}, b - {x});
    }
  }

  /** The cap test of CreateAxisLabel and LinkLabelCtrl_Click: one more shown channel is allowed. */
  predicate RoomForVisible(live: map<int, DataItem>, cap: int)
  {
    !(cap - 1 < VisibleCount(live))
  }

  /** Updating one channel's record changes the visible count by the change in its flag. */
  lemma VisibleCountUpdate(live: map<int, DataItem>, id: int, item: DataItem)
    ensures var before := if id in live && live[id].isVisible then 1 else 0;
            var after := if item.isVisible then 1 else 0;
            VisibleCount(live[id := item]) + before == VisibleCount(live) + after
  {
    var s0 := Shown(live);
    var s1 := Shown(live[id := item]);
    assert s1 - {id} == s0 - {id} by {
      forall k ensures k in s1 - {id} <==> k in s0 - {id} {
        if k != id { assert (k in live[id := item]) == (k in live); }
      }
    }
    CardWithout(s0, id);
    CardWithout(s1, id);
  }

  /** Removing one element lowers the size of a set by one exactly when it was there. */
  lemma CardWithout(s: set<int>, x: int)
    ensures |s| == |s - {x}| + (if x in s then 1 else 0)
  {
    if x in s { assert s == (s - {x}) + {x}; } else { assert s == s - {x}; }
  }

  /**
   * A channel is added or switched on only when the visible count is below
   * the cap, so a count within the cap stays within it and a count above
   * it never grows.
   */
  lemma CapRespected(live: map<int, DataItem>, id: int, item: DataItem, cap: int)
    requires item.isVisible && !(id in live && live[id].isVisible) ==> RoomForVisible(live, cap)
    ensures VisibleCount(live[id := item]) <= Max(VisibleCount(live), cap)
  {
    VisibleCountUpdate(live, id, item);
  }

  // ---------------------------------------------------------------------
  // AddDataLabel

  /** AddDataLabel moves a label at exactly zero to 0.05. */
  function LabelPosition(pos: real): (p: real)
    ensures p != 0.0
    ensures pos != 0.0 ==> p == pos
  {
    if pos == 0.0 then pos + 0.05 else pos
  }
}
