# DataCurve engine model

This project models the streaming data engine of the DataCurve curve widget (a WinForms C# control). The engine has three parts:

- **Bounded buffers and pixel mapping** (`BasicFramework`). `AddArrayData` appends a batch to an array that never grows beyond a maximum. `ComputePaintLocationY` maps a value of a range to a pixel offset, and `ComputeRealValueFromLoaction` maps a pixel back to a value.
- **Smoothing filters** (`Filter.cs`). There is a spike limiter, a first-order low-pass filter and a one-dimensional Kalman filter. Each is a small object whose `Filter` calls update its state. Factories create them.
- **The control's engine state** (`DataCurveEx.cs`). It has:
  - the time axis (`AxisX`) and value axes (`AxisY`), each with a configured range, a zoom window and a current view;
  - the axis registries;
  - a live table and a cache table of per-channel sample buffers;
  - data labels and the zoom rectangle.

  The operations are `AddData` (decimated ingestion), `HandleZoomData` (zoom into a dragged rectangle and reload the cache from the data source), `ReloadCurveData`, `RestoreAxis`, `ResetAxis`, `ResetCurve`, `CreateAxisX`/`CreateAxisY` and `AddDataLabel`.

## Modules

| file | module | contents |
|---|---|---|
| `numeric.dfy` | `Numeric` | the .NET numeric operations: `Math.Floor`, `Math.Ceiling`, `(int)` as truncation toward zero, `(ulong)` as reduction modulo 2^64 |
| `wrappers.dfy` | `Wrappers` | `Option` |
| `basic_framework.dfy` | `BasicFramework` | `AddArrayData` as an array method proved against the `Appended` function; the two pixel mappings and their round trips |
| `filter.dfy` | `Filters` | the classes `FilterLimit`, `FilterFirstOrder` and `FilterKalman`, each proved against a step function (`LimitStep`, `FirstOrderStep`, `KalmanStep`); the factories |
| `axis.dfy` | `Axes` | `AxisItem`, the `AxisZoom` helpers, the zoom functions `ZoomX`/`ZoomY`, the selection geometry, and the classes `AxisX` and `AxisY` |
| `ingest.dfy` | `Ingest` | `DataItem` and the functions the engine is specified by: `IngestSample`/`IngestAll` (AddData), `Halved` (ResetCurveData), `ZoomPosition` (CalcZoomPos), `Reloaded` (ReloadCurveData) and `Cleared` (ResetCurve), with their lemmas |
| `data_curve.dfy` | `DataCurve` | the class `DataCurveEx`: registries, tables, labels and zoom rectangle, with every operation proved against the `Ingest` and `Axes` functions under the registry invariant `Valid()` |

Floating-point numbers are modelled as `real`. Axis names, which the control generates as GUID strings, are modelled as integer tokens, with `NoName` (0) standing for the empty string. The control only compares names and keys dictionaries by them, and tokens support both. Dictionaries of the control become maps. The order in which the axis dictionaries enumerate is kept as an insertion-order sequence (`orderX`, `orderY`), and the per-axis loops run over that sequence. Channel ids are 0 .. n-1, because `CreateAxisY` numbers each channel by the registry size, so loops over channels run over the ids in order. An exception propagating from an operation is modelled as a `thrown` result: a `DivideByZeroException` in `AddData`, or a `KeyNotFoundException` in `ReloadCurveData`. The state is left as it was when the exception was raised. The `DataCurveZoomData` delegate becomes a function parameter `fetch`. It returns `None` for a null result.

### Behaviour of the code that the model follows

- The Kalman filter's `Filter(measurement)` adds the process noise `R` to the predicted covariance. `Filter(measurement, u)` adds `Q` instead. Both then use `Q` in the gain. The model keeps this asymmetry.
- `AddData` stores raw samples. The channel filters are not applied when data arrive.
- When a live buffer is at capacity, `AddData` does not slide the buffer. It doubles the top of the time axis's zoom window and keeps the even-indexed samples of every live buffer. The arriving sample is only counted. The sliding behaviour of `AddArrayData` on a full array is proved separately (`BasicFramework.AppendedSlides`).
- A live channel with no fetched list throws `KeyNotFoundException` in `ReloadCurveData`. Channels before it have already been reloaded.
- `ReloadCurveData`'s branch for a channel that already has a cache buffer overwrites the **live** buffer. The zoom handler empties the cache first, so it never takes that branch.
- `AxisY.Reset` restores only the view. `AxisX.Reset` also restores the zoom window.

## Model

| member | source | states |
|---|---|---|
| Numeric.Floor | DataCurveDll/DataCurveEx.cs:448 | `Math.Floor`: the largest integer not above the value |
| Numeric.Ceil | DataCurveDll/DataCurveEx.cs:447 | `Math.Ceiling`: the smallest integer not below the value |
| Numeric.Trunc | DataCurveDll/DataCurveEx.cs:962-963 | the `(int)` cast truncates toward zero: for a non-negative value it is the floor, for a negative one the ceiling |
| Numeric.ULong | DataCurveDll/DataCurveEx.cs:966 | the `(ulong)` cast is below 2^64, is the identity on non-negative ints, and adds 2^64 to negative ones |
| Numeric.ULongZero | DataCurveDll/DataCurveEx.cs:966 | within the 64-bit range, only a zero stride converts to a zero divisor |
| Numeric.CeilDivZero | DataCurveDll/DataCurveEx.cs:964 | the stride `ceil(n/3600)` is zero exactly when -3600 < n <= 0 |
| BasicFramework.Appended | DataCurveDll/BasicFramework.cs:118-159 | the contents after AddArrayData's three branches; an empty batch leaves the contents unchanged |
| BasicFramework.AppendedIsNewest | DataCurveDll/BasicFramework.cs:118-159 | the result is the newest `max` elements of old contents followed by the batch; its length is min(old + batch, max); the batch ends the result |
| BasicFramework.AppendedFits | DataCurveDll/BasicFramework.cs:146-156 | with room for the whole batch, the result is the old contents followed by the batch |
| BasicFramework.AppendedFull | DataCurveDll/BasicFramework.cs:123-127 | a full array keeps length max: its first `data.Length` elements are dropped and the batch is appended |
| BasicFramework.AppendedSlides | DataCurveDll/BasicFramework.cs:123-127 | on a capacity-4 array, [1,2,3,4] then 5 then 6 gives [3,4,5,6] |
| BasicFramework.AddArrayData | DataCurveDll/BasicFramework.cs:118-159 | a null batch changes nothing; otherwise the array the reference parameter names afterwards holds `Appended(old, data, max)`; it is the same array, shifted in place, when the batch is empty or the array full, and a fresh array otherwise, with the old one untouched |
| BasicFramework.ShiftIn | DataCurveDll/BasicFramework.cs:123-127 | the two `Array.Copy` calls leave the old tail followed by the batch |
| BasicFramework.CopyNewest | DataCurveDll/BasicFramework.cs:130-156 | the two `tmp` loops fill a fresh array with the last `len - data.Length` old elements followed by the batch |
| BasicFramework.ComputePaintLocationY | DataCurveDll/BasicFramework.cs:93-96 | the offset is `height` at `min` and 0 at `max` |
| BasicFramework.ComputePaintLocationYInt | DataCurveDll/BasicFramework.cs:80-83 | the int overload equals the float overload on the converted arguments |
| BasicFramework.ComputeRealValueFromLocation | DataCurveDll/BasicFramework.cs:106-109 | pixel 0 reads `min` and pixel `height` reads `max` |
| BasicFramework.PaintLocationRoundTrip | DataCurveDll/BasicFramework.cs:93-109 | reading a value back at the mirrored paint offset `height - y` gives the painted value |
| BasicFramework.PaintLocationReflection | DataCurveDll/BasicFramework.cs:93-109 | reading back at the unmirrored offset gives `max + min - value` |
| BasicFramework.LocationPaintRoundTrip | DataCurveDll/BasicFramework.cs:93-109 | painting the value read at pixel `pos` lands on `height - pos` |
| Filters.LimitStep | DataCurveDll/Filter.cs:32-39 | a jump larger than 10 gives the midpoint of measurement and last output; otherwise the measurement |
| Filters.LimitStepBetween | DataCurveDll/Filter.cs:32-39 | the output lies between the last output and the measurement, and at least halves the distance to the measurement |
| Filters.LimitSettles | DataCurveDll/Filter.cs:32-39 | a sustained level shift of at most 10·2^n is adopted after at most n + 1 measurements |
| Filters.LimitStaysAt | DataCurveDll/Filter.cs:32-39 | once the output equals a repeated measurement, it stays there |
| Filters.FilterLimit.constructor | DataCurveDll/Filter.cs:47 | a new limiter's last output is 0 |
| Filters.FilterLimit.Initialize | DataCurveDll/Filter.cs:27-30 | the last output is reset to 0 |
| Filters.FilterLimit.Filter | DataCurveDll/Filter.cs:32-39 | the new state is `LimitStep(old state, measurement)`, and the method returns it |
| Filters.FilterLimit.FilterWithControl | DataCurveDll/Filter.cs:41-45 | the control input is ignored: the result is the one `Filter(measurement)` gives |
| Filters.FirstOrderStep | DataCurveDll/Filter.cs:58-68 | weight 1 gives the measurement, weight 0 the last output; the distance to the measurement scales by 1 - a |
| Filters.FirstOrderBetween | DataCurveDll/Filter.cs:58-62 | with a weight in [0, 1] the output lies between the last output and the measurement |
| Filters.FirstOrderRunDistance | DataCurveDll/Filter.cs:58-62 | after n equal measurements, the distance to the measurement is (1 - a)^n times the initial distance |
| Filters.FilterFirstOrder.constructor | DataCurveDll/Filter.cs:70-71 | a new filter's last output is 0 and its weight is 0.6 |
| Filters.FilterFirstOrder.Initialize | DataCurveDll/Filter.cs:53-56 | no state changes |
| Filters.FilterFirstOrder.Filter | DataCurveDll/Filter.cs:58-62 | the new state is `a*m + (1-a)*final` with the fixed weight, and the method returns it |
| Filters.FilterFirstOrder.FilterWithControl | DataCurveDll/Filter.cs:64-68 | `u` replaces the weight: `u = 1` returns the measurement, `u = 0` returns the previous output |
| Filters.KalmanFirst | DataCurveDll/Filter.cs:103-107 | the first measurement sets `x = m/H` and `cov = Q/H²` |
| Filters.KalmanStep | DataCurveDll/Filter.cs:103-118 | one Kalman update (the first measurement initialises, a later one predicts with the given noise and corrects); the covariance stays non-negative and never exceeds the predicted covariance A²·cov + noise |
| Filters.KalmanCovariance | DataCurveDll/Filter.cs:108-119 | the corrected covariance lies in [0, P] for the predicted covariance P = A²·cov + noise |
| Filters.CorrectedCovariance | DataCurveDll/Filter.cs:113-118 | the correction `P - K·H·P` with `K = P·H/(H²P + Q)` lies in [0, P] |
| Filters.KalmanCorrect | DataCurveDll/Filter.cs:113-118 | the correction by a measurement: the corrected covariance lies between 0 and the predicted covariance |
| Filters.GainShrinks | DataCurveDll/Filter.cs:113-118 | the covariance reduction `K·H·P` for gain `K = P·H/(H²P + Q)` removes at most all of P and never adds to it |
| Filters.KalmanBetween | DataCurveDll/Filter.cs:108-119 | with H = 1 the estimate lies between the prediction `A·x + B·u` and the measurement |
| Filters.FilterKalman.Full | DataCurveDll/Filter.cs:81-92 | the five-argument constructor stores R, Q, A, B and H; the estimate is unset (the NaN sentinel) |
| Filters.FilterKalman.constructor | DataCurveDll/Filter.cs:94-98 | the two-argument constructor stores R and Q, leaves A = 1, B = 0, H = 1 from the field initialisers (lines 160-168), and leaves the estimate unset |
| Filters.FilterKalman.Initialize | DataCurveDll/Filter.cs:76-79 | no state changes |
| Filters.FilterKalman.Filter | DataCurveDll/Filter.cs:100-121 | x and cov become `KalmanStep` of the old estimate with prediction noise R and no control input; the method returns the new x; the invariant (cov >= 0, both sentinels together) is kept |
| Filters.FilterKalman.FilterWithControl | DataCurveDll/Filter.cs:123-143 | the same with control input u and prediction noise Q |
| Filters.FilterKalman.Update | DataCurveDll/Filter.cs:100-143 | the body shared by both overloads computes exactly `KalmanStep` |
| Filters.CreateFilter | DataCurveDll/Filter.cs:171-198 | LimitFactory builds a fresh FilterLimit, FirstOrderFactory a fresh FilterFirstOrder, and KalmanFactory a fresh FilterKalman(0.008, 0.1) with A = 1, B = 0, H = 1, unset |
| Filters.KalmanFactoryFirstOutput | DataCurveDll/Filter.cs:187-198 | the factory's Kalman filter returns its first measurement unchanged, through either overload |
| Axes.AxisItemValidity | DataCurveDll/DataCurveEx.cs:70-76 | a handle is invalid exactly when its id is -1 or its name is empty; the default handle (lines 33-39) is invalid |
| Axes.SubtractOrZero | DataCurveDll/DataCurveEx.cs:408-412 | never negative; a - b when that is non-negative, else 0 |
| Axes.CheckValue | DataCurveDll/DataCurveEx.cs:395-401 | a range of width at most 0.00001 gets its top raised by 1; any other range is unchanged; the result is never within 0.00001 of min |
| Axes.Restored | DataCurveDll/DataCurveEx.cs:452-456 | Restore sets the view to the zoom window and changes nothing else |
| Axes.WithZoomValue | DataCurveDll/DataCurveEx.cs:389-393 | SetZoomValue sets the window top and raises the update flag; the view and window bottom stay |
| Axes.Updated | DataCurveDll/DataCurveEx.cs:467-474 | with an update pending, the view top becomes the window top and the flag clears; otherwise nothing changes |
| Axes.RestoreIdempotent | DataCurveDll/DataCurveEx.cs:452-456 | restoring twice is the same as restoring once |
| Axes.ZoomValueThenUpdate | DataCurveDll/DataCurveEx.cs:389-393 | SetZoomValue followed by Update shows the new window top, and no update is left pending |
| Axes.Span | DataCurveDll/DataCurveEx.cs:441-442 | the begin/end pixels of a signed extent are ordered and as far apart as the extent's magnitude |
| Axes.ZoomX | DataCurveDll/DataCurveEx.cs:439-450 | the time axis's new view: begin and end pixels scaled into the old view, the begin (left) edge clipped at the margin while the end edge is not, bounds rounded outwards to whole units |
| Axes.ZoomY | DataCurveDll/DataCurveEx.cs:499-512 | the value axis's new view, rows counted from the bottom margin; after CheckValue the bounds are whole and more than 0.00001 apart |
| Axes.ValueFromLocationLinear | DataCurveDll/BasicFramework.cs:106-109 | ComputeRealValueFromLoaction is the linear scaling the axes zoom with |
| Axes.ZoomXUsesValueMapping | DataCurveDll/DataCurveEx.cs:439-450 | the time axis zoom takes the ceiling and the floor of the framework's pixel-to-value mapping at the selection's edges |
| Axes.ZoomYUsesValueMapping | DataCurveDll/DataCurveEx.cs:499-512 | the same for a value axis, followed by CheckValue |
| Axes.ZoomXNarrows | DataCurveDll/DataCurveEx.cs:439-450 | a selection inside the plot area zooms a whole-unit view into a sub-range of itself |
| Axes.ZoomYNarrows | DataCurveDll/DataCurveEx.cs:499-512 | a value axis keeps its bottom within the old view and its top at most one unit above the old top |
| Axes.ZoomXCanCollapse | DataCurveDll/DataCurveEx.cs:439-450 | without CheckValue, a zero-width selection on a whole unit collapses the time axis view to a point |
| Axes.CalcZoomRect | DataCurveDll/DataCurveEx.cs:1924-1930 | the rectangle starts at point1 and extends to point2 |
| Axes.SelectionRect | DataCurveDll/DataCurveEx.cs:1250-1254 | the zoom rectangle of a drag has the top-left corner and a non-negative size |
| Axes.CalcZoomRectNormalizes | DataCurveDll/DataCurveEx.cs:1924-1930 | normalising CalcZoomRect of a drag gives the rectangle HandleZoomData zooms into |
| Axes.Clamp | DataCurveDll/DataCurveEx.cs:1936-1939 | one clamped coordinate; the upper test wins when the interval is inverted |
| Axes.BoundPointToRect | DataCurveDll/DataCurveEx.cs:1932-1942 | the mouse point clamped into the rectangle; coordinates already inside are kept |
| Axes.BoundPointIsNearest | DataCurveDll/DataCurveEx.cs:1932-1942 | no point of the rectangle is closer to the mouse, coordinate by coordinate |
| Axes.AxisX.constructor | DataCurveDll/DataCurveEx.cs:432-437 | the zoom window and the view both start at the configured range, with no update pending |
| Axes.AxisX.ChangeValue | DataCurveDll/DataCurveEx.cs:439-450 | the view becomes `ZoomX` of the old view; the window and the flag stay |
| Axes.AxisX.Restore | DataCurveDll/DataCurveEx.cs:452-456 | the state becomes `Restored(old state)` |
| Axes.AxisX.Reset | DataCurveDll/DataCurveEx.cs:458-465 | the view and the zoom window both return to the configured range |
| Axes.AxisX.SetZoomValue | DataCurveDll/DataCurveEx.cs:389-393 | the state becomes `WithZoomValue(old state, value)` |
| Axes.AxisX.Update | DataCurveDll/DataCurveEx.cs:467-474 | the state becomes `Updated(old state)` |
| Axes.AxisY.constructor | DataCurveDll/DataCurveEx.cs:492-497 | the zoom window and the view both start at the configured range |
| Axes.AxisY.ChangeValue | DataCurveDll/DataCurveEx.cs:499-512 | the view becomes `ZoomY` of the old view; the window stays |
| Axes.AxisY.Restore | DataCurveDll/DataCurveEx.cs:514-518 | the view becomes the zoom window |
| Axes.AxisY.Reset | DataCurveDll/DataCurveEx.cs:520-524 | only the view returns to the configured range; the zoom window stays |
| Ingest.Evens | DataCurveDll/DataCurveEx.cs:1473 | the elements at even indices, in order, and (n+1)/2 of them |
| Ingest.Halved | DataCurveDll/DataCurveEx.cs:1468-1476 | every channel is kept; non-empty buffers are decimated |
| Ingest.HalvedBuffers | DataCurveDll/DataCurveEx.cs:1468-1476 | every buffer keeps its even-indexed samples and its settings, and ends with ceil(n/2) samples |
| Ingest.ZoomPosition | DataCurveDll/DataCurveEx.cs:1489-1491 | the window of the zoom window (auto zoom) or of the view, in samples, with stride ceil(span/3600); the stride is zero exactly for spans in (-3600, 0] |
| Ingest.StrideIsSmallest | DataCurveDll/DataCurveEx.cs:964 | for a positive span the stride is the smallest that fits it into 3600 points |
| Ingest.ZoomPositionStride | DataCurveDll/DataCurveEx.cs:1479-1493 | the same for CalcZoomPos's output |
| Ingest.LiveStep | DataCurveDll/DataCurveEx.cs:960-981 | one sample's live step keeps every channel and its axis name |
| Ingest.LiveAppend | DataCurveDll/DataCurveEx.cs:960-968 | below capacity the time axis is untouched |
| Ingest.LiveAtCapacity | DataCurveDll/DataCurveEx.cs:969-981 | at capacity nothing throws and every channel is kept |
| Ingest.CacheStep | DataCurveDll/DataCurveEx.cs:984-1003 | the cache step never adds or removes a cache buffer |
| Ingest.SampleWindow | DataCurveDll/DataCurveEx.cs:988-989 | the view's bounds times 60, truncated |
| Ingest.IngestSample | DataCurveDll/DataCurveEx.cs:941-1004 | one entry keeps the channels, the cache buffers and their axis names; an unknown channel or no current time axis changes nothing |
| Ingest.IngestAll | DataCurveDll/DataCurveEx.cs:939-1005 | a batch keeps the channels, the cache buffers and their axis names |
| Ingest.IngestStopsAtThrow | DataCurveDll/DataCurveEx.cs:939-1005 | entries after the first exception are never processed |
| Ingest.IngestSampleBounded | DataCurveDll/DataCurveEx.cs:960-980 | one sample never pushes a live buffer past 3600 |
| Ingest.IngestAllBounded | DataCurveDll/DataCurveEx.cs:939-1005 | every live buffer stays at most 3600 long after any batch |
| Ingest.LiveStepCounts | DataCurveDll/DataCurveEx.cs:960-981 | a sample counts once on its own channel and on no other, stored or not; a zero stride throws before anything changes |
| Ingest.IngestSampleCounts | DataCurveDll/DataCurveEx.cs:946-981 | an entry that does not throw counts once on its known channel, when there is a current time axis |
| Ingest.IngestAllCounts | DataCurveDll/DataCurveEx.cs:939-1005 | after a batch that does not throw, each known channel's count has grown by its number of entries |
| Ingest.IngestUnknownChannels | DataCurveDll/DataCurveEx.cs:946-947 | entries for ids without a live buffer change nothing |
| Ingest.LiveAppendRule | DataCurveDll/DataCurveEx.cs:960-968 | below capacity the sample is appended exactly when the count is a multiple of the stride; a zero stride throws with nothing changed; other channels and the axis stay |
| Ingest.CapacityRule | DataCurveDll/DataCurveEx.cs:969-980 | at capacity the sample is not stored; the window top becomes trunc(2·maxZoom) with an update pending; every live buffer keeps its even-indexed samples |
| Ingest.CacheRule | DataCurveDll/DataCurveEx.cs:988-999 | an empty view throws; the cache count always grows by one; a sample joins the cache only when the view starts at or before the received count and the buffer is below its point budget |
| Ingest.CacheFeed | DataCurveDll/DataCurveEx.cs:988-999 | an empty view throws; otherwise the cache count grows by one, the other fields are kept and the buffer either stays or gains the sample at its end |
| Ingest.CacheItemFrom | DataCurveDll/DataCurveEx.cs:1446-1453 | a new cache buffer copies the live channel's thickness, visibility and axis name, holds the fetched list and counts its length, and is unfiltered |
| Ingest.ReloadOne | DataCurveDll/DataCurveEx.cs:1442-1459 | reloading one channel never adds or removes a live channel |
| Ingest.ReloadItems | DataCurveDll/DataCurveEx.cs:1440-1460 | the reload loop never adds or removes a live channel |
| Ingest.Reloaded | DataCurveDll/DataCurveEx.cs:1431-1461 | ReloadCurveData never adds or removes a live channel |
| Ingest.ReloadKeepsAxes | DataCurveDll/DataCurveEx.cs:1440-1460 | reloading keeps every channel's axis and adds cache buffers only for live channels |
| Ingest.ReloadedKeepsAxes | DataCurveDll/DataCurveEx.cs:1431-1461 | the same for the whole of ReloadCurveData |
| Ingest.ReloadFillsCache | DataCurveDll/DataCurveEx.cs:1440-1460 | with a list for every channel, reloading into the partly filled cache throws nothing, keeps the live table, and gives every channel its fetched list |
| Ingest.FilledCache | DataCurveDll/DataCurveEx.cs:1444-1453 | the filled cache has exactly one buffer per reloaded channel |
| Ingest.ReloadThrows | DataCurveDll/DataCurveEx.cs:1440-1460 | the reload loop throws exactly when some channel has no fetched list |
| Ingest.ZoomReload | DataCurveDll/DataCurveEx.cs:1431-1461 | into an empty cache, a null or empty fetch result leaves the cache empty; a result covering every channel makes one cache buffer per channel with exactly its list; nothing throws and the live table stays |
| Ingest.Cleared | DataCurveDll/DataCurveEx.cs:886-896 | every buffer is emptied and its count zeroed, with the settings kept |
| Ingest.ClearedIsEmpty | DataCurveDll/DataCurveEx.cs:886-896 | clearing is idempotent and leaves every buffer empty |
| Ingest.VisibleCount | DataCurveDll/DataCurveEx.cs:903-906 | the number of shown channels is at most the number of channels |
| Ingest.VisibleCountUpdate | DataCurveDll/DataCurveEx.cs:903-906 | changing one channel's record changes the count by the change in its flag |
| Ingest.CapRespected | DataCurveDll/DataCurveEx.cs:1340-1341 | showing a channel only while the cap leaves room keeps a count within the cap within it |
| Ingest.LabelPosition | DataCurveDll/DataCurveEx.cs:919-920 | a label at 0 moves to 0.05; any other position is kept |
| DataCurve.CreateDataFilter | DataCurveDll/DataCurveEx.cs:1898-1922 | no factory unless the channel asks for filtering and a filter kind is configured; otherwise the factory of that kind, in both directions |
| DataCurve.HalveBuffers | DataCurveDll/DataCurveEx.cs:1468-1476 | ResetCurveData's loop computes `Halved` |
| DataCurve.ClearBuffers | DataCurveDll/DataCurveEx.cs:886-896 | ResetCurve's loops compute `Cleared` |
| DataCurve.ReloadChannels | DataCurveDll/DataCurveEx.cs:1440-1460 | ReloadCurveData's loop computes `ReloadItems` over all channels |
| DataCurve.ReloadWindow | DataCurveDll/DataCurveEx.cs:1431-1461 | ReloadCurveData on the tables computes `Reloaded` |
| DataCurve.IngestEntry | DataCurveDll/DataCurveEx.cs:958-1003 | one known-channel entry computes `IngestSample` and keeps the tables consistent |
| DataCurve.FeedLive | DataCurveDll/DataCurveEx.cs:960-981 | part 1 of an entry computes `LiveStep`, changing the time axis object as it says |
| DataCurve.FeedBelowCapacity | DataCurveDll/DataCurveEx.cs:960-968 | computes `LiveAppend` |
| DataCurve.FeedAtCapacity | DataCurveDll/DataCurveEx.cs:969-981 | computes `LiveAtCapacity` |
| DataCurve.FeedCache | DataCurveDll/DataCurveEx.cs:984-1003 | part 2 computes `CacheStep`, calling Update only for channels without a cache buffer |
| DataCurve.FeedCacheBuffer | DataCurveDll/DataCurveEx.cs:988-999 | computes `CacheFeed` |
| DataCurve.IngestedTables | DataCurveDll/DataCurveEx.cs:941-1004 | one entry keeps the channel tables consistent with the registries |
| DataCurve.RegistryExtend | DataCurveDll/DataCurveEx.cs:787-812 | adding an axis under a fresh name keeps the registry consistent |
| DataCurve.RegistryListed | DataCurveDll/DataCurveEx.cs:637-645 | every axis the loops visit is registered, and none is visited twice |
| DataCurve.DistinctAppend | DataCurveDll/DataCurveEx.cs:792-808 | appending a fresh name keeps the names distinct |
| DataCurve.DenseExtend | DataCurveDll/DataCurveEx.cs:809 | numbering a new channel by the table size keeps the ids dense |
| DataCurve.ChannelTablesExtend | DataCurveDll/DataCurveEx.cs:801-809 | a new Y axis with its channel and optional filter keeps the tables consistent |
| DataCurve.ClearedKeepsTables | DataCurveDll/DataCurveEx.cs:886-896 | emptying the buffers keeps the tables consistent |
| DataCurve.ReloadedTables | DataCurveDll/DataCurveEx.cs:1431-1461 | reloading keeps the tables consistent |
| DataCurve.ValidExtendY | DataCurveDll/DataCurveEx.cs:787-812 | CreateAxisY's bookkeeping preserves the registry invariant |
| DataCurve.DataCurveEx.constructor | DataCurveDll/DataCurveEx.cs:1017-1097 | empty registries and tables; invalid current handles; cap int.MaxValue (line 2125); filter kind first-order (line 2107) |
| DataCurve.DataCurveEx.CreateAxisX | DataCurveDll/DataCurveEx.cs:767-785 | the X registry is cleared and holds one fresh axis under the new name, with id 0 and the configured range; the current X handle is replaced only if it was invalid |
| DataCurve.DataCurveEx.CreateAxisY | DataCurveDll/DataCurveEx.cs:787-812 | a fresh Y axis under the new name, numbered by the registry size; a channel under that number with an empty buffer, shown only if the cap (lines 1340-1341) leaves room; a filter of the configured kind when asked for; the current Y handle replaced only if invalid; the invariant kept |
| DataCurve.DataCurveEx.RegisterAxisY | DataCurveDll/DataCurveEx.cs:798-809 | the axis, the current handle and the channel entry are added, keeping the invariant |
| DataCurve.DataCurveEx.AttachFilter | DataCurveDll/DataCurveEx.cs:801-803 | a fresh filter under the axis name exactly when CreateDataFilter gives a factory, built by that factory |
| DataCurve.DataCurveEx.ToggleCurveVisible | DataCurveDll/DataCurveEx.cs:1391-1428 | a channel of a registered axis is switched off always and switched on only while the cap leaves room; its cache buffer's flag flips with it; otherwise nothing changes |
| DataCurve.DataCurveEx.SetVisibleCount | DataCurveDll/DataCurveEx.cs:908-911 | the cap becomes the argument |
| DataCurve.DataCurveEx.SetStartTimestamp | DataCurveDll/DataCurveEx.cs:935-938 | the start time becomes the argument |
| DataCurve.DataCurveEx.AddDataLabel | DataCurveDll/DataCurveEx.cs:914-928 | an empty name adds nothing; otherwise one label is appended, at `LabelPosition(pos)` |
| DataCurve.DataCurveEx.ResetCurveData | DataCurveDll/DataCurveEx.cs:1463-1477 | with a current time axis every live buffer is halved; without one, nothing changes |
| DataCurve.DataCurveEx.CalcZoomPos | DataCurveDll/DataCurveEx.cs:1479-1493 | no window exactly when the current X handle is invalid or names no registered axis (lines 1486-1487); otherwise the stride is zero exactly for spans in (-3600, 0], and for a positive span it is the least k with span <= 3600·k |
| DataCurve.DataCurveEx.AddSample | DataCurveDll/DataCurveEx.cs:941-1004 | one loop iteration transforms the engine state as `IngestSample` says and keeps the invariant |
| DataCurve.DataCurveEx.AddData | DataCurveDll/DataCurveEx.cs:939-1005 | the engine state and the exception flag after the call are `IngestAll(old state, entries)`; the invariant is kept |
| DataCurve.DataCurveEx.ReloadCurveData | DataCurveDll/DataCurveEx.cs:1431-1461 | the tables and the exception flag are `Reloaded` of the old tables, CalcZoomPos and the fetch function |
| DataCurve.DataCurveEx.ChangeAxesX | DataCurveDll/DataCurveEx.cs:1256-1259 | every X axis's view is zoomed by `ZoomX`, the rest of its state kept |
| DataCurve.DataCurveEx.ChangeAxesY | DataCurveDll/DataCurveEx.cs:1260-1263 | every Y axis's view is zoomed by `ZoomY`, its zoom window kept |
| DataCurve.DataCurveEx.RestoreAxesX | DataCurveDll/DataCurveEx.cs:638-641 | every X axis is `Restored` |
| DataCurve.DataCurveEx.RestoreAxesY | DataCurveDll/DataCurveEx.cs:643-646 | every Y axis shows its zoom window |
| DataCurve.DataCurveEx.ResetAxesX | DataCurveDll/DataCurveEx.cs:658-661 | every X axis's view and window return to its configured range |
| DataCurve.DataCurveEx.ResetAxesY | DataCurveDll/DataCurveEx.cs:663-666 | every Y axis's view returns to its configured range, its window kept |
| DataCurve.DataCurveEx.RestoreAxis | DataCurveDll/DataCurveEx.cs:635-653 | every axis shows its zoom window; the cache and the zoom rectangle are emptied |
| DataCurve.DataCurveEx.ResetAxis | DataCurveDll/DataCurveEx.cs:655-671 | every axis returns to its configured range (Y axes keep their window); the cache and the zoom rectangle are emptied |
| DataCurve.DataCurveEx.ResetCurve | DataCurveDll/DataCurveEx.cs:884-901 | every live buffer is emptied and its count zeroed; the cache is empty; no labels; start time 0; then the ResetAxis effect |
| DataCurve.DataCurveEx.ClearCurveData | DataCurveDll/DataCurveEx.cs:886-899 | live and cache buffers are `Cleared`; no labels; start time 0 |
| DataCurve.DataCurveEx.HandleZoomData | DataCurveDll/DataCurveEx.cs:1243-1271 | a drag under 10 pixels both ways changes nothing; otherwise the zoom rectangle is the selection, every X axis zooms by `ZoomX` and every Y axis by `ZoomY`, and the tables are `Reloaded` from an empty cache for the new view |
| DataCurve.DataCurveEx.ZoomAxes | DataCurveDll/DataCurveEx.cs:1256-1263 | ChangeValue on every X axis, then on every Y axis |
| DataCurve.DataCurveEx.UpdateZoomAxisX | DataCurveDll/DataCurveEx.cs:814-828 | with a current time axis its view becomes [min, max] and the tables are `Reloaded` from an empty cache for that view; otherwise nothing changes |
| DataCurve.DataCurveEx.ReloadZoomed | DataCurveDll/DataCurveEx.cs:1267-1270 | the cache is emptied and rebuilt as `Reloaded` says |

## Left out

- Rendering and GUI: drawing, mouse and mark-line handlers, tooltip, clipboard, printing, the `LinkLabel`/`FlowLayoutPanel` controls of `CreateAxisLabel`, `UpdateAxisY`'s control colours, and `BasicFramework.PaintTriangle`. What is kept of these is the visible-count cap, as a guard in `CreateAxisY` and `ToggleCurveVisible`.
- `RefreshCurve` and the redraw at the end of `RestoreAxis` and `ToggleCurveVisible`: redrawing changes no engine state.
- The mutex and the buffered-graphics synchronisation: the engine is modelled as single-threaded.
- IEEE floating point: single- and double-precision rounding (`0.6f` is exact 0.6 here), NaN, and infinities.
- BasicFramework.ComputePaintLocationY: requires `max != min`, because the source then divides by zero in floating point (IEEE infinities and NaN are not modelled).
- BasicFramework.ComputePaintLocationYInt: requires `max != min`, for the same reason.
- BasicFramework.ComputeRealValueFromLocation: requires `height != 0`, for the same reason.
- Axes.AxisX.ChangeValue: requires the plot width without its margins to be non-zero, for the same reason.
- Axes.AxisY.ChangeValue: requires the plot height without its margins to be non-zero, for the same reason.
- DataCurve.DataCurveEx.HandleZoomData: requires both plot extents without margins to be non-zero, as the two ChangeValue methods do.
- DataCurve.DataCurveEx.ZoomAxes: the same requirement as HandleZoomData.
- Filters.FilterKalman.Full: requires H ≠ 0, Q > 0 and R ≥ 0. With H = 0 the first update divides by zero, and with R < 0 the covariance can go negative. The control only ever builds the filter with (R, Q) = (0.008, 0.1), and nothing calls the five-argument constructor.
- Filters.FilterKalman.constructor: requires Q > 0 and R ≥ 0, for the same reason.
- Filters.FilterKalman.Filter: requires the invariant these establish.
- Filters.FilterKalman.FilterWithControl: requires the same invariant.
- BasicFramework.AddArrayData: requires a batch no longer than `max`, because a longer one makes the source throw from `Array.Copy` or an index; every caller passes one element.
- BasicFramework.AddArrayData: reads the batch before shifting, so a batch that is the array itself (when the array is full) is not modelled as the source's second `Array.Copy` would read it, from the already-shifted array. Every caller passes a fresh one-element array.
- `AxisY` has no `_update` flag, `SetZoomValue` or `Update`. It inherits them from `AxisZoom`, but only the time axis ever calls them (DataCurveEx.cs lines 971 and 1003), and `AxisZoom.Update` itself is empty.
- `FilterKalman.lastMeasurement`, `setMeasurementNoise` and `setProcessNoise` (Filter.cs:145-158): trivial accessors, and the setters could break the invariant above.
- Applying the channel filters: the control applies them only while drawing, which is left out.
- 32-bit `int` overflow in pixel and index arithmetic, and the 64-bit wrap of `_data_size`: counts are unbounded naturals. The `(ulong)` conversion of a negative stride or window start is modelled.
- GUID generation: new axis names are parameters (`token`), required to be fresh and non-empty.
- `SetCurAxisX`/`SetCurAxisY`: a caller could set a handle that names an axis while its id is -1, which falls outside the registry invariant. The model's current handles change only through `CreateAxisX`/`CreateAxisY`.
- `SetCurveVisible`, `UpdateAxisY`, `GetCurAxisY` and the remaining setters (`SetBorderLine`, `SetCurveTitle`, `SetDynamicCurve`): display settings outside the engine's buffers and zoom state.
- The data-source query behind `DataCurveZoomData`: the demo host reads a database. The model takes any `fetch` function. `Ingest.ZoomReload` states what is guaranteed when the result covers every live channel, as the host's does.
- Ingest.CacheRule: the "throws exactly when the view is empty" direction is stated only for spans below 2^64, because the model's span is an unbounded natural.
- DataCurve.DataCurveEx.CreateAxisY: the source adds the filter before the axis and the channel. The model registers the axis and the channel first. The steps touch disjoint tables and cannot fail for a fresh name, so the final state is the same.
- DataCurve.DataCurveEx.AddData: the at-capacity branch inlines `ResetCurveData(_dict_data_items, true)`. Its CalcZoomPos check always passes there, because the loop has just resolved the current time axis.
