# svg-time-series: the redraw scheduler, the sliding time window and the visible-index scan

This project models, in Dafny, the sequential logic of the live time-series chart
in `draw.ts` and of its path-draw-transform benchmark
(`benchmarks/path-draw-transform-d3/draw.ts`):

- **`drawProc(f)`**, the coalescing redraw scheduler (module `Coalescing`). It
  holds the closure's flag `requested` and the host timer's queue of scheduled
  callbacks, each with the argument array it captured. It is written twice: as a
  pure state machine over traces of `Call(args)` and `Fire` events, and as the
  class `RedrawScheduler` whose methods are proved to follow that machine. The
  host timer (`runTimeout`, `d3.timeout`) becomes the explicit `Fire` step.
- **The affine index-to-time map** shared by `getTimeByIndex` and `calcDate`
  (module `TimeAxis`), with two-point bases, the timestamped view of a window
  and the one-sample slide.
- **`TimeSeriesChart` of `draw.ts`** (module `Chart`). It holds the retained
  window, which slides by one sample per `updateChartWithNewData` while
  `timeAtIdx0` advances by `timeStep`. It also holds the fixed index basis
  `bIndexFull = [0, length - 1]`, the time domain computed by `updateScales`, and
  its two schedulers: `drawNewData` and `scheduleRefresh`.
- **`TimeSeriesChart` of the benchmark** (module `BenchmarkChart`). It holds
  `minX`, `stepX` and `maxX`, the scan `getZoomIntervalY`, and the coalesced
  `zoom`. The `zoom` callback reads its transform from positions 0 to 3 of its
  argument array.

Timestamps (`Date` values and `Date.now()` style numbers) are integer
milliseconds, and `timeStep`/`stepX` are integers.

Two points about the source itself:

- `drawProc` does not run `f` with the latest arguments: it runs `f` with the
  argument array of the first call made while idle (`draw.ts:23-29`), and later
  calls are dropped. The model proves this first-call behaviour
  (`Coalescing.Coalesce`, `BenchmarkChart.ZoomBurstThenFire`). The callers in
  `draw.ts` ignore that array and read the chart state when the callback runs.
  `Chart.TimeSeriesChart.FireRefresh` shows that reading: the time domain uses
  `timeAtIdx0` as it is at fire time.
- `draw.ts:140` does not parse: a parenthesis is unbalanced and
  `minTimeVisible`/`maxTimeVisible` are not declared. The model takes its evident
  intent: both endpoints of the visible index basis are mapped through
  `idxToTime`, in stored order (`Chart.TimeSeriesChart.TimeVisible`).

`AR1Basis` itself is not part of this model; where the charts only build one
from two numbers and read the two back, it is reduced to `TimeAxis.Basis`, a
pair of integers, and `toArr()` is taken to return the two points in the order
they were given to the constructor.

## Model

| member | source | states |
|---|---|---|
| `Coalescing.OnCall` | draw.ts:23-31 | a call while `requested` leaves the state unchanged; a call while idle sets `requested` and schedules exactly one callback holding this call's arguments; at most one callback stays outstanding |
| `Coalescing.OnFire` | draw.ts:26-29 | running the outstanding callback clears `requested` and leaves nothing scheduled; with nothing outstanding the state is unchanged; at most one callback stays outstanding |
| `Coalescing.Delivered` | draw.ts:26-29 | `f` runs at most once per event, never on a call, on a timer run exactly when a callback was outstanding, and with an argument array that callback captured |
| `Coalescing.RunKeepsInv` | draw.ts:20-32 | along every trace of calls and timer runs, at most one callback is outstanding, and one is outstanding exactly when `requested` is set |
| `Coalescing.CallsWhilePendingAreDropped` | draw.ts:24-30 | any number of calls made while a callback is outstanding change nothing and run nothing; their arguments are dropped |
| `Coalescing.Coalesce` | draw.ts:21-31 | from idle, a burst of calls followed by one timer run runs `f` exactly once, with the first call's arguments, and leaves the scheduler idle |
| `Coalescing.CallAfterFireSchedules` | draw.ts:26-28 | after a timer run, the first call schedules a new callback with its own arguments, and the run delivered the array the earlier callback captured |
| `Coalescing.DeliveriesComeFromCalls` | draw.ts:23-29 | every argument array `f` runs with was already captured or was passed by a call of the trace |
| `Coalescing.DeliveriesBounded` | draw.ts:23-29 | over a trace, `f` runs no more often than the timer fires, and runs plus outstanding callbacks never exceed the calls made |
| `Coalescing.RedrawScheduler.constructor` | draw.ts:21 | a fresh scheduler is idle: `requested` is false and nothing is scheduled |
| `Coalescing.RedrawScheduler.Call` | draw.ts:23-31 | the object makes exactly the pure machine's call step: a no-op while `requested`, otherwise schedules one callback with `args` |
| `Coalescing.RedrawScheduler.Fire` | draw.ts:26-29 | the object makes the pure machine's timer step: it returns the captured argument array `f` runs with and ends idle |
| `TimeAxis.IndexToTime` | draw.ts:223-225 | the affine index-to-time map of `getTimeByIndex` and `calcDate` (benchmarks/path-draw-transform-d3/draw.ts:122-124): index 0 sits at the origin, a zero step puts every index there, and the offset from the origin is `index` steps |
| `TimeAxis.ToTimeBasis` | draw.ts:140-141 | both endpoints of an index basis mapped through the index-to-time map, in stored order; the time span is the index span times the step |
| `TimeAxis.Timeline` | draw.ts:223-225 | the window as timestamped samples: entry `i` is sample `i` at time `i * timeStep + origin` |
| `TimeAxis.Slide` | draw.ts:72-73 | push then shift keeps the length; a non-empty window becomes its tail followed by the new sample; an empty one stays empty |
| `TimeAxis.IndexToTimeStrictlyIncreasing` | draw.ts:223-225 | with a positive step, index order and time order agree in both directions, and distinct indices have distinct times |
| `TimeAxis.IndexToTimeMonotone` | benchmarks/path-draw-transform-d3/draw.ts:122-124 | with a non-negative step, a later index never has an earlier date |
| `TimeAxis.ShiftedOrigin` | draw.ts:223-225 | advancing the origin by one step gives index `i` the former time of index `i + 1` |
| `TimeAxis.SlideKeepsTimestamps` | draw.ts:71-78 | a slide with the origin advanced by one step drops the oldest timestamped sample, keeps all others at their timestamps and adds the new sample one step after the last |
| `TimeAxis.ToTimeBasisKeepsOrder` | draw.ts:140-141 | with a positive step, the time basis has the same direction as the index basis, and is degenerate exactly when the index basis is |
| `TimeAxis.FullIndexBasisToTime` | draw.ts:67 | the full index basis `[0, n - 1]` maps to the time of the first sample and the time of the last sample |
| `TimeAxis.SlideShiftsTimeBasis` | draw.ts:123 | after a slide, the same index basis shows both endpoints exactly one step later |
| `Chart.TimeSeriesChart.GetTimeByIndex` | draw.ts:223-225 | the time is `startTime` moved by `index` steps; with a positive step it lies after `startTime` exactly for positive indices |
| `Chart.TimeSeriesChart.TimeVisible` | draw.ts:122-141 | the visible time basis maps each endpoint of the visible index basis through `idxToTime` with the current `timeAtIdx0`, in stored order |
| `Chart.TimeSeriesChart.constructor` | draw.ts:57-69 | stores `timeStep` and `startTime`; `bIndexFull` is `[0, length - 1]`; the first time domain comes from the full basis; the new-data scheduler is idle and one refresh is pending |
| `Chart.TimeSeriesChart.UpdateChartWithNewData` | draw.ts:71-78 | the window slides by one with its length kept; `timeAtIdx0` grows by exactly `timeStep`; `timeStep`, `bIndexFull` and the domain are unchanged; every retained sample keeps its timestamp and the new sample sits one step after the old last one; the new-data redraw is requested |
| `Chart.TimeSeriesChart.Zoom` | draw.ts:80-82 | a zoom requests the coalesced refresh and leaves the new-data scheduler alone |
| `Chart.TimeSeriesChart.FireNewDataDraw` | draw.ts:214-221 | the new-data redraw runs, returns its scheduler to idle, and requests a refresh |
| `Chart.TimeSeriesChart.FireRefresh` | draw.ts:171-183 | the refresh runs, returns to idle, and sets the time domain from the visible index basis using the state at run time; the window, the origin and `bIndexFull` are unchanged |
| `Chart.SlideTwiceThenRefresh` | draw.ts:57-78 | two updates in a row followed by the timers, run in the order they were scheduled (the constructor's refresh, the new-data redraw, its refresh), show the full window one step later per update: both refreshes give a time domain moved by two steps |
| `BenchmarkChart.Arg` | benchmarks/path-draw-transform-d3/draw.ts:53-56 | reading position `k` of the argument array yields that element when it exists and `undefined` otherwise |
| `BenchmarkChart.ZoomTransform` | benchmarks/path-draw-transform-d3/draw.ts:53-56 | `translateX`, `translateY`, `scaleX` and `scaleY` are positions 0 to 3 of the argument array, `undefined` where the array is shorter; with four or more arguments all four are defined |
| `BenchmarkChart.TimeSeriesChart.CalcDate` | benchmarks/path-draw-transform-d3/draw.ts:122-124 | the date is `offset` moved by `index` steps of `stepX`; with a positive step it lies after `offset` exactly for positive indices |
| `BenchmarkChart.TimeSeriesChart.constructor` | benchmarks/path-draw-transform-d3/draw.ts:42-50 | stores `minX` and `stepX`; `maxX` is the date of the last sample, `calcDate(length - 1, minX)`; `missedStepsCount` is 0; `zoom` is idle |
| `BenchmarkChart.TimeSeriesChart.Zoom` | benchmarks/path-draw-transform-d3/draw.ts:52 | a zoom call is one coalesced call carrying its arguments |
| `BenchmarkChart.TimeSeriesChart.FireZoom` | benchmarks/path-draw-transform-d3/draw.ts:52-58 | the timer run writes the transform read from the captured argument array, returns `zoom` to idle, and leaves the dates unchanged |
| `BenchmarkChart.TimeSeriesChart.GetZoomIntervalY` | benchmarks/path-draw-transform-d3/draw.ts:110-120 | returns the least and the greatest index below `intervalSize` whose date lies in the closed interval; returns `(intervalSize, 0)` exactly when no index qualifies |
| `BenchmarkChart.ScanTakes` | benchmarks/path-draw-transform-d3/draw.ts:114-117 | a qualifying index extends the scanned prefix: it becomes `from` when smaller and `to` when greater, and the min/max invariant holds one index further |
| `BenchmarkChart.ScanSkips` | benchmarks/path-draw-transform-d3/draw.ts:113-114 | an index outside the interval leaves `from` and `to` as they were, and the loop invariant holds one index further |
| `BenchmarkChart.ScanFinished` | benchmarks/path-draw-transform-d3/draw.ts:113-119 | when the loop stops the whole range is scanned, also for a negative `intervalSize`, and the sentinel appears exactly when no index qualifies |
| `BenchmarkChart.ZoomIntervalUnique` | benchmarks/path-draw-transform-d3/draw.ts:110-120 | the specification of the scan admits one result only |
| `BenchmarkChart.BoundsAreInclusive` | benchmarks/path-draw-transform-d3/draw.ts:114 | an index whose date equals either bound of the interval qualifies |
| `BenchmarkChart.VisibleIndicesAreContiguous` | benchmarks/path-draw-transform-d3/draw.ts:113-124 | for a step of either sign, every index between the returned `from` and `to` also qualifies |
| `BenchmarkChart.SampleDatesWithinDomain` | benchmarks/path-draw-transform-d3/draw.ts:45 | with a non-negative step, every sample's date lies within `[minX, maxX]` |
| `BenchmarkChart.FullDomainIsWholeWindow` | benchmarks/path-draw-transform-d3/draw.ts:110-120 | scanning the whole domain `[minX, maxX]` over all samples returns the first and the last index |
| `BenchmarkChart.ZoomBurstThenFire` | benchmarks/path-draw-transform-d3/draw.ts:24-57 | on a fresh chart, a burst of `zoom` calls followed by one timer run leaves the view with the transform of the first call of the burst |

## Left out

- `SegmentTree`, `AR1Basis` (beyond the pair `TimeAxis.Basis`), `MyTransform` and `MyAxis` are imported by `draw.ts` but are not part of this model. So the min/max range query, the basis-to-basis maps, the zoom/pan transform and `fromScreenToModelBasisX` are not modelled. `FireRefresh` takes the visible index basis as a parameter, and the value basis `bTemperatureVisible` is not computed.
- `FireNewDataDraw` does not model the segment-tree rebuild or the path redraw of `drawNewData`.
- `Zoom` does not model `pathTransform.onZoomPan`, which belongs to `MyTransform`.
- `BenchmarkChart.TimeSeriesChart.FireZoom` does not build the SVG transform string. It records the four values the string is built from.
- D3 scales, axes, selections, the `line()` generator, the zoom behaviour, and all of `benchmarks/dom.ts` are rendering and event glue with no logic of their own. Only the x domain of `updateScales` is kept, as `xDomain`.
- The NaN/null gap filter of the line generator is float handling inside a rendering callback, so it is not modelled.
- Real timers are not modelled: one cooperative thread runs everything, and a timer run is the explicit `Fire` step. `RedrawScheduler.Fire` requires an outstanding callback, because the host only runs callbacks that were scheduled.
- `Date` objects and floating-point steps are not modelled. Times are integer milliseconds and steps are integers.
- The benchmark constructor takes only the number of samples: `data` is used only through its length, apart from drawing.
- Chart.TimeSeriesChart.UpdateChartWithNewData: does not capture aliasing or update in place. In the source the window is the caller's own array: `drawChart` stores it as `chart.data`, and `push`/`shift` change that array, so the array passed to the constructor changes too, and the window holds a reference to `newData`. The model keeps the window as a value in the field `data`.
- BenchmarkChart.TimeSeriesChart.GetZoomIntervalY: `intervalSize` is an integer. The source takes any number; a fractional size scans up to its ceiling and returns that fractional size as the sentinel `from`, which the model does not cover.
- Chart.TimeSeriesChart.GetTimeByIndex: `index` is an integer. In the source its caller passes the endpoints of `bIndexVisible`, which `fromScreenToModelBasisX` computes from the screen and which are arbitrary numbers after a zoom or a pan.
- Chart.TimeSeriesChart.TimeVisible: the endpoints of the visible index basis are integers here, while in the source they are arbitrary numbers after a zoom or a pan; only integer visible indices are covered.
- Chart.TimeSeriesChart.FireRefresh: its parameter `bIndexVisible` has integer endpoints, while the source's visible index basis has arbitrary numeric endpoints after a zoom or a pan.
- The range of `Date` (±8.64e15 ms from the epoch) is not modelled: out of that range `new Date` is an Invalid Date and the comparisons of the benchmark scan are all false, while the model's timestamps are unbounded integers.
