/**
 * The live chart of draw.ts: a retained window of samples that slides by one
 * sample per update, the time origin of index 0 that advances with it, the fixed
 * index basis `[0, length - 1]`, and the two coalescing schedulers that drive
 * redraws (one for new data, one for refreshing scales after zoom or new data).
 */
module Chart {
  import opened TimeAxis
  import opened Coalescing

  /** One sample: a value per tracked series. */
  type Sample = seq<real>

  class TimeSeriesChart {
    /** The retained window, oldest sample first. */
    var data: seq<Sample>
    /** Timestamp of the sample at index 0. */
    var timeAtIdx0: int
    /** Milliseconds between consecutive samples. */
    var timeStep: int
    /** The whole window in index space: its first and last index. */
    var bIndexFull: Basis
    /** The time domain last given to the horizontal scale. */
    var xDomain: Basis
    /** `drawNewData`: rebuilds after new data, coalesced. */
    const newDataDraw: RedrawScheduler<real>
    /** `scheduleRefresh`: recomputes scales and the view after zoom or new data, coalesced. */
    const refresh: RedrawScheduler<real>

    ghost predicate Valid()
      reads this, newDataDraw, refresh
    {
      bIndexFull == Basis(0, |data| - 1) &&
      newDataDraw != refresh && newDataDraw.Valid() && refresh.Valid()
    }

    /** `getTimeByIndex`: the timestamp of `index` when index 0 is at `startTime`. */
    function GetTimeByIndex(index: int, startTime: int): (t: int)
      reads this
      ensures timeStep > 0 ==> (t > startTime <==> index > 0)
      ensures t - startTime == IndexToTime(index, 0, timeStep)
    {
      IndexToTime(index, startTime, timeStep)
    }

    /**
     * `updateScales`, time part: both endpoints of the visible index basis
     * mapped through `idxToTime` (the current `timeAtIdx0`), in stored order.
     */
    function TimeVisible(bIndexVisible: Basis): (b: Basis)
      reads this
      ensures b.p0 == GetTimeByIndex(bIndexVisible.p0, timeAtIdx0)
      ensures b.p1 == GetTimeByIndex(bIndexVisible.p1, timeAtIdx0)
    {
      ToTimeBasis(bIndexVisible, timeAtIdx0, timeStep)
    }

    /**
     * The constructor with `drawChart`: the scales are first set from the full
     * index basis, and one refresh is requested at the end.
     */
    constructor (startTime: int, timeStep: int, data: seq<Sample>)
      ensures Valid() && fresh(newDataDraw) && fresh(refresh)
      ensures this.data == data && timeAtIdx0 == startTime && this.timeStep == timeStep
      ensures bIndexFull == Basis(0, |data| - 1)
      ensures xDomain == ToTimeBasis(bIndexFull, startTime, timeStep)
      ensures newDataDraw.State() == Initial()
      ensures refresh.State() == Machine(true, [[]])
    {
      this.timeStep := timeStep;
      this.timeAtIdx0 := startTime;
      this.bIndexFull := Basis(0, |data| - 1);
      this.data := data;
      this.xDomain := ToTimeBasis(Basis(0, |data| - 1), startTime, timeStep);
      this.newDataDraw := new RedrawScheduler();
      var r := new RedrawScheduler();
      this.refresh := r;
      new;
      refresh.Call([]);
    }

    /**
     * `updateChartWithNewData`: push the new sample, shift out the oldest one,
     * advance the time origin by one step and request the new-data redraw.
     */
    method UpdateChartWithNewData(newData: Sample)
      requires Valid()
      modifies this, newDataDraw
      ensures Valid()
      ensures data == Slide(old(data), newData)
      ensures timeAtIdx0 == old(timeAtIdx0) + timeStep
      ensures timeStep == old(timeStep) && bIndexFull == old(bIndexFull) && xDomain == old(xDomain)
      ensures old(data) != [] ==>
        Timeline(data, timeAtIdx0, timeStep)
          == Timeline(old(data), old(timeAtIdx0), timeStep)[1..]
             + [Stamped(GetTimeByIndex(|old(data)|, old(timeAtIdx0)), newData)]
      ensures newDataDraw.State() == Step(old(newDataDraw.State()), Event.Call([]))
      ensures refresh.State() == old(refresh.State())
    {
      if data != [] {
        SlideKeepsTimestamps(data, newData, timeAtIdx0, timeStep);
      }
      data := (data + [newData])[1..];
      timeAtIdx0 := timeAtIdx0 + timeStep;
      newDataDraw.Call([]);
    }

    /** `zoom`: the gesture goes to the view transform (not modelled), then a refresh is requested. */
    method Zoom()
      requires Valid()
      modifies refresh
      ensures Valid()
      ensures refresh.State() == Step(old(refresh.State()), Event.Call([]))
      ensures newDataDraw.State() == old(newDataDraw.State())
    {
      refresh.Call([]);
    }

    /** The new-data redraw runs: the tree is rebuilt (not modelled) and a refresh is requested. */
    method FireNewDataDraw()
      requires Valid() && newDataDraw.requested
      modifies newDataDraw, refresh
      ensures Valid()
      ensures newDataDraw.State() == Initial()
      ensures refresh.State() == Step(old(refresh.State()), Event.Call([]))
    {
      var _ := newDataDraw.Fire();
      refresh.Call([]);
    }

    /**
     * The refresh runs with `bIndexVisible`, the visible index basis the view
     * transform reports at that moment; the time domain is read from the state
     * as it is when the callback runs, not when it was requested.
     */
    method FireRefresh(bIndexVisible: Basis)
      requires Valid() && refresh.requested
      modifies this, refresh
      ensures Valid()
      ensures refresh.State() == Initial()
      ensures xDomain == TimeVisible(bIndexVisible)
      ensures data == old(data) && timeAtIdx0 == old(timeAtIdx0) && timeStep == old(timeStep)
      ensures bIndexFull == old(bIndexFull)
      ensures newDataDraw.State() == old(newDataDraw.State())
    {
      var _ := refresh.Fire();
      xDomain := TimeVisible(bIndexVisible);
    }
  }

  // ---------------------------------------------------------------------------

  /**
   * A client of the class: two updates in a row redraw once, and the times follow
   * the slides. The timers run in the order the callbacks were scheduled: first
   * the refresh the constructor requested, then the new-data redraw, then the
   * refresh that redraw requested.
   */
  method SlideTwiceThenRefresh(startTime: int, timeStep: int, data: seq<Sample>, a: Sample, b: Sample)
    returns (first: Basis, shown: Basis)
    ensures first == Basis(startTime + 2 * timeStep, startTime + 2 * timeStep + (|data| - 1) * timeStep)
    ensures shown == first
  {
    var c := new TimeSeriesChart(startTime, timeStep, data);
    c.UpdateChartWithNewData(a);
    assert c.newDataDraw.requested;
    c.UpdateChartWithNewData(b);
    assert c.data == Slide(Slide(data, a), b);
    c.FireRefresh(c.bIndexFull);
    first := c.xDomain;
    c.FireNewDataDraw();
    assert c.refresh.requested;
    c.FireRefresh(c.bIndexFull);
    shown := c.xDomain;
  }
}
