/**
 * The chart of the path-draw-transform benchmark: dates of samples computed by
 * the affine `calcDate` map from `minX` and `stepX`, the end date `maxX` of the
 * data, the scan `getZoomIntervalY` for the indices visible in a date interval,
 * and a coalesced `zoom` that writes the view transform from its arguments.
 */
module BenchmarkChart {
  import opened Wrappers
  import opened TimeAxis
  import opened Coalescing

  /** The four numbers written into the view's transform; `None` is an `undefined` argument. */
  datatype ViewTransform = ViewTransform(
    translateX: Option<real>, translateY: Option<real>,
    scaleX: Option<real>, scaleY: Option<real>)

  /** `param[k]` of a JavaScript array: `undefined` past its end. */
  function Arg(param: seq<real>, k: nat): (v: Option<real>)
    ensures v.Some? <==> k < |param|
    ensures v.Some? ==> v.value == param[k]
  {
    if k < |param| then Some(param[k]) else None
  }

  /** What the `zoom` callback reads from the argument array it runs with. */
  function ZoomTransform(param: seq<real>): (t: ViewTransform)
    ensures t.translateX == Arg(param, 0) && t.translateY == Arg(param, 1)
    ensures t.scaleX == Arg(param, 2) && t.scaleY == Arg(param, 3)
    ensures |param| >= 4 ==>
      t == ViewTransform(Some(param[0]), Some(param[1]), Some(param[2]), Some(param[3]))
  {
    ViewTransform(Arg(param, 0), Arg(param, 1), Arg(param, 2), Arg(param, 3))
  }

  // ---------------------------------------------------------------------------
  // The specification of getZoomIntervalY

  /** Index `i` is visible: its date lies in the closed interval `xSubInterval`. */
  ghost predicate Qualifies(minX: int, stepX: int, xSubInterval: (int, int), i: int)
  {
    xSubInterval.0 <= IndexToTime(i, minX, stepX) <= xSubInterval.1
  }

  ghost predicate AnyQualifies(minX: int, stepX: int, xSubInterval: (int, int), k: int)
  {
    exists i :: 0 <= i < k && Qualifies(minX, stepX, xSubInterval, i)
  }

  /**
   * After scanning indices `0 .. k - 1`: if one of them is visible, `from` is the
   * least and `to` the greatest visible one; otherwise `from` and `to` still hold
   * their initial values `intervalSize` and `0`.
   */
  ghost predicate Scanned(minX: int, stepX: int, xSubInterval: (int, int), intervalSize: int,
                          k: int, from: int, to: int)
  {
    if AnyQualifies(minX, stepX, xSubInterval, k) then
      0 <= from <= to < k &&
      Qualifies(minX, stepX, xSubInterval, from) && Qualifies(minX, stepX, xSubInterval, to) &&
      forall j :: 0 <= j < k && Qualifies(minX, stepX, xSubInterval, j) ==> from <= j <= to
    else
      from == intervalSize && to == 0
  }

  /** The result of `getZoomIntervalY` over the indices `0 .. intervalSize - 1`. */
  ghost predicate IsZoomInterval(minX: int, stepX: int, xSubInterval: (int, int), intervalSize: int,
                                 from: int, to: int)
  {
    Scanned(minX, stepX, xSubInterval, intervalSize, intervalSize, from, to)
  }

  class TimeSeriesChart {
    var minX: int
    var maxX: int
    var missedStepsCount: int
    var stepX: int
    /** The coalesced `zoom`. */
    const zoomDraw: RedrawScheduler<real>
    /** The transform last written to the view by the `zoom` callback, if any. */
    var viewTransform: Option<ViewTransform>

    ghost predicate Valid()
      reads this, zoomDraw
    {
      zoomDraw.Valid()
    }

    /** `calcDate`: the date of sample `index` when sample 0 is at `offset`. */
    function CalcDate(index: int, offset: int): (d: int)
      reads this
      ensures d - offset == IndexToTime(index, 0, stepX)
      ensures stepX > 0 ==> (d > offset <==> index > 0)
    {
      IndexToTime(index, offset, stepX)
    }

    /** The constructor over `dataLength` samples: `maxX` is the date of the last sample. */
    constructor (minX: int, stepX: int, dataLength: nat)
      ensures Valid() && fresh(zoomDraw) && zoomDraw.State() == Initial()
      ensures this.minX == minX && this.stepX == stepX && missedStepsCount == 0
      ensures maxX == IndexToTime(dataLength - 1, minX, stepX)
      ensures viewTransform == None
    {
      this.stepX := stepX;
      this.minX := minX;
      this.maxX := IndexToTime(dataLength - 1, minX, stepX);
      this.missedStepsCount := 0;
      this.zoomDraw := new RedrawScheduler();
      this.viewTransform := None;
    }

    /** `zoom(...param)`: the coalesced call. */
    method Zoom(param: seq<real>)
      requires Valid()
      modifies zoomDraw
      ensures Valid()
      ensures zoomDraw.State() == Step(old(zoomDraw.State()), Event.Call(param))
    {
      zoomDraw.Call(param);
    }

    /** The scheduled `zoom` callback runs: it writes the transform read from its captured arguments. */
    method FireZoom()
      requires Valid() && zoomDraw.requested
      modifies this, zoomDraw
      ensures Valid()
      ensures zoomDraw.State() == Initial()
      ensures viewTransform == Some(ZoomTransform(old(zoomDraw.scheduled)[0]))
      ensures minX == old(minX) && maxX == old(maxX) && stepX == old(stepX)
      ensures missedStepsCount == old(missedStepsCount)
    {
      var param := zoomDraw.Fire();
      viewTransform := Some(ZoomTransform(param));
    }

    /**
     * `getZoomIntervalY`: the least and the greatest index below `intervalSize`
     * whose date lies in the closed interval `xSubInterval`, or `(intervalSize, 0)`
     * when there is none.
     */
    method GetZoomIntervalY(xSubInterval: (int, int), intervalSize: int) returns (from: int, to: int)
      ensures IsZoomInterval(minX, stepX, xSubInterval, intervalSize, from, to)
      ensures !AnyQualifies(minX, stepX, xSubInterval, intervalSize) <==> from == intervalSize && to == 0
    {
      from := intervalSize;
      to := 0;
      var i := 0;
      while i < intervalSize
        invariant 0 <= i <= if intervalSize < 0 then 0 else intervalSize
        invariant Scanned(minX, stepX, xSubInterval, intervalSize, i, from, to)
      {
        if CalcDate(i, minX) >= xSubInterval.0 && CalcDate(i, minX) <= xSubInterval.1 {
          ScanTakes(minX, stepX, xSubInterval, intervalSize, i, from, to);
          if i > to {
            to := i;
          }
          if i < from {
            from := i;
          }
        } else {
          ScanSkips(minX, stepX, xSubInterval, intervalSize, i, from, to);
        }
        i := i + 1;
      }
      ScanFinished(minX, stepX, xSubInterval, intervalSize, i, from, to);
    }
  }

  /** A visible index `i` extends the scanned prefix: it becomes `from` if smaller, `to` if greater. */
  lemma ScanTakes(minX: int, stepX: int, xSubInterval: (int, int), intervalSize: int,
                  i: int, from: int, to: int)
    requires 0 <= i < intervalSize
    requires Scanned(minX, stepX, xSubInterval, intervalSize, i, from, to)
    requires Qualifies(minX, stepX, xSubInterval, i)
    ensures Scanned(minX, stepX, xSubInterval, intervalSize, i + 1,
                    if i < from then i else from, if i > to then i else to)
  {
    assert AnyQualifies(minX, stepX, xSubInterval, i + 1);
  }

  /** An index that is not visible leaves the scan as it is. */
  lemma ScanSkips(minX: int, stepX: int, xSubInterval: (int, int), intervalSize: int,
                  i: int, from: int, to: int)
    requires 0 <= i
    requires Scanned(minX, stepX, xSubInterval, intervalSize, i, from, to)
    requires !Qualifies(minX, stepX, xSubInterval, i)
    ensures Scanned(minX, stepX, xSubInterval, intervalSize, i + 1, from, to)
  {
    if AnyQualifies(minX, stepX, xSubInterval, i + 1) {
      var w :| 0 <= w < i + 1 && Qualifies(minX, stepX, xSubInterval, w);
      assert w != i;
      assert AnyQualifies(minX, stepX, xSubInterval, i);
    }
  }

  /** Once the loop stops, the prefix scanned is the whole range; the sentinel means "none visible". */
  lemma ScanFinished(minX: int, stepX: int, xSubInterval: (int, int), intervalSize: int,
                     i: int, from: int, to: int)
    requires i == if intervalSize < 0 then 0 else intervalSize
    requires Scanned(minX, stepX, xSubInterval, intervalSize, i, from, to)
    ensures IsZoomInterval(minX, stepX, xSubInterval, intervalSize, from, to)
    ensures !AnyQualifies(minX, stepX, xSubInterval, intervalSize) <==> from == intervalSize && to == 0
  {
    if intervalSize < 0 {
      assert !AnyQualifies(minX, stepX, xSubInterval, i);
      assert !AnyQualifies(minX, stepX, xSubInterval, intervalSize);
    }
  }

  // ---------------------------------------------------------------------------

  /** The scan has exactly one possible result. */
  lemma ZoomIntervalUnique(minX: int, stepX: int, xSubInterval: (int, int), intervalSize: int,
                           from: int, to: int, from': int, to': int)
    requires IsZoomInterval(minX, stepX, xSubInterval, intervalSize, from, to)
    requires IsZoomInterval(minX, stepX, xSubInterval, intervalSize, from', to')
    ensures from == from' && to == to'
  {
  }

  /** The interval test is closed: an index dated exactly at either bound is visible. */
  lemma BoundsAreInclusive(minX: int, stepX: int, xSubInterval: (int, int), i: int)
    requires xSubInterval.0 <= xSubInterval.1
    ensures IndexToTime(i, minX, stepX) == xSubInterval.0 ==> Qualifies(minX, stepX, xSubInterval, i)
    ensures IndexToTime(i, minX, stepX) == xSubInterval.1 ==> Qualifies(minX, stepX, xSubInterval, i)
  {
  }

  /**
   * Every index between `from` and `to` is visible too, whatever the sign of the
   * step: an affine map pulls the closed interval back to a contiguous range.
   */
  lemma VisibleIndicesAreContiguous(minX: int, stepX: int, xSubInterval: (int, int), intervalSize: int,
                                    from: int, to: int, j: int)
    requires IsZoomInterval(minX, stepX, xSubInterval, intervalSize, from, to)
    requires AnyQualifies(minX, stepX, xSubInterval, intervalSize)
    requires from <= j <= to
    ensures Qualifies(minX, stepX, xSubInterval, j)
  {
    if stepX >= 0 {
      IndexToTimeMonotone(from, j, minX, stepX);
      IndexToTimeMonotone(j, to, minX, stepX);
    } else {
      assert (j - from) * stepX <= 0;
      assert (to - j) * stepX <= 0;
    }
  }

  /** With a non-negative step every sample's date lies in `[minX, maxX]`, the chart's initial domain. */
  lemma SampleDatesWithinDomain(minX: int, stepX: int, dataLength: nat, i: int)
    requires stepX >= 0 && 0 <= i < dataLength
    ensures minX <= IndexToTime(i, minX, stepX) <= IndexToTime(dataLength - 1, minX, stepX)
  {
    IndexToTimeMonotone(0, i, minX, stepX);
    IndexToTimeMonotone(i, dataLength - 1, minX, stepX);
  }

  /** Scanning the whole domain `[minX, maxX]` finds the first and the last sample. */
  lemma FullDomainIsWholeWindow(minX: int, stepX: int, dataLength: nat, from: int, to: int)
    requires stepX >= 0 && dataLength > 0
    requires IsZoomInterval(minX, stepX, (minX, IndexToTime(dataLength - 1, minX, stepX)), dataLength, from, to)
    ensures from == 0 && to == dataLength - 1
  {
    var sub := (minX, IndexToTime(dataLength - 1, minX, stepX));
    SampleDatesWithinDomain(minX, stepX, dataLength, 0);
    SampleDatesWithinDomain(minX, stepX, dataLength, dataLength - 1);
    assert Qualifies(minX, stepX, sub, 0);
    assert Qualifies(minX, stepX, sub, dataLength - 1);
  }

  /**
   * A client of the class: on a fresh chart, a burst of zoom calls followed by
   * one timer run writes the transform of the FIRST call of the burst.
   */
  method ZoomBurstThenFire(minX: int, stepX: int, dataLength: nat, first: seq<real>, rest: seq<seq<real>>)
    returns (applied: Option<ViewTransform>)
    ensures applied == Some(ZoomTransform(first))
  {
    var c := new TimeSeriesChart(minX, stepX, dataLength);
    c.Zoom(first);
    for k := 0 to |rest|
      invariant c.Valid() && c.zoomDraw.State() == Machine(true, [first])
    {
      c.Zoom(rest[k]);
    }
    c.FireZoom();
    applied := c.viewTransform;
  }
}
