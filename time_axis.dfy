/**
 * The affine map from sample index to timestamp that both charts use, and the
 * two-point bases they pass around.
 *
 * Timestamps are integer milliseconds (`Date.now()` style), and the step between
 * two consecutive samples is an integer number of milliseconds.
 */
module TimeAxis {

  /** A two-point basis: its two points in stored order (direction matters). */
  datatype Basis = Basis(p0: int, p1: int)

  /** The timestamp of sample `index` when sample 0 is at `origin` and samples are `step` apart. */
  function IndexToTime(index: int, origin: int, step: int): (t: int)
    ensures index == 0 ==> t == origin
    ensures step == 0 ==> t == origin
    ensures t - origin == index * step
  {
    index * step + origin
  }

  /** The image of an index basis in time: both points mapped, in stored order. */
  function ToTimeBasis(b: Basis, origin: int, step: int): (r: Basis)
    ensures r.p0 == IndexToTime(b.p0, origin, step) && r.p1 == IndexToTime(b.p1, origin, step)
    ensures r.p1 - r.p0 == (b.p1 - b.p0) * step
  {
    Basis(IndexToTime(b.p0, origin, step), IndexToTime(b.p1, origin, step))
  }

  /** One retained sample together with its timestamp. */
  datatype Stamped<S> = Stamped(time: int, sample: S)

  /** The window as timestamped samples: sample `i` sits at `IndexToTime(i, origin, step)`. */
  function Timeline<S>(data: seq<S>, origin: int, step: int): (t: seq<Stamped<S>>)
    ensures |t| == |data|
    ensures forall i :: 0 <= i < |t| ==> t[i] == Stamped(IndexToTime(i, origin, step), data[i])
  {
    seq(|data|, i requires 0 <= i < |data| => Stamped(IndexToTime(i, origin, step), data[i]))
  }

  /** The window after one slide: the new sample appended, the oldest dropped. */
  function Slide<S>(data: seq<S>, newSample: S): (r: seq<S>)
    ensures |r| == |data|
    ensures data != [] ==> r == data[1..] + [newSample]
    ensures data == [] ==> r == []
  {
    (data + [newSample])[1..]
  }

  // ---------------------------------------------------------------------------

  /** With a positive step the map is strictly increasing, and it is injective. */
  lemma IndexToTimeStrictlyIncreasing(i: int, j: int, origin: int, step: int)
    requires step > 0
    ensures i < j <==> IndexToTime(i, origin, step) < IndexToTime(j, origin, step)
    ensures i == j <==> IndexToTime(i, origin, step) == IndexToTime(j, origin, step)
  {
    if i < j {
      assert (j - i) * step > 0;
    } else if j < i {
      assert (i - j) * step > 0;
    }
  }

  /** With a non-negative step the map is non-decreasing. */
  lemma IndexToTimeMonotone(i: int, j: int, origin: int, step: int)
    requires step >= 0 && i <= j
    ensures IndexToTime(i, origin, step) <= IndexToTime(j, origin, step)
  {
    assert (j - i) * step >= 0;
  }

  /** Moving the origin one step forward shifts every index down by one. */
  lemma ShiftedOrigin(i: int, origin: int, step: int)
    ensures IndexToTime(i, origin + step, step) == IndexToTime(i + 1, origin, step)
  {
    assert (i + 1) * step == i * step + step;
  }

  /**
   * A slide that also advances the origin by one step keeps the timestamp of
   * every retained sample: the new timeline is the old one without its oldest
   * entry, followed by the new sample at the next timestamp.
   */
  lemma SlideKeepsTimestamps<S>(data: seq<S>, newSample: S, origin: int, step: int)
    requires data != []
    ensures Timeline(Slide(data, newSample), origin + step, step)
         == Timeline(data, origin, step)[1..] + [Stamped(IndexToTime(|data|, origin, step), newSample)]
  {
    var n := |data|;
    var after := Timeline(Slide(data, newSample), origin + step, step);
    var expected := Timeline(data, origin, step)[1..] + [Stamped(IndexToTime(n, origin, step), newSample)];
    assert |after| == |expected| == n;
    forall i | 0 <= i < n
      ensures after[i] == expected[i]
    {
      ShiftedOrigin(i, origin, step);
      if i == n - 1 {
        assert Slide(data, newSample)[i] == newSample;
      } else {
        assert Slide(data, newSample)[i] == data[i + 1];
      }
    }
  }

  /** Under a positive step the time basis keeps the direction of the index basis. */
  lemma ToTimeBasisKeepsOrder(b: Basis, origin: int, step: int)
    requires step > 0
    ensures b.p0 < b.p1 <==> ToTimeBasis(b, origin, step).p0 < ToTimeBasis(b, origin, step).p1
    ensures b.p0 == b.p1 <==> ToTimeBasis(b, origin, step).p0 == ToTimeBasis(b, origin, step).p1
  {
    IndexToTimeStrictlyIncreasing(b.p0, b.p1, origin, step);
  }

  /** The full index basis `[0, n - 1]` maps to the first and the last sample's timestamps. */
  lemma FullIndexBasisToTime(n: int, origin: int, step: int)
    ensures ToTimeBasis(Basis(0, n - 1), origin, step) == Basis(origin, origin + (n - 1) * step)
  {
  }

  /** After a slide the same index basis shows times exactly one step later. */
  lemma SlideShiftsTimeBasis(b: Basis, origin: int, step: int)
    ensures ToTimeBasis(b, origin + step, step).p0 == ToTimeBasis(b, origin, step).p0 + step
    ensures ToTimeBasis(b, origin + step, step).p1 == ToTimeBasis(b, origin, step).p1 + step
  {
  }
}
