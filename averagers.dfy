/**
  The two running averagers of chapter 7. Each `make_averager()` returns a
  closure; what the closure captures becomes the fields of an object, and a
  call of the closure becomes the method `Average`. Values are exact reals.
 */
module Averagers {

  /** `sum(values)`, adding left to right. */
  function Sum(values: seq<real>): real
  {
    if values == [] then 0.0 else Sum(values[..|values| - 1]) + values[|values| - 1]
  }

  /** `sum(values) / len(values)` */
  function Mean(values: seq<real>): real
    requires values != []
  {
    Sum(values) / |values| as real
  }

  lemma SumAppend(values: seq<real>, v: real)
    ensures Sum(values + [v]) == Sum(values) + v
  {
    assert (values + [v])[..|values|] == values;
  }

  /** Sum is bounded by the count times the smallest and the largest value. */
  lemma {:induction false} SumBounds(values: seq<real>, lo: real, hi: real)
    requires forall k :: 0 <= k < |values| ==> lo <= values[k] <= hi
    ensures lo * |values| as real <= Sum(values) <= hi * |values| as real
  {
    if values != [] {
      SumBounds(values[..|values| - 1], lo, hi);
    }
  }

  /** The running average lies between the smallest and the largest value seen. */
  lemma MeanBounds(values: seq<real>, lo: real, hi: real)
    requires values != []
    requires forall k :: 0 <= k < |values| ==> lo <= values[k] <= hi
    ensures lo <= Mean(values) <= hi
  {
    SumBounds(values, lo, hi);
    var n := |values| as real;
    assert Mean(values) * n == Sum(values);
  }

  /** The first `make_averager`: the closure keeps every value in `series`. */
  class SeriesAverager {
    var series: seq<real>

    constructor ()
      ensures series == []
    {
      series := [];
    }

    /** `averager(new_value)`: append, then `sum(series) / len(series)`. */
    method Average(newValue: real) returns (avg: real)
      modifies this
      ensures series == old(series) + [newValue]
      ensures avg == Mean(series)
    {
      series := series + [newValue];
      var total := Sum(series);
      avg := total / |series| as real;
    }
  }

  /** The second `make_averager`: the closure keeps only `count` and `total`,
      rebinding them through `nonlocal`. */
  class CountingAverager {
    var count: nat
    var total: real

    constructor ()
      ensures count == 0 && total == 0.0
    {
      count, total := 0, 0.0;
    }

    /** `averager(new_value)`: `count += 1; total += new_value; total / count`. */
    method Average(newValue: real) returns (avg: real)
      modifies this
      ensures count == old(count) + 1 && total == old(total) + newValue
      ensures avg == total / count as real
    {
      count := count + 1;
      total := total + newValue;
      avg := total / count as real;
    }
  }

  /** The counters summarise the series: `count == len(series)` and `total == sum(series)`. */
  ghost predicate Agree(s: SeriesAverager, c: CountingAverager)
    reads s, c
  {
    c.count == |s.series| && c.total == Sum(s.series)
  }

  /** Feeding the same values to both averagers gives the same averages, each
      the mean of the values seen so far. Afterwards the first averager's
      series is the values, and the second one's count and total are their
      number and their sum. */
  method SameAverages(values: seq<real>)
    returns (fromSeries: seq<real>, fromCounters: seq<real>, s: SeriesAverager, c: CountingAverager)
    ensures fromSeries == fromCounters
    ensures |fromSeries| == |values|
    ensures forall k :: 0 <= k < |values| ==> fromSeries[k] == Mean(values[..k + 1])
    ensures s.series == values && c.count == |values| && c.total == Sum(values)
  {
    s := new SeriesAverager();
    c := new CountingAverager();
    fromSeries, fromCounters := [], [];
    for i := 0 to |values|
      invariant s.series == values[..i]
      invariant Agree(s, c)
      invariant fromSeries == fromCounters && |fromSeries| == i
      invariant forall k :: 0 <= k < i ==> fromSeries[k] == Mean(values[..k + 1])
    {
      SumAppend(s.series, values[i]);
      var a := s.Average(values[i]);
      var b := c.Average(values[i]);
      assert values[..i + 1] == values[..i] + [values[i]];
      fromSeries, fromCounters := fromSeries + [a], fromCounters + [b];
    }
    assert values[..|values|] == values;
  }

  /** The chapter's calls: `avg(10)`, `avg(12)`, `avg(14)` give 10, 11 and 12. */
  method ChapterExample() returns (averages: seq<real>)
    ensures averages == [10.0, 11.0, 12.0]
  {
    var a, b, s, c := SameAverages([10.0, 12.0, 14.0]);
    averages := a;
    assert [10.0, 12.0, 14.0][..1] == [10.0];
    assert [10.0, 12.0, 14.0][..2] == [10.0, 12.0];
    assert [10.0, 12.0, 14.0][..3] == [10.0, 12.0, 14.0];
    SumAppend([], 10.0);
    SumAppend([10.0], 12.0);
    SumAppend([10.0, 12.0], 14.0);
    assert [10.0] + [12.0] == [10.0, 12.0] && [10.0, 12.0] + [14.0] == [10.0, 12.0, 14.0];
  }
}
