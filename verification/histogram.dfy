/** The two-dimensional histogram of CoupledOscillators/histogram.cpp. A point is binned by
    scaling its offset from the histogram's corner to the grid and truncating toward zero;
    only the resulting flat index is checked against the buffer. The float buffer is held as
    exact reals, so adding a value does not round. */
module Histogram {

  import opened Layout

  datatype Histogram2D = Histogram2D(dimensions: (int, int), minVal: (real, real), range: (real, real), arr: seq<real>)

  /** The conversion of a double to int: truncation toward zero. */
  function Trunc(r: real): (t: int)
    ensures r >= 0.0 ==> t as real <= r < t as real + 1.0
    ensures r < 0.0 ==> t as real - 1.0 < r <= t as real
  {
    if r >= 0.0 then r.Floor else -((-r).Floor)
  }

  /** The bin along one axis (CoupledOscillators/histogram.cpp:8-9). */
  function Bin(bins: int, v: real, lo: real, range: real): int
    requires range != 0.0
  {
    Trunc(bins as real * (v - lo) / range)
  }

  /** The point lies in the histogram's half-open window, and the window and the grid are
      not empty. */
  predicate InWindow(h: Histogram2D, x: real, y: real) {
    && h.range.0 > 0.0 && h.range.1 > 0.0 && h.dimensions.0 >= 1 && h.dimensions.1 >= 1
    && h.minVal.0 <= x < h.minVal.0 + h.range.0
    && h.minVal.1 <= y < h.minVal.1 + h.range.1
  }

  /** The flat index of the bin of (x, y), row j and column i (CoupledOscillators/histogram.cpp:10).
      A point inside the window gets an index inside the grid. */
  function BinIndex(h: Histogram2D, x: real, y: real): (r: int)
    requires h.range.0 != 0.0 && h.range.1 != 0.0
    ensures InWindow(h, x, y) ==> 0 <= r < h.dimensions.0 * h.dimensions.1
  {
    var i, j := Bin(h.dimensions.0, x, h.minVal.0, h.range.0), Bin(h.dimensions.1, y, h.minVal.1, h.range.1);
    assert InWindow(h, x, y) ==> 0 <= j * h.dimensions.0 + i < h.dimensions.0 * h.dimensions.1 by {
      if InWindow(h, x, y) {
        BinInRange(h.dimensions.0, x, h.minVal.0, h.range.0);
        BinInRange(h.dimensions.1, y, h.minVal.1, h.range.1);
        GridIndexBound(i, j, h.dimensions.0, h.dimensions.1);
      }
    }
    j * h.dimensions.0 + i
  }

  /** Row j, column i of a grid with `width` columns and `height` rows has a flat index in
      [0, width * height). */
  lemma GridIndexBound(i: int, j: int, width: int, height: int)
    requires 0 <= i < width && 0 <= j < height
    ensures 0 <= j * width + i < width * height
  {
    assert j * width + i < (j + 1) * width;
    assert (j + 1) * width <= height * width;
  }

  /** add_data_point (CoupledOscillators/histogram.cpp:4-13). A zero range divides by zero in
      the source and is excluded. */
  function AddDataPoint(h: Histogram2D, x: real, y: real, val: real): (h': Histogram2D)
    requires h.range.0 != 0.0 && h.range.1 != 0.0
    ensures h'.dimensions == h.dimensions && h'.minVal == h.minVal && h'.range == h.range
    ensures |h'.arr| == |h.arr|
    ensures forall k :: 0 <= k < |h.arr| && k != BinIndex(h, x, y) ==> h'.arr[k] == h.arr[k]
    ensures 0 <= BinIndex(h, x, y) < |h.arr| ==> h'.arr[BinIndex(h, x, y)] == h.arr[BinIndex(h, x, y)] + val
    ensures !(0 <= BinIndex(h, x, y) < |h.arr|) ==> h' == h
  {
    var ind := BinIndex(h, x, y);
    if 0 <= ind < |h.arr| then h.(arr := h.arr[ind := h.arr[ind] + val]) else h
  }

  /** The total of the buffer. */
  function Total(s: seq<real>): real {
    if |s| == 0 then 0.0 else Total(s[..|s| - 1]) + s[|s| - 1]
  }

  lemma {:induction false} TotalUpdate(s: seq<real>, k: nat, v: real)
    requires k < |s|
    ensures Total(s[k := s[k] + v]) == Total(s) + v
    decreases |s|
  {
    var t := s[k := s[k] + v];
    assert t[..|t| - 1] == if k < |s| - 1 then s[..|s| - 1][k := s[k] + v] else s[..|s| - 1];
    if k < |s| - 1 {
      TotalUpdate(s[..|s| - 1], k, v);
    }
  }

  /** Adding a point adds its value to the histogram's total when it lands in the buffer,
      and nothing otherwise. */
  lemma AddDataPointTotal(h: Histogram2D, x: real, y: real, val: real)
    requires h.range.0 != 0.0 && h.range.1 != 0.0
    ensures var ind := BinIndex(h, x, y);
            Total(AddDataPoint(h, x, y, val).arr) == Total(h.arr) + (if 0 <= ind < |h.arr| then val else 0.0)
  {
    var ind := BinIndex(h, x, y);
    if 0 <= ind < |h.arr| {
      TotalUpdate(h.arr, ind, val);
    }
  }

  /** Points can be added in either order: the histogram ends up the same. */
  lemma AddDataPointCommutes(h: Histogram2D, x1: real, y1: real, v1: real, x2: real, y2: real, v2: real)
    requires h.range.0 != 0.0 && h.range.1 != 0.0
    ensures AddDataPoint(AddDataPoint(h, x1, y1, v1), x2, y2, v2) == AddDataPoint(AddDataPoint(h, x2, y2, v2), x1, y1, v1)
  {
    var a := AddDataPoint(AddDataPoint(h, x1, y1, v1), x2, y2, v2);
    var b := AddDataPoint(AddDataPoint(h, x2, y2, v2), x1, y1, v1);
    assert BinIndex(AddDataPoint(h, x1, y1, v1), x2, y2) == BinIndex(h, x2, y2);
    assert BinIndex(AddDataPoint(h, x2, y2, v2), x1, y1) == BinIndex(h, x1, y1);
    assert a.arr == b.arr;
  }

  /** Truncation toward zero sends a point less than one bin below the corner to bin 0. */
  lemma JustBelowLandsInFirstBin(bins: int, v: real, lo: real, range: real)
    requires range != 0.0
    requires -1.0 < bins as real * (v - lo) / range < 0.0
    ensures Bin(bins, v, lo, range) == 0
  {
  }

  /** A point inside the histogram's window lands in the cell of its column and row. */
  lemma InsideWindowLandsInGrid(h: Histogram2D, x: real, y: real)
    requires InWindow(h, x, y)
    ensures var i, j := Bin(h.dimensions.0, x, h.minVal.0, h.range.0), Bin(h.dimensions.1, y, h.minVal.1, h.range.1);
            && 0 <= i < h.dimensions.0 && 0 <= j < h.dimensions.1
            && BinIndex(h, x, y) == Flat(j, i, h.dimensions.0)
  {
    var i, j := Bin(h.dimensions.0, x, h.minVal.0, h.range.0), Bin(h.dimensions.1, y, h.minVal.1, h.range.1);
    BinInRange(h.dimensions.0, x, h.minVal.0, h.range.0);
    BinInRange(h.dimensions.1, y, h.minVal.1, h.range.1);
    FlatIsProduct(j, i, h.dimensions.0);
  }

  /** A value inside [lo, lo + range) falls in one of the `bins` bins. */
  lemma BinInRange(bins: int, v: real, lo: real, range: real)
    requires range > 0.0 && bins >= 1 && lo <= v < lo + range
    ensures 0 <= Bin(bins, v, lo, range) < bins
  {
    var a := bins as real * (v - lo) / range;
    assert Bin(bins, v, lo, range) == Trunc(a);
    ScaledFractionBounds(bins as real, v - lo, range);
    assert 0.0 <= a < bins as real;
  }

  /** d * w / range lies in [0, d) when w lies in [0, range). */
  lemma ScaledFractionBounds(d: real, w: real, range: real)
    requires range > 0.0 && d >= 1.0 && 0.0 <= w < range
    ensures 0.0 <= d * w / range < d
  {
    var t := w / range;
    assert t * range == w;
    assert 0.0 <= t;
    var gap := (range - w) / range;
    assert gap > 0.0;
    assert gap * range == range - w;
    assert (t + gap - 1.0) * range == 0.0;
    assert t + gap == 1.0;
    assert d * w / range == d * t;
    assert d * t < d * 1.0;
  }

  /** Only the flat index is checked: in a 2 by 2 histogram over [0, 1) squared, the point
      (1.25, 0.25), right of the window, is counted in the first cell of the second row. */
  lemma ColumnNotChecked()
    ensures var h := Histogram2D((2, 2), (0.0, 0.0), (1.0, 1.0), [0.0, 0.0, 0.0, 0.0]);
            AddDataPoint(h, 1.25, 0.25, 1.0).arr == [0.0, 0.0, 1.0, 0.0]
  {
    var h := Histogram2D((2, 2), (0.0, 0.0), (1.0, 1.0), [0.0, 0.0, 0.0, 0.0]);
    assert Bin(2, 1.25, 0.0, 1.0) == 2;
    assert Bin(2, 0.25, 0.0, 1.0) == 0;
  }
}
