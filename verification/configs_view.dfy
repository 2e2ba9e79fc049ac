/** The line meshes of CoupledOscillators/configs_view.cpp, which draw each sampled
    configuration as a row of displacements: the configs buffer is cut into
    `numberOfConfigs` rows of `RowSize` samples, sample c of a row is drawn at a screen x
    spread over [-1, 1] and at its displacement as y. The vertex y values are the double
    samples themselves; their narrowing to float is not modelled. */
module ConfigsView {

  import opened WireFrame
  import opened Layout

  /** The view types (CoupledOscillators/configs_view.hpp:8-11). */
  const LinesWithZeroEndpoints: int := 0
  const LinesPeriodic: int := 1
  const LinesNoEndpoints: int := 2
  const DisconnectedLines: int := 3

  /** `configs.size()/number_of_configs` (CoupledOscillators/configs_view.cpp:10). The
      division is unsigned: a negative count becomes a divisor larger than any buffer, so
      the row size is 0. A zero count divides by zero and is excluded. */
  function RowSize(configs: seq<real>, numberOfConfigs: int): (rs: nat)
    requires numberOfConfigs != 0
    ensures numberOfConfigs > 0 ==> numberOfConfigs * rs <= |configs| < numberOfConfigs * (rs + 1)
    ensures numberOfConfigs < 0 ==> rs == 0
  {
    if numberOfConfigs > 0 then
      var q := |configs| / numberOfConfigs;
      assert |configs| == numberOfConfigs * q + |configs| % numberOfConfigs;
      q
    else 0
  }

  /** The rows the outer loop draws: none for a negative count. */
  function RowCount(numberOfConfigs: int): nat {
    if numberOfConfigs > 0 then numberOfConfigs else 0
  }

  /** x of sample c in the plain view: the middle of its cell
      (CoupledOscillators/configs_view.cpp:14). */
  function PlainX(c: nat, rowSize: nat): real
    requires c < rowSize
  {
    Across(c as real + 0.5, rowSize as real)
  }

  lemma PlainXFacts(rowSize: nat)
    ensures forall c: nat :: c < rowSize ==> -1.0 < PlainX(c, rowSize) < 1.0
    ensures forall c1: nat, c2: nat :: c1 < c2 < rowSize ==> PlainX(c1, rowSize) < PlainX(c2, rowSize)
  {
    forall c: nat | c < rowSize
      ensures -1.0 < PlainX(c, rowSize) < 1.0
    {
      AcrossBounds(c as real + 0.5, rowSize as real);
    }
    forall c1: nat, c2: nat | c1 < c2 < rowSize
      ensures PlainX(c1, rowSize) < PlainX(c2, rowSize)
    {
      AcrossMonotone(c1 as real + 0.5, c2 as real + 0.5, rowSize as real);
    }
  }

  /** One row of the plain view, the samples from index `start` on: a vertex per sample
      (CoupledOscillators/configs_view.cpp:12-23). */
  function PlainRow(configs: seq<real>, rowSize: nat, start: nat): (points: seq<Point>)
    requires start + rowSize <= |configs|
    ensures |points| == rowSize
    ensures forall c :: 0 <= c < rowSize ==> points[c].1 == configs[start + c]
  {
    seq(rowSize, c requires 0 <= c < rowSize => (PlainX(c, rowSize), configs[start + c]))
  }

  /** get_vertices_set_elements (CoupledOscillators/configs_view.cpp:4-26) for the first
      `rows` rows: each sample is a vertex, and each sample after the first in its row is
      joined to the one before it. */
  function PlainLines(configs: seq<real>, rows: nat, rowSize: nat): (m: Mesh)
    requires Rows(rowSize, rows) <= |configs|
    ensures Chained(m)
    ensures |m.vertices| == Rows(rowSize, rows)
    ensures rowSize > 0 ==> |m.segments| == Rows(rowSize - 1, rows)
    ensures rowSize == 0 ==> |m.segments| == 0
  {
    if rows == 0 then Empty
    else
      var prev := PlainLines(configs, rows - 1, rowSize);
      LinkCountClosed(AllButFirst, rowSize);
      AddPoints(prev, PlainRow(configs, rowSize, Rows(rowSize, rows - 1)), AllButFirst)
  }

  /** In the plain view every segment runs rightward and every vertex lies on screen. */
  lemma {:induction false} PlainLinesShape(configs: seq<real>, rows: nat, rowSize: nat)
    requires Rows(rowSize, rows) <= |configs|
    ensures var m := PlainLines(configs, rows, rowSize);
            RightwardWithin(m, -1.0, 1.0)
  {
    if rows > 0 {
      PlainLinesShape(configs, rows - 1, rowSize);
      var prev := PlainLines(configs, rows - 1, rowSize);
      var points := PlainRow(configs, rowSize, Rows(rowSize, rows - 1));
      PlainRowSteps(configs, rowSize, Rows(rowSize, rows - 1));
      AddPointsShape(prev, points, AllButFirst, -1.0, 1.0);
      assert PlainLines(configs, rows, rowSize) == AddPoints(prev, points, AllButFirst);
    } else {
      assert PlainLines(configs, rows, rowSize) == Empty;
    }
  }

  /** A plain row runs strictly left to right inside the screen. */
  lemma PlainRowOrdered(configs: seq<real>, rowSize: nat, start: nat)
    requires start + rowSize <= |configs|
    ensures var points := PlainRow(configs, rowSize, start);
            && (forall c :: 0 <= c < |points| ==> -1.0 < points[c].0 < 1.0)
            && forall c1, c2 :: 0 <= c1 < c2 < |points| ==> points[c1].0 < points[c2].0
  {
    PlainXFacts(rowSize);
  }

  /** Hence each of its points lies right of the one before. */
  lemma PlainRowSteps(configs: seq<real>, rowSize: nat, start: nat)
    requires start + rowSize <= |configs|
    ensures var points := PlainRow(configs, rowSize, start);
            RowRightwardWithin(points, AllButFirst, -1.0, 1.0)
  {
    PlainRowOrdered(configs, rowSize, start);
  }

  /** In the plain view vertex v is drawn at the height of sample v. */
  lemma {:induction false} PlainLinesFollowSamples(configs: seq<real>, rows: nat, rowSize: nat)
    requires Rows(rowSize, rows) <= |configs|
    ensures var m := PlainLines(configs, rows, rowSize);
            forall v :: 0 <= v < |m.vertices| ==> m.vertices[v].1 == configs[v]
  {
    if rows > 0 {
      PlainLinesFollowSamples(configs, rows - 1, rowSize);
      var base := Rows(rowSize, rows - 1);
      var prev := PlainLines(configs, rows - 1, rowSize);
      var points := PlainRow(configs, rowSize, base);
      var m := PlainLines(configs, rows, rowSize);
      assert m.vertices == prev.vertices + points && |prev.vertices| == base;
      forall v | base <= v < |m.vertices|
        ensures m.vertices[v].1 == configs[v]
      {
        assert m.vertices[v] == points[v - base];
      }
    }
  }

  /** x of the k-th of the two vertices per sample in the disconnected view: at 0.26 and
      0.74 of the sample's cell (CoupledOscillators/configs_view.cpp:38, 43). */
  function DisconnectedX(k: nat, rowSize: nat): real
    requires k < 2 * rowSize
  {
    Across((k / 2) as real + (if k % 2 == 0 then 0.26 else 0.74), rowSize as real)
  }

  lemma DisconnectedXFacts(rowSize: nat)
    ensures forall k: nat :: k < 2 * rowSize ==> -1.0 < DisconnectedX(k, rowSize) < 1.0
    ensures forall k1: nat, k2: nat :: k1 < k2 < 2 * rowSize ==> DisconnectedX(k1, rowSize) < DisconnectedX(k2, rowSize)
  {
    forall k: nat | k < 2 * rowSize
      ensures -1.0 < DisconnectedX(k, rowSize) < 1.0
    {
      AcrossBounds((k / 2) as real + (if k % 2 == 0 then 0.26 else 0.74), rowSize as real);
    }
    forall k1: nat, k2: nat | k1 < k2 < 2 * rowSize
      ensures DisconnectedX(k1, rowSize) < DisconnectedX(k2, rowSize)
    {
      var t1 := (k1 / 2) as real + (if k1 % 2 == 0 then 0.26 else 0.74);
      var t2 := (k2 / 2) as real + (if k2 % 2 == 0 then 0.26 else 0.74);
      assert k1 / 2 < k2 / 2 || (k1 % 2 == 0 && k2 % 2 == 1);
      AcrossMonotone(t1, t2, rowSize as real);
    }
  }

  /** One row of the disconnected view: two vertices per sample, both at the sample's y
      (CoupledOscillators/configs_view.cpp:36-50). */
  function DisconnectedRow(configs: seq<real>, rowSize: nat, start: nat): (points: seq<Point>)
    requires start + rowSize <= |configs|
    ensures |points| == 2 * rowSize
    ensures forall k :: 0 <= k < 2 * rowSize ==> points[k].1 == configs[start + k / 2]
    ensures StepsLevel(points, OddOnly)
  {
    seq(2 * rowSize, k requires 0 <= k < 2 * rowSize => (DisconnectedX(k, rowSize), configs[start + k / 2]))
  }

  /** get_vertices_set_elements_with_disconnected (CoupledOscillators/configs_view.cpp:28-53)
      for the first `rows` rows: a short segment per sample, and no segment between
      samples. */
  function DisconnectedLinesMesh(configs: seq<real>, rows: nat, rowSize: nat): (m: Mesh)
    requires Rows(rowSize, rows) <= |configs|
    ensures Chained(m)
    ensures |m.vertices| == 2 * Rows(rowSize, rows)
    ensures |m.segments| == Rows(rowSize, rows)
  {
    if rows == 0 then Empty
    else
      var prev := DisconnectedLinesMesh(configs, rows - 1, rowSize);
      LinkCountClosed(OddOnly, 2 * rowSize);
      AddPoints(prev, DisconnectedRow(configs, rowSize, Rows(rowSize, rows - 1)), OddOnly)
  }

  /** In the disconnected view every segment runs rightward and every vertex lies on
      screen. */
  lemma {:induction false} DisconnectedLinesShape(configs: seq<real>, rows: nat, rowSize: nat)
    requires Rows(rowSize, rows) <= |configs|
    ensures RightwardWithin(DisconnectedLinesMesh(configs, rows, rowSize), -1.0, 1.0)
  {
    if rows > 0 {
      DisconnectedLinesShape(configs, rows - 1, rowSize);
      var prev := DisconnectedLinesMesh(configs, rows - 1, rowSize);
      var points := DisconnectedRow(configs, rowSize, Rows(rowSize, rows - 1));
      DisconnectedRowSteps(configs, rowSize, Rows(rowSize, rows - 1));
      AddPointsShape(prev, points, OddOnly, -1.0, 1.0);
      assert DisconnectedLinesMesh(configs, rows, rowSize) == AddPoints(prev, points, OddOnly);
    } else {
      assert DisconnectedLinesMesh(configs, rows, rowSize) == Empty;
    }
  }

  /** In the disconnected view every segment is level: it joins the two vertices of one
      sample. */
  lemma {:induction false} DisconnectedLinesLevel(configs: seq<real>, rows: nat, rowSize: nat)
    requires Rows(rowSize, rows) <= |configs|
    ensures Level(DisconnectedLinesMesh(configs, rows, rowSize))
  {
    if rows > 0 {
      DisconnectedLinesLevel(configs, rows - 1, rowSize);
      var prev := DisconnectedLinesMesh(configs, rows - 1, rowSize);
      var points := DisconnectedRow(configs, rowSize, Rows(rowSize, rows - 1));
      AddPointsLevel(prev, points, OddOnly);
      assert DisconnectedLinesMesh(configs, rows, rowSize) == AddPoints(prev, points, OddOnly);
    } else {
      assert DisconnectedLinesMesh(configs, rows, rowSize) == Empty;
    }
  }

  /** A disconnected row runs strictly left to right inside the screen. */
  lemma DisconnectedRowOrdered(configs: seq<real>, rowSize: nat, start: nat)
    requires start + rowSize <= |configs|
    ensures var points := DisconnectedRow(configs, rowSize, start);
            && (forall k :: 0 <= k < |points| ==> -1.0 < points[k].0 < 1.0)
            && forall k1, k2 :: 0 <= k1 < k2 < |points| ==> points[k1].0 < points[k2].0
  {
    DisconnectedXFacts(rowSize);
  }

  /** Hence each of its points lies right of the one before. */
  lemma DisconnectedRowSteps(configs: seq<real>, rowSize: nat, start: nat)
    requires start + rowSize <= |configs|
    ensures var points := DisconnectedRow(configs, rowSize, start);
            RowRightwardWithin(points, OddOnly, -1.0, 1.0)
  {
    DisconnectedRowOrdered(configs, rowSize, start);
  }

  /** In the disconnected view both vertices 2s and 2s + 1 are drawn at the height of
      sample s. */
  lemma {:induction false} DisconnectedLinesFollowSamples(configs: seq<real>, rows: nat, rowSize: nat)
    requires Rows(rowSize, rows) <= |configs|
    ensures var m := DisconnectedLinesMesh(configs, rows, rowSize);
            forall v :: 0 <= v < |m.vertices| ==> m.vertices[v].1 == configs[v / 2]
  {
    if rows > 0 {
      DisconnectedLinesFollowSamples(configs, rows - 1, rowSize);
      var start := Rows(rowSize, rows - 1);
      var base := 2 * start;
      var prev := DisconnectedLinesMesh(configs, rows - 1, rowSize);
      var points := DisconnectedRow(configs, rowSize, start);
      var m := DisconnectedLinesMesh(configs, rows, rowSize);
      assert m.vertices == prev.vertices + points && |prev.vertices| == base;
      forall v | base <= v < |m.vertices|
        ensures m.vertices[v].1 == configs[v / 2]
      {
        var k := v - base;
        assert m.vertices[v] == points[k];
        assert v / 2 == start + k / 2;
      }
    }
  }

  /** x of sample c in the views with end vertices: sample c of rowSize sits at c + 1 of
      rowSize + 1 cells (CoupledOscillators/configs_view.cpp:69, 100). */
  function BracketedX(c: nat, rowSize: nat): real
    requires c < rowSize
  {
    Across((c + 1) as real, (rowSize + 1) as real)
  }

  lemma BracketedXFacts(rowSize: nat)
    ensures forall c: nat :: c < rowSize ==> -1.0 < BracketedX(c, rowSize) < 1.0
    ensures forall c1: nat, c2: nat :: c1 < c2 < rowSize ==> BracketedX(c1, rowSize) < BracketedX(c2, rowSize)
  {
    forall c: nat | c < rowSize
      ensures -1.0 < BracketedX(c, rowSize) < 1.0
    {
      AcrossBounds((c + 1) as real, (rowSize + 1) as real);
    }
    forall c1: nat, c2: nat | c1 < c2 < rowSize
      ensures BracketedX(c1, rowSize) < BracketedX(c2, rowSize)
    {
      AcrossMonotone((c1 + 1) as real, (c2 + 1) as real, (rowSize + 1) as real);
    }
  }

  /** The end values of a row: zero in the zero-endpoints view; in the periodic view the
      left end repeats the row's last sample and the right end its first sample
      (CoupledOscillators/configs_view.cpp:63-64, 77-78, 94-95, 108-109). */
  function EndValues(configs: seq<real>, rowSize: nat, start: nat, periodic: bool): (ends: (real, real))
    requires start + rowSize <= |configs|
    requires periodic ==> rowSize >= 1
    ensures !periodic ==> ends == (0.0, 0.0)
    ensures periodic ==> ends == (configs[start + rowSize - 1], configs[start])
  {
    if periodic then (configs[start + rowSize - 1], configs[start]) else (0.0, 0.0)
  }

  /** One row bracketed by an end vertex at x = -1 and one at x = 1, carrying the row's
      end values, with the samples between them. */
  function BracketedRow(configs: seq<real>, rowSize: nat, start: nat, periodic: bool): (points: seq<Point>)
    requires start + rowSize <= |configs|
    requires periodic ==> rowSize >= 1
    ensures |points| == rowSize + 2
    ensures var ends := EndValues(configs, rowSize, start, periodic);
            points[0] == (-1.0, ends.0) && points[rowSize + 1] == (1.0, ends.1)
    ensures forall c :: 1 <= c <= rowSize ==> points[c].1 == configs[start + c - 1]
  {
    var ends := EndValues(configs, rowSize, start, periodic);
    var inner := seq(rowSize, c requires 0 <= c < rowSize => (BracketedX(c, rowSize), configs[start + c]));
    [(-1.0, ends.0)] + inner + [(1.0, ends.1)]
  }

  /** get_vertices_set_elements_with_endpoints and get_vertices_set_elements_periodic
      (CoupledOscillators/configs_view.cpp:55-84, 86-115) for the first `rows` rows: every
      row gets rowSize + 2 vertices joined in one unbroken line of rowSize + 1 segments. */
  function BracketedLines(configs: seq<real>, rows: nat, rowSize: nat, periodic: bool): (m: Mesh)
    requires Rows(rowSize, rows) <= |configs|
    requires periodic && rows > 0 ==> rowSize >= 1
    ensures Chained(m)
    ensures |m.vertices| == Rows(rowSize + 2, rows)
    ensures |m.segments| == Rows(rowSize + 1, rows)
  {
    if rows == 0 then Empty
    else
      var prev := BracketedLines(configs, rows - 1, rowSize, periodic);
      LinkCountClosed(AllButFirst, rowSize + 2);
      AddPoints(prev, BracketedRow(configs, rowSize, Rows(rowSize, rows - 1), periodic), AllButFirst)
  }

  /** In the bracketed views every segment runs rightward and every vertex lies on screen. */
  lemma {:induction false} BracketedLinesShape(configs: seq<real>, rows: nat, rowSize: nat, periodic: bool)
    requires Rows(rowSize, rows) <= |configs|
    requires periodic && rows > 0 ==> rowSize >= 1
    ensures var m := BracketedLines(configs, rows, rowSize, periodic);
            RightwardWithin(m, -1.0, 1.0)
  {
    if rows > 0 {
      BracketedLinesShape(configs, rows - 1, rowSize, periodic);
      BracketedLinesShapeStep(configs, rows, rowSize, periodic);
    } else {
      assert BracketedLines(configs, rows, rowSize, periodic) == Empty;
    }
  }

  /** The step of BracketedLinesShape: pushing one more bracketed row keeps the shape. */
  lemma BracketedLinesShapeStep(configs: seq<real>, rows: nat, rowSize: nat, periodic: bool)
    requires rows > 0 && Rows(rowSize, rows) <= |configs|
    requires periodic ==> rowSize >= 1
    requires RightwardWithin(BracketedLines(configs, rows - 1, rowSize, periodic), -1.0, 1.0)
    ensures RightwardWithin(BracketedLines(configs, rows, rowSize, periodic), -1.0, 1.0)
  {
    var prev := BracketedLines(configs, rows - 1, rowSize, periodic);
    var points := BracketedRow(configs, rowSize, Rows(rowSize, rows - 1), periodic);
    BracketedRowSteps(configs, rowSize, Rows(rowSize, rows - 1), periodic);
    AddPointsShape(prev, points, AllButFirst, -1.0, 1.0);
    assert BracketedLines(configs, rows, rowSize, periodic) == AddPoints(prev, points, AllButFirst);
  }

  /** A bracketed row runs strictly left to right from x = -1 to x = 1. */
  lemma BracketedRowOrdered(configs: seq<real>, rowSize: nat, start: nat, periodic: bool)
    requires start + rowSize <= |configs|
    requires periodic ==> rowSize >= 1
    ensures var points := BracketedRow(configs, rowSize, start, periodic);
            && (forall i :: 0 <= i < |points| ==> -1.0 <= points[i].0 <= 1.0)
            && forall i, j :: 0 <= i < j < |points| ==> points[i].0 < points[j].0
  {
    BracketedXFacts(rowSize);
  }

  /** Hence each of its points lies right of the one before. */
  lemma BracketedRowSteps(configs: seq<real>, rowSize: nat, start: nat, periodic: bool)
    requires start + rowSize <= |configs|
    requires periodic ==> rowSize >= 1
    ensures var points := BracketedRow(configs, rowSize, start, periodic);
            RowRightwardWithin(points, AllButFirst, -1.0, 1.0)
  {
    BracketedRowOrdered(configs, rowSize, start, periodic);
  }

  /** The rows the bracketed builders push: with zero ends each row starts at (-1, 0) and
      ends at (1, 0); with periodic ends the leading vertex repeats the height of the row's
      last sample and the trailing vertex that of its first. */
  lemma BracketedRowEnds(configs: seq<real>, rowSize: nat, start: nat, periodic: bool)
    requires start + rowSize <= |configs|
    requires periodic ==> rowSize >= 1
    ensures var points := BracketedRow(configs, rowSize, start, periodic);
            && (!periodic ==> points[0] == (-1.0, 0.0) && points[rowSize + 1] == (1.0, 0.0))
            && (periodic ==> points[0].1 == points[rowSize].1 && points[rowSize + 1].1 == points[1].1)
  {
  }

  /** get_configs_view_wire_frame (CoupledOscillators/configs_view.cpp:117-151). The
      periodic view reads the last sample of every row, so it needs at least one sample
      per row when it draws any row. */
  function ConfigsViewWireFrame(configs: seq<real>, numberOfConfigs: int, viewType: int): (m: Mesh)
    requires numberOfConfigs != 0
    requires viewType == LinesPeriodic && numberOfConfigs > 0 ==> RowSize(configs, numberOfConfigs) >= 1
    ensures Chained(m)
    ensures numberOfConfigs < 0 ==> m == Empty
  {
    var rows, rowSize := RowCount(numberOfConfigs), RowSize(configs, numberOfConfigs);
    RowsIsProduct(rowSize, rows);
    if viewType == LinesWithZeroEndpoints then BracketedLines(configs, rows, rowSize, false)
    else if viewType == LinesPeriodic then BracketedLines(configs, rows, rowSize, true)
    else if viewType == DisconnectedLines then DisconnectedLinesMesh(configs, rows, rowSize)
    else PlainLines(configs, rows, rowSize)
  }

  /** Whatever the view, every segment of the configs view runs rightward and every vertex
      lies on screen. */
  lemma ConfigsViewShape(configs: seq<real>, numberOfConfigs: int, viewType: int)
    requires numberOfConfigs != 0
    requires viewType == LinesPeriodic && numberOfConfigs > 0 ==> RowSize(configs, numberOfConfigs) >= 1
    ensures var m := ConfigsViewWireFrame(configs, numberOfConfigs, viewType);
            RightwardWithin(m, -1.0, 1.0)
  {
    var rows, rowSize := RowCount(numberOfConfigs), RowSize(configs, numberOfConfigs);
    RowsIsProduct(rowSize, rows);
    if viewType == LinesWithZeroEndpoints {
      BracketedLinesShape(configs, rows, rowSize, false);
    } else if viewType == LinesPeriodic {
      BracketedLinesShape(configs, rows, rowSize, true);
    } else if viewType == DisconnectedLines {
      DisconnectedLinesShape(configs, rows, rowSize);
    } else {
      PlainLinesShape(configs, rows, rowSize);
    }
  }

  /** A view type outside the enumeration draws the plain lines. */
  lemma UnknownViewIsPlain(configs: seq<real>, numberOfConfigs: int, viewType: int)
    requires numberOfConfigs != 0
    requires viewType !in {LinesWithZeroEndpoints, LinesPeriodic, LinesNoEndpoints, DisconnectedLines}
    ensures ConfigsViewWireFrame(configs, numberOfConfigs, viewType)
            == ConfigsViewWireFrame(configs, numberOfConfigs, LinesNoEndpoints)
  {
  }
}
