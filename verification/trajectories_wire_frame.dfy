/** The line meshes of CoupledOscillators/trajectories_wire_frame.cpp, which lay the
    recorded trajectories out on an integer grid: oscillator c of trajectory row r is drawn
    at x = c, y = r, before any scaling the renderer applies. The 0.24 offsets of the
    disconnected view are exact reals here; their narrowing to float is not modelled. */
module TrajectoriesWireFrame {

  import opened WireFrame
  import opened Layout

  /** The view types (CoupledOscillators/trajectories_wire_frame.hpp:9-12). */
  const LinesWithZeroEndpoints: int := 0
  const LinesPeriodic: int := 1
  const LinesNoEndpoints: int := 2
  const DisconnectedLines: int := 3

  /** The number of times a `for (i = 0; i < n; i++)` loop runs. */
  function Trips(n: int): (t: nat)
    ensures n >= 0 ==> t == n
    ensures n < 0 ==> t == 0
  {
    if n > 0 then n else 0
  }

  /** One row of the plain view: oscillator c at (c, row)
      (CoupledOscillators/trajectories_wire_frame.cpp:9-18). */
  function PlainRow(columns: nat, row: nat): (points: seq<Point>)
    ensures |points| == columns
    ensures forall c :: 0 <= c < columns ==> points[c] == (c as real, row as real)
    ensures StepsRight(points, AllButFirst) && StepsLevel(points, AllButFirst)
  {
    seq(columns, c requires 0 <= c < columns => (c as real, row as real))
  }

  /** get_vertices_set_elements (CoupledOscillators/trajectories_wire_frame.cpp:3-21) for
      `rows` trajectories of `columns` oscillators: a vertex per oscillator, joined to the
      one before it in its row. */
  function PlainLines(rows: nat, columns: nat): (m: Mesh)
    ensures Chained(m)
    ensures |m.vertices| == Rows(columns, rows)
    ensures columns > 0 ==> |m.segments| == Rows(columns - 1, rows)
    ensures columns == 0 ==> |m.segments| == 0
  {
    if rows == 0 then Empty
    else
      LinkCountClosed(AllButFirst, columns);
      AddPoints(PlainLines(rows - 1, columns), PlainRow(columns, rows - 1), AllButFirst)
  }

  /** Where vertex v of a grid of the given width sits: at column v % width of row
      v / width. */
  function GridPoint(v: nat, width: nat): Point
    requires width > 0
  {
    ((v % width) as real, (v / width) as real)
  }

  ghost predicate OnGrid(vertices: seq<Point>, width: nat) {
    forall v :: 0 <= v < |vertices| && width > 0 ==> vertices[v] == GridPoint(v, width)
  }

  /** Appending row `row` of the grid keeps the vertex list on the grid. */
  lemma AppendOnGrid(vertices: seq<Point>, points: seq<Point>, width: nat, row: nat)
    requires OnGrid(vertices, width) && |vertices| == Rows(width, row) && |points| == width
    requires forall c :: 0 <= c < width ==> points[c] == (c as real, row as real)
    ensures OnGrid(vertices + points, width)
  {
    var all := vertices + points;
    forall v | |vertices| <= v < |all| && width > 0
      ensures all[v] == GridPoint(v, width)
    {
      var c := v - |vertices|;
      assert all[v] == points[c];
      FlatDivMod(row, c, width);
    }
  }

  /** In the plain view vertex v is oscillator v % columns of trajectory v / columns. */
  lemma {:induction false} PlainLinesOnGrid(rows: nat, columns: nat)
    ensures OnGrid(PlainLines(rows, columns).vertices, columns)
  {
    if rows > 0 {
      PlainLinesOnGrid(rows - 1, columns);
      var prev, points := PlainLines(rows - 1, columns), PlainRow(columns, rows - 1);
      assert PlainLines(rows, columns).vertices == prev.vertices + points;
      AppendOnGrid(prev.vertices, points, columns, rows - 1);
    } else {
      assert PlainLines(rows, columns) == Empty;
    }
  }

  /** In the plain view every segment is level and runs rightward. */
  lemma {:induction false} PlainLinesShape(rows: nat, columns: nat)
    ensures var m := PlainLines(rows, columns);
            Rightward(m) && Level(m)
  {
    if rows > 0 {
      PlainLinesShape(rows - 1, columns);
      var prev, points := PlainLines(rows - 1, columns), PlainRow(columns, rows - 1);
      assert PlainLines(rows, columns) == AddPoints(prev, points, AllButFirst);
      AddPointsRightward(prev, points, AllButFirst);
      AddPointsLevel(prev, points, AllButFirst);
    } else {
      assert PlainLines(rows, columns) == Empty;
    }
  }

  /** x of the k-th of the two vertices per oscillator in the disconnected view: 0.24 left
      and right of the oscillator's column (CoupledOscillators/trajectories_wire_frame.cpp:30, 33). */
  function DisconnectedX(k: nat): real {
    (k / 2) as real + (if k % 2 == 0 then -0.24 else 0.24)
  }

  /** One row of the disconnected view: a short level segment around each oscillator's
      column (CoupledOscillators/trajectories_wire_frame.cpp:29-38). */
  function DisconnectedRow(columns: nat, row: nat): (points: seq<Point>)
    ensures |points| == 2 * columns
    ensures forall k :: 0 <= k < 2 * columns ==> points[k] == (DisconnectedX(k), row as real)
    ensures StepsRight(points, OddOnly) && StepsLevel(points, OddOnly)
  {
    seq(2 * columns, k requires 0 <= k < 2 * columns => (DisconnectedX(k), row as real))
  }

  /** get_vertices_set_elements_with_disconnected
      (CoupledOscillators/trajectories_wire_frame.cpp:23-42): two vertices and one segment
      per oscillator, no segment between oscillators. */
  function DisconnectedLinesMesh(rows: nat, columns: nat): (m: Mesh)
    ensures Chained(m)
    ensures |m.vertices| == 2 * Rows(columns, rows)
    ensures |m.segments| == Rows(columns, rows)
  {
    if rows == 0 then Empty
    else
      LinkCountClosed(OddOnly, 2 * columns);
      AddPoints(DisconnectedLinesMesh(rows - 1, columns), DisconnectedRow(columns, rows - 1), OddOnly)
  }

  /** Vertices 2s and 2s + 1 of the disconnected grid flank column s % width of row
      s / width. */
  function SplitGridPoint(v: nat, width: nat): Point
    requires width > 0
  {
    (((v / 2) % width) as real + (if v % 2 == 0 then -0.24 else 0.24), ((v / 2) / width) as real)
  }

  ghost predicate OnSplitGrid(vertices: seq<Point>, width: nat) {
    forall v :: 0 <= v < |vertices| && width > 0 ==> vertices[v] == SplitGridPoint(v, width)
  }

  /** Appending row `row` of the disconnected grid keeps the vertex list on it. */
  lemma AppendOnSplitGrid(vertices: seq<Point>, points: seq<Point>, width: nat, row: nat)
    requires OnSplitGrid(vertices, width) && |vertices| == 2 * Rows(width, row) && |points| == 2 * width
    requires forall k :: 0 <= k < 2 * width ==> points[k] == (DisconnectedX(k), row as real)
    ensures OnSplitGrid(vertices + points, width)
  {
    var all, base := vertices + points, Rows(width, row);
    forall v | 2 * base <= v < |all| && width > 0
      ensures all[v] == SplitGridPoint(v, width)
    {
      var k := v - 2 * base;
      assert all[v] == points[k];
      assert v / 2 == base + k / 2 && v % 2 == k % 2;
      FlatDivMod(row, k / 2, width);
    }
  }

  /** In the disconnected view vertices 2s and 2s + 1 flank oscillator s % columns of
      trajectory s / columns. */
  lemma {:induction false} DisconnectedLinesOnGrid(rows: nat, columns: nat)
    ensures OnSplitGrid(DisconnectedLinesMesh(rows, columns).vertices, columns)
  {
    if rows > 0 {
      DisconnectedLinesOnGrid(rows - 1, columns);
      var prev, points := DisconnectedLinesMesh(rows - 1, columns), DisconnectedRow(columns, rows - 1);
      assert DisconnectedLinesMesh(rows, columns).vertices == prev.vertices + points;
      AppendOnSplitGrid(prev.vertices, points, columns, rows - 1);
    } else {
      assert DisconnectedLinesMesh(rows, columns) == Empty;
    }
  }

  /** In the disconnected view every segment is level and runs rightward. */
  lemma {:induction false} DisconnectedLinesShape(rows: nat, columns: nat)
    ensures var m := DisconnectedLinesMesh(rows, columns);
            Rightward(m) && Level(m)
  {
    if rows > 0 {
      DisconnectedLinesShape(rows - 1, columns);
      var prev, points := DisconnectedLinesMesh(rows - 1, columns), DisconnectedRow(columns, rows - 1);
      assert DisconnectedLinesMesh(rows, columns) == AddPoints(prev, points, OddOnly);
      AddPointsRightward(prev, points, OddOnly);
      AddPointsLevel(prev, points, OddOnly);
    } else {
      assert DisconnectedLinesMesh(rows, columns) == Empty;
    }
  }

  /** One row of the view with end vertices: (-1, row), then each oscillator at (c, row),
      then (n, row), all joined in one line
      (CoupledOscillators/trajectories_wire_frame.cpp:50-65). With a negative oscillator
      count the inner loop does not run but the closing vertex is still pushed at x = n. */
  function EndpointsRow(n: int, row: nat): (points: seq<Point>)
    ensures |points| == Trips(n) + 2
    ensures points[0] == (-1.0, row as real) && points[Trips(n) + 1] == (n as real, row as real)
    ensures forall c :: 1 <= c <= Trips(n) ==> points[c] == ((c - 1) as real, row as real)
    ensures StepsLevel(points, AllButFirst)
    ensures n >= 0 ==> StepsRight(points, AllButFirst)
  {
    var inner := seq(Trips(n), c requires 0 <= c < Trips(n) => (c as real, row as real));
    [(-1.0, row as real)] + inner + [(n as real, row as real)]
  }

  /** get_vertices_set_elements_with_endpoints
      (CoupledOscillators/trajectories_wire_frame.cpp:44-68). */
  function EndpointsLines(rows: nat, n: int): (m: Mesh)
    ensures Chained(m)
    ensures |m.vertices| == Rows(Trips(n) + 2, rows)
    ensures |m.segments| == Rows(Trips(n) + 1, rows)
  {
    if rows == 0 then Empty
    else
      LinkCountClosed(AllButFirst, Trips(n) + 2);
      AddPoints(EndpointsLines(rows - 1, n), EndpointsRow(n, rows - 1), AllButFirst)
  }

  /** For n >= 0, vertex v of the bracketed grid of width n + 2 sits at x = v % (n + 2) - 1
      of row v / (n + 2): the end vertices land at x = -1 and x = n. */
  function BracketedGridPoint(v: nat, n: nat): Point {
    ((v % (n + 2) - 1) as real, (v / (n + 2)) as real)
  }

  ghost predicate OnBracketedGrid(vertices: seq<Point>, n: nat) {
    forall v :: 0 <= v < |vertices| ==> vertices[v] == BracketedGridPoint(v, n)
  }

  /** Appending row `row` of the bracketed grid keeps the vertex list on it. */
  lemma AppendOnBracketedGrid(vertices: seq<Point>, points: seq<Point>, n: nat, row: nat)
    requires OnBracketedGrid(vertices, n) && |vertices| == Rows(n + 2, row) && |points| == n + 2
    requires forall c :: 0 <= c < n + 2 ==> points[c] == ((c - 1) as real, row as real)
    ensures OnBracketedGrid(vertices + points, n)
  {
    var all := vertices + points;
    forall v | |vertices| <= v < |all|
      ensures all[v] == BracketedGridPoint(v, n)
    {
      var c := v - |vertices|;
      assert all[v] == points[c];
      FlatDivMod(row, c, n + 2);
    }
  }

  /** With a non-negative oscillator count, vertex c of a row sits at x = c - 1. */
  lemma EndpointsRowOnGrid(n: nat, row: nat)
    ensures forall c :: 0 <= c < n + 2 ==> EndpointsRow(n, row)[c] == ((c - 1) as real, row as real)
  {
    var points := EndpointsRow(n, row);
    forall c | 0 <= c < n + 2
      ensures points[c] == ((c - 1) as real, row as real)
    {
      if 0 < c < n + 1 {
        assert 1 <= c <= Trips(n);
      }
    }
  }

  /** With a non-negative oscillator count every vertex of the view with end vertices sits
      on the bracketed grid. */
  lemma {:induction false} EndpointsLinesOnGrid(rows: nat, n: nat)
    ensures OnBracketedGrid(EndpointsLines(rows, n).vertices, n)
  {
    if rows > 0 {
      EndpointsLinesOnGrid(rows - 1, n);
      EndpointsLinesOnGridStep(rows, n);
    } else {
      assert EndpointsLines(rows, n) == Empty;
    }
  }

  /** Adding a row keeps the view with end vertices on the bracketed grid. */
  lemma EndpointsLinesOnGridStep(rows: nat, n: nat)
    requires rows > 0 && OnBracketedGrid(EndpointsLines(rows - 1, n).vertices, n)
    ensures OnBracketedGrid(EndpointsLines(rows, n).vertices, n)
  {
    EndpointsRowOnGrid(n, rows - 1);
    var prev, points := EndpointsLines(rows - 1, n), EndpointsRow(n, rows - 1);
    assert EndpointsLines(rows, n).vertices == prev.vertices + points;
    AppendOnBracketedGrid(prev.vertices, points, n, rows - 1);
  }

  /** In the view with end vertices every segment is level, and with a non-negative
      oscillator count every segment runs rightward. */
  lemma {:induction false} EndpointsLinesShape(rows: nat, n: int)
    ensures var m := EndpointsLines(rows, n);
            Level(m) && (n >= 0 ==> Rightward(m))
  {
    if rows > 0 {
      EndpointsLinesShape(rows - 1, n);
      var prev, points := EndpointsLines(rows - 1, n), EndpointsRow(n, rows - 1);
      assert EndpointsLines(rows, n) == AddPoints(prev, points, AllButFirst);
      AddPointsLevel(prev, points, AllButFirst);
      if n >= 0 {
        AddPointsRightward(prev, points, AllButFirst);
      }
    } else {
      assert EndpointsLines(rows, n) == Empty;
    }
  }

  /** With a negative oscillator count each row is the two end vertices (-1, row) and
      (n, row) joined by one segment, which runs leftward, or has zero length for n = -1. */
  lemma NegativeCountKeepsEnds(n: int)
    requires n < 0
    ensures var m := EndpointsLines(1, n);
            && m.vertices == [(-1.0, 0.0), (n as real, 0.0)] && m.segments == [(0, 1)]
            && !Rightward(m)
  {
    var m := EndpointsLines(1, n);
    assert m.vertices == [(-1.0, 0.0), (n as real, 0.0)];
    assert m.segments == RowSegments(0, 2, AllButFirst);
    assert RowSegments(0, 2, AllButFirst) == [(0, 1)];
    assert m.vertices[m.segments[0].0].0 >= m.vertices[m.segments[0].1].0;
  }

  /** trajectories_wire_frame::get (CoupledOscillators/trajectories_wire_frame.cpp:70-96):
      the zero-endpoints and periodic views share the builder with end vertices, the
      disconnected view has its own, and every other view type draws plain lines. */
  function Trajectories(totalCount: int, n: int, viewType: int): (m: Mesh)
    ensures Chained(m)
    ensures totalCount <= 0 ==> m == Empty
    ensures n <= 0 && viewType != LinesWithZeroEndpoints && viewType != LinesPeriodic ==> m.vertices == []
  {
    var rows := Trips(totalCount);
    RowsIsProduct(0, rows);
    if viewType == LinesWithZeroEndpoints || viewType == LinesPeriodic then EndpointsLines(rows, n)
    else if viewType == DisconnectedLines then DisconnectedLinesMesh(rows, Trips(n))
    else PlainLines(rows, Trips(n))
  }

  /** Every view draws each segment within one trajectory row, so every segment is level;
      every view except the one with end vertices also runs every segment rightward, and
      that one does too once the oscillator count is not negative. */
  lemma TrajectoriesShape(totalCount: int, n: int, viewType: int)
    ensures var m := Trajectories(totalCount, n, viewType);
            && Level(m)
            && (n >= 0 || (viewType != LinesWithZeroEndpoints && viewType != LinesPeriodic) ==> Rightward(m))
  {
    var rows := Trips(totalCount);
    EndpointsLinesShape(rows, n);
    DisconnectedLinesShape(rows, Trips(n));
    PlainLinesShape(rows, Trips(n));
  }

  /** The vertex and segment counts of each view, as products of the row count. */
  lemma TrajectoriesCounts(totalCount: int, n: int, viewType: int)
    ensures var m, rows, cols := Trajectories(totalCount, n, viewType), Trips(totalCount), Trips(n);
            && (viewType == LinesWithZeroEndpoints || viewType == LinesPeriodic ==>
                  |m.vertices| == rows * (cols + 2) && |m.segments| == rows * (cols + 1))
            && (viewType == DisconnectedLines ==> |m.vertices| == 2 * rows * cols && |m.segments| == rows * cols)
            && (viewType !in {LinesWithZeroEndpoints, LinesPeriodic, DisconnectedLines} ==>
                  |m.vertices| == rows * cols && |m.segments| == rows * (if cols > 0 then cols - 1 else 0))
  {
    var rows, cols := Trips(totalCount), Trips(n);
    RowsIsProduct(cols + 2, rows);
    RowsIsProduct(cols + 1, rows);
    RowsIsProduct(cols, rows);
    if cols > 0 {
      RowsIsProduct(cols - 1, rows);
    }
  }

  /** The zero-endpoints and periodic views draw the same mesh. */
  lemma ZeroEndpointsIsPeriodic(totalCount: int, n: int)
    ensures Trajectories(totalCount, n, LinesWithZeroEndpoints) == Trajectories(totalCount, n, LinesPeriodic)
  {
  }

  /** A view type outside the enumeration draws the plain lines. */
  lemma UnknownViewIsPlain(totalCount: int, n: int, viewType: int)
    requires viewType !in {LinesWithZeroEndpoints, LinesPeriodic, LinesNoEndpoints, DisconnectedLines}
    ensures Trajectories(totalCount, n, viewType) == Trajectories(totalCount, n, LinesNoEndpoints)
  {
  }
}
