/** The line meshes both wire-frame builders hand to the renderer. The renderer receives a
    flat list of floats, two per vertex, and a flat list of element indices, two per line
    segment; the model holds the same data as a list of points and a list of index pairs,
    and `Flatten` gives back the flat layout. Every builder walks a
    row of points, pushes each point as a vertex and, for the points its rule selects,
    pushes the segment from the vertex pushed just before. The builders' running vertex
    counter always equals the number of vertices pushed, so it is read off the vertex
    list here. The renderer object itself (its attributes and drawing mode) is not part
    of this model. */
module WireFrame {

  type Point = (real, real)

  datatype Mesh = Mesh(vertices: seq<Point>, segments: seq<(int, int)>)

  const Empty: Mesh := Mesh([], [])

  /** The flat buffer of a list of pairs: both components of each pair in turn. The
      float buffer of a mesh is `Flatten(m.vertices)`, its element buffer
      `Flatten(m.segments)`. */
  function Flatten<T>(pairs: seq<(T, T)>): (s: seq<T>)
    ensures |s| == 2 * |pairs|
    ensures forall i :: 0 <= i < |pairs| ==> s[2 * i] == pairs[i].0 && s[2 * i + 1] == pairs[i].1
  {
    if |pairs| == 0 then []
    else Flatten(pairs[..|pairs| - 1]) + [pairs[|pairs| - 1].0, pairs[|pairs| - 1].1]
  }

  /** Which points of a row are joined to the point before them. */
  datatype LinkRule = AllButFirst | OddOnly

  predicate Linked(rule: LinkRule, i: nat) {
    match rule
    case AllButFirst => i > 0
    case OddOnly => i % 2 == 1
  }

  /** The number of segments a row of n points adds. */
  function LinkCount(rule: LinkRule, n: nat): nat {
    if n == 0 then 0 else LinkCount(rule, n - 1) + (if Linked(rule, n - 1) then 1 else 0)
  }

  lemma {:induction false} LinkCountClosed(rule: LinkRule, n: nat)
    ensures rule == AllButFirst ==> LinkCount(rule, n) == if n == 0 then 0 else n - 1
    ensures rule == OddOnly ==> LinkCount(rule, n) == n / 2
  {
    if n > 0 {
      LinkCountClosed(rule, n - 1);
    }
  }

  /** A well-formed line mesh: every segment joins an existing vertex to the one pushed
      just after it. */
  ghost predicate Chained(m: Mesh) {
    forall k :: 0 <= k < |m.segments| ==>
      0 <= m.segments[k].0 && m.segments[k].1 == m.segments[k].0 + 1 && m.segments[k].1 < |m.vertices|
  }

  /** The segments a row of n points pushed after `base` vertices adds: each linked point
      is joined to the point before it. */
  function RowSegments(base: nat, n: nat, rule: LinkRule): (s: seq<(int, int)>)
    ensures |s| == LinkCount(rule, n)
    ensures forall k :: 0 <= k < |s| ==>
              base <= s[k].0 && s[k].1 == s[k].0 + 1 && s[k].1 < base + n && Linked(rule, s[k].1 - base)
  {
    if n == 0 then []
    else RowSegments(base, n - 1, rule) + if Linked(rule, n - 1) then [(base + n - 2, base + n - 1)] else []
  }

  /** Pushes a row of points, each followed by its segment when the rule links it. */
  function AddPoints(m: Mesh, points: seq<Point>, rule: LinkRule): (r: Mesh)
    requires Chained(m)
    ensures Chained(r)
    ensures r.vertices == m.vertices + points
    ensures |r.segments| == |m.segments| + LinkCount(rule, |points|)
    ensures r.segments[..|m.segments|] == m.segments
  {
    var r := Mesh(m.vertices + points, m.segments + RowSegments(|m.vertices|, |points|, rule));
    assert r.segments[..|m.segments|] == m.segments;
    r
  }

  /** Every x coordinate lies in [lo, hi]. */
  ghost predicate XsWithin(m: Mesh, lo: real, hi: real) {
    forall i :: 0 <= i < |m.vertices| ==> lo <= m.vertices[i].0 <= hi
  }

  /** Every segment runs from a vertex to one strictly to its right. */
  ghost predicate Rightward(m: Mesh)
    requires Chained(m)
  {
    forall k :: 0 <= k < |m.segments| ==> m.vertices[m.segments[k].0].0 < m.vertices[m.segments[k].1].0
  }

  /** Every segment joins two vertices of equal y. */
  ghost predicate Level(m: Mesh)
    requires Chained(m)
  {
    forall k :: 0 <= k < |m.segments| ==> m.vertices[m.segments[k].0].1 == m.vertices[m.segments[k].1].1
  }

  /** Each linked point of a row lies right of the point before it. */
  ghost predicate StepsRight(points: seq<Point>, rule: LinkRule) {
    forall i, j :: 0 <= i && j == i + 1 && j < |points| && Linked(rule, j) ==> points[i].0 < points[j].0
  }

  /** Each linked point of a row has the y of the point before it. */
  ghost predicate StepsLevel(points: seq<Point>, rule: LinkRule) {
    forall i, j :: 0 <= i && j == i + 1 && j < |points| && Linked(rule, j) ==> points[i].1 == points[j].1
  }

  /** A row whose linked points each lie right of the point before them keeps the mesh's
      segments rightward. */
  lemma AddPointsRightward(m: Mesh, points: seq<Point>, rule: LinkRule)
    requires Chained(m) && Rightward(m)
    requires StepsRight(points, rule)
    ensures Rightward(AddPoints(m, points, rule))
  {
    var r, base := AddPoints(m, points, rule), |m.vertices|;
    var row := RowSegments(base, |points|, rule);
    assert r.segments == m.segments + row;
    forall k | 0 <= k < |r.segments|
      ensures r.vertices[r.segments[k].0].0 < r.vertices[r.segments[k].1].0
    {
      if k < |m.segments| {
        assert r.segments[k] == m.segments[k];
      } else {
        var j := row[k - |m.segments|].1 - base;
        assert points[j - 1].0 < points[j].0;
      }
    }
  }

  /** A row whose linked points each share the y of the point before them keeps the mesh's
      segments level. */
  lemma AddPointsLevel(m: Mesh, points: seq<Point>, rule: LinkRule)
    requires Chained(m) && Level(m)
    requires StepsLevel(points, rule)
    ensures Level(AddPoints(m, points, rule))
  {
    var r, base := AddPoints(m, points, rule), |m.vertices|;
    var row := RowSegments(base, |points|, rule);
    assert r.segments == m.segments + row;
    forall k | 0 <= k < |r.segments|
      ensures r.vertices[r.segments[k].0].1 == r.vertices[r.segments[k].1].1
    {
      if k < |m.segments| {
        assert r.segments[k] == m.segments[k];
      } else {
        var j := row[k - |m.segments|].1 - base;
        assert points[j - 1].1 == points[j].1;
      }
    }
  }

  /** Pushing points whose x lie in [lo, hi] keeps every x of the mesh in [lo, hi]. */
  lemma AddPointsXsWithin(m: Mesh, points: seq<Point>, rule: LinkRule, lo: real, hi: real)
    requires Chained(m) && XsWithin(m, lo, hi)
    requires forall i :: 0 <= i < |points| ==> lo <= points[i].0 <= hi
    ensures XsWithin(AddPoints(m, points, rule), lo, hi)
  {
    var r := AddPoints(m, points, rule);
    forall i | 0 <= i < |r.vertices|
      ensures lo <= r.vertices[i].0 <= hi
    {
      if i >= |m.vertices| {
        assert r.vertices[i] == points[i - |m.vertices|];
      }
    }
  }

  /** A well-formed mesh whose segments all run rightward and whose x all lie in [lo, hi]. */
  ghost predicate RightwardWithin(m: Mesh, lo: real, hi: real) {
    Chained(m) && Rightward(m) && XsWithin(m, lo, hi)
  }

  /** A row whose linked points each lie right of the point before them and whose x all lie
      in [lo, hi]. */
  ghost predicate RowRightwardWithin(points: seq<Point>, rule: LinkRule, lo: real, hi: real) {
    StepsRight(points, rule) && forall i :: 0 <= i < |points| ==> lo <= points[i].0 <= hi
  }

  /** Pushing such a row onto such a mesh keeps it so. */
  lemma AddPointsShape(m: Mesh, points: seq<Point>, rule: LinkRule, lo: real, hi: real)
    requires RightwardWithin(m, lo, hi) && RowRightwardWithin(points, rule, lo, hi)
    ensures RightwardWithin(AddPoints(m, points, rule), lo, hi)
  {
    AddPointsRightward(m, points, rule);
    AddPointsXsWithin(m, points, rule, lo, hi);
  }

  /** The screen coordinate -1 + 2 t / cells of a position t along a row of the given
      width, as the builders compute x. */
  function Across(t: real, cells: real): real
    requires cells > 0.0
  {
    -1.0 + 2.0 * t / cells
  }

  lemma AcrossBounds(t: real, cells: real)
    requires cells > 0.0 && 0.0 <= t <= cells
    ensures -1.0 <= Across(t, cells) <= 1.0
    ensures 0.0 < t < cells ==> -1.0 < Across(t, cells) < 1.0
  {
    var q := t / cells;
    assert q * cells == t;
    if q > 1.0 {
      PositiveProduct(q - 1.0, cells);
    }
    AcrossIsScaled(t, cells);
  }

  lemma AcrossMonotone(t1: real, t2: real, cells: real)
    requires cells > 0.0 && t1 < t2
    ensures Across(t1, cells) < Across(t2, cells)
  {
    var q1, q2 := t1 / cells, t2 / cells;
    assert q1 * cells == t1 && q2 * cells == t2;
    if q1 >= q2 {
      if q1 > q2 {
        PositiveProduct(q1 - q2, cells);
      }
    }
    AcrossIsScaled(t1, cells);
    AcrossIsScaled(t2, cells);
  }

  lemma AcrossIsScaled(t: real, cells: real)
    requires cells > 0.0
    ensures Across(t, cells) == -1.0 + 2.0 * (t / cells)
  {
    var q, w := t / cells, 2.0 * t / cells;
    assert q * cells == t && w * cells == 2.0 * t;
    if w != 2.0 * q {
      PositiveProduct(if w > 2.0 * q then w - 2.0 * q else 2.0 * q - w, cells);
    }
  }

  lemma PositiveProduct(a: real, b: real)
    requires a > 0.0 && b > 0.0
    ensures a * b > 0.0
  {
  }
}
