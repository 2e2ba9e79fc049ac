/** The arithmetic core of CoupledOscillators/simulation.cpp: the square matrix-vector
    product and copy used to move sampled configurations between normal and position
    coordinates, the frequency of each normal mode, the split of that work across threads,
    the excitation click of the stationary-state editor, and the acceptance rate reported
    after sampling. Doubles are exact reals; sin is the uninterpreted function of MathOps. */
module CoupledSimulation {

  import opened Layout
  import opened MathOps
  import opened Metropolis
  import OrthogonalTransforms

  // ---------------------------------------------------------------------------------
  // c_sq_matrix_mul and c_copy.
  // ---------------------------------------------------------------------------------

  /** The first `count` terms of row i of the n by n matrix `mat` times v. */
  function MatVecRow(mat: seq<real>, v: seq<real>, n: nat, i: nat, count: nat): real
    requires i < n && count <= n && n * n <= |mat| && n <= |v|
  {
    if count == 0 then 0.0
    else
      FlatBounds(i, count - 1, n, n);
      RowsIsProduct(n, n);
      MatVecRow(mat, v, n, i, count - 1) + mat[Flat(i, count - 1, n)] * v[count - 1]
  }

  /** The number of iterations of a `for (int i = 0; i < n; i++)` loop. */
  function Count(n: int): nat {
    if n < 0 then 0 else n
  }

  /** c_sq_matrix_mul (CoupledOscillators/simulation.cpp:32-40): entry i of dst, for i < n,
      becomes row i of the matrix times v; the rest of dst is not touched. A count that is
      not positive leaves dst as it was. */
  method SqMatrixMul(dst: seq<real>, mat: seq<real>, v: seq<real>, n: int) returns (dst': seq<real>)
    requires Count(n) <= |dst| && Count(n) <= |v| && Count(n) * Count(n) <= |mat|
    ensures |dst'| == |dst|
    ensures forall i :: 0 <= i < Count(n) ==> dst'[i] == MatVecRow(mat, v, Count(n), i, Count(n))
    ensures forall i :: Count(n) <= i < |dst| ==> dst'[i] == dst[i]
  {
    var size := Count(n);
    dst' := dst;
    var i := 0;
    while i < n
      invariant 0 <= i <= size && |dst'| == |dst|
      invariant forall i0 :: 0 <= i0 < i ==> dst'[i0] == MatVecRow(mat, v, size, i0, size)
      invariant forall i0 :: size <= i0 < |dst| ==> dst'[i0] == dst[i0]
    {
      dst' := dst'[i := 0.0];
      var j := 0;
      while j < n
        invariant 0 <= j <= size && |dst'| == |dst|
        invariant forall i0 :: 0 <= i0 < i ==> dst'[i0] == MatVecRow(mat, v, size, i0, size)
        invariant forall i0 :: size <= i0 < |dst| ==> dst'[i0] == dst[i0]
        invariant dst'[i] == MatVecRow(mat, v, size, i, j)
      {
        FlatBounds(i, j, size, size);
        RowsIsProduct(size, size);
        dst' := dst'[i := dst'[i] + mat[Flat(i, j, size)] * v[j]];
        j := j + 1;
      }
      i := i + 1;
    }
  }

  /** When v has exactly n entries, c_sq_matrix_mul computes the matrix-vector product that
      apply_transform was meant to compute. */
  lemma {:induction false} MatVecRowIsRowDot(mat: seq<real>, v: seq<real>, i: nat, count: nat)
    requires i < |v| && count <= |v| && |v| * |v| <= |mat|
    ensures MatVecRow(mat, v, |v|, i, count) == OrthogonalTransforms.RowDot(mat, v, i, count)
  {
    if count > 0 {
      MatVecRowIsRowDot(mat, v, i, count - 1);
    }
  }

  /** c_copy (CoupledOscillators/simulation.cpp:42-45), writing through a pointer `offset`
      entries into dst: the n entries from there on become those of v, and nothing else
      changes. */
  method Copy(dst: seq<real>, offset: nat, v: seq<real>, n: int) returns (dst': seq<real>)
    requires offset + Count(n) <= |dst| && Count(n) <= |v|
    ensures |dst'| == |dst|
    ensures forall i :: 0 <= i < Count(n) ==> dst'[offset + i] == v[i]
    ensures forall k :: 0 <= k < |dst| && !(offset <= k < offset + Count(n)) ==> dst'[k] == dst[k]
  {
    dst' := dst;
    var i := 0;
    while i < n
      invariant 0 <= i <= Count(n) && |dst'| == |dst|
      invariant forall i0 :: 0 <= i0 < i ==> dst'[offset + i0] == v[i0]
      invariant forall k :: 0 <= k < |dst| && !(offset <= k < offset + i) ==> dst'[k] == dst[k]
    {
      dst' := dst'[offset + i := v[i]];
      i := i + 1;
    }
  }

  // ---------------------------------------------------------------------------------
  // Mode frequencies.
  // ---------------------------------------------------------------------------------

  /** The two boundary types of the source's local enum; any other value takes the
      zero-endpoints branch. */
  const ZeroEndpoints: int := 0
  const Periodic: int := 1

  /** frequency_index_and_its_max (CoupledOscillators/simulation.cpp:58-69), for a mode
      index i of n oscillators. */
  function FrequencyIndexAndItsMax(i: int, n: nat, boundaryType: int): (r: (int, int))
    ensures boundaryType == Periodic ==> r.1 == n / 2
    ensures boundaryType != Periodic ==> r == (i + 1, n + 1)
  {
    if boundaryType == Periodic then
      (if n % 2 != 0 then i - n / 2 else i - n / 2 + 1, n / 2)
    else (i + 1, n + 1)
  }

  function Abs(k: int): nat {
    if k < 0 then -k else k
  }

  /** Every mode's frequency index is at most the maximum in size, in both boundary types. */
  lemma FrequencyWithinMax(i: nat, n: nat, boundaryType: int)
    requires i < n
    ensures var (k, max) := FrequencyIndexAndItsMax(i, n, boundaryType); Abs(k) <= max
    ensures var (k, max) := FrequencyIndexAndItsMax(i, n, boundaryType); boundaryType != Periodic ==> 1 <= k <= max - 1
  {
  }

  /** With periodic boundaries the frequency index is the one that labels DSCT basis vector
      i, so mode i of the simulation is basis vector i of the transform. */
  lemma PeriodicMatchesDsct(i: nat, n: nat)
    ensures FrequencyIndexAndItsMax(i, n, Periodic).0 == OrthogonalTransforms.FrequencyIndex(i, n)
  {
  }

  /** A double-precision result: a number, or the NaN of 0/0, or an infinity. */
  datatype Double = Finite(value: real) | NaN | Infinite(positive: bool)

  /** IEEE division of exact reals. */
  function Divide(a: real, b: real): (r: Double)
    ensures b != 0.0 ==> r == Finite(a / b)
    ensures b == 0.0 && a == 0.0 ==> r == NaN
    ensures b == 0.0 && a != 0.0 ==> r == Infinite(a > 0.0)
  {
    if b != 0.0 then Finite(a / b) else if a == 0.0 then NaN else Infinite(a > 0.0)
  }

  /** get_omega (CoupledOscillators/simulation.cpp:71-82): preset 0 gives the lattice
      dispersion 2 sin(pi |k| / (2 max)), any other preset the linear pi |k| / max. With one
      periodic oscillator the maximum is 0 and both are 0/0. */
  function GetOmega(ops: Math, i: int, n: nat, boundaryType: int, preset: int): (r: Double)
    ensures var (k, size) := FrequencyIndexAndItsMax(i, n, boundaryType);
            size == 0 ==> r == (if k == 0 then NaN else if preset == 0 then NaN else Infinite(true))
  {
    var (k, size) := FrequencyIndexAndItsMax(i, n, boundaryType);
    var ratio := Divide(0.5 * PI * Abs(k) as real, size as real);
    if preset == 0 then
      (match ratio
         case Finite(v) => Finite(2.0 * ops.sin(v))
         case _ => NaN)
    else Divide(PI * Abs(k) as real, size as real)
  }

  /** Inside the range of modes the frequency is a number: with the linear preset it lies
      in [0, pi], and the mode of frequency index 0 has frequency 0 under either preset. */
  lemma OmegaInRange(ops: Math, i: nat, n: nat, boundaryType: int, preset: int)
    requires i < n
    requires boundaryType != Periodic || n >= 2
    ensures GetOmega(ops, i, n, boundaryType, preset).Finite?
    ensures preset != 0 ==> 0.0 <= GetOmega(ops, i, n, boundaryType, preset).value <= PI
    ensures FrequencyIndexAndItsMax(i, n, boundaryType).0 == 0 ==> GetOmega(ops, i, n, boundaryType, preset).value == 0.0
  {
    var (k, size) := FrequencyIndexAndItsMax(i, n, boundaryType);
    FrequencyWithinMax(i, n, boundaryType);
    assert size >= 1;
    RatioAtMostOne(Abs(k) as real, size as real, PI);
  }

  lemma RatioAtMostOne(a: real, b: real, c: real)
    requires 0.0 <= a <= b && b > 0.0 && c > 0.0
    ensures 0.0 <= c * a / b <= c
  {
    assert c * a <= c * b;
  }

  /** A periodic chain of at least two oscillators has one zero-frequency mode: index
      n/2 for odd n and n/2 - 1 for even n. */
  lemma PeriodicZeroMode(ops: Math, n: nat, preset: int)
    requires n >= 2
    ensures var i := if n % 2 == 1 then n / 2 else n / 2 - 1;
            0 <= i < n && GetOmega(ops, i, n, Periodic, preset) == Finite(0.0)
  {
    var i := if n % 2 == 1 then n / 2 else n / 2 - 1;
    OmegaInRange(ops, i, n, Periodic, preset);
  }

  // ---------------------------------------------------------------------------------
  // normals2positions: every sampled configuration is multiplied by the matrix.
  // ---------------------------------------------------------------------------------

  /** Row k of a buffer of rows of n entries. */
  function Row(configs: seq<real>, n: nat, k: nat): (r: seq<real>)
    requires Flat(k, 0, n) + n <= |configs|
    ensures |r| == n
  {
    configs[Flat(k, 0, n)..Flat(k, 0, n) + n]
  }

  /** Entry c of row k of `configs` after the transform. */
  function Transformed(mat: seq<real>, configs: seq<real>, n: nat, k: nat, c: nat): real
    requires c < n && n * n <= |mat| && Flat(k, 0, n) + n <= |configs|
  {
    MatVecRow(mat, Row(configs, n, k), n, c, n)
  }

  /** `after` is `before` with rows lo..hi-1 multiplied by the matrix and every other entry
      unchanged. */
  ghost predicate RowsTransformed(before: seq<real>, after: seq<real>, mat: seq<real>, n: nat, lo: nat, hi: nat) {
    && |after| == |before| && lo <= hi && Rows(n, hi) <= |before| && n * n <= |mat|
    && (forall k: nat, c: nat :: lo <= k < hi && c < n ==>
          Flat(k, 0, n) + n <= |before| && after[Flat(k, c, n)] == Transformed(mat, before, n, k, c))
    && (forall idx :: 0 <= idx < |before| && !(Rows(n, lo) <= idx < Rows(n, hi)) ==> after[idx] == before[idx])
  }

  /** One iteration of either loop of normals2positions
      (CoupledOscillators/simulation.cpp:513-520 and 497-502): row k goes through a
      temporary, the product of the matrix with it, and is copied back; every other entry
      is untouched. */
  method TransformRow(configs: seq<real>, mat: seq<real>, n: nat, k: nat) returns (configs': seq<real>)
    requires Flat(k, 0, n) + n <= |configs| && n * n <= |mat|
    ensures |configs'| == |configs|
    ensures forall c :: 0 <= c < n ==> configs'[Flat(k, c, n)] == Transformed(mat, configs, n, k, c)
    ensures forall idx :: 0 <= idx < |configs| && !(Flat(k, 0, n) <= idx < Flat(k, 0, n) + n) ==>
              configs'[idx] == configs[idx]
  {
    var row := Row(configs, n, k);
    var res := SqMatrixMul(seq(n, _ => 0.0), mat, row, n);
    configs' := Copy(configs, Flat(k, 0, n), res, n);
  }

  lemma RowsTransformedStart(configs: seq<real>, mat: seq<real>, n: nat, lo: nat)
    requires Rows(n, lo) <= |configs| && n * n <= |mat|
    ensures RowsTransformed(configs, configs, mat, n, lo, lo)
  {
  }

  /** Transforming row hi of a buffer whose rows lo..hi-1 are done extends the done range
      by one row. */
  lemma RowsTransformedStep(before: seq<real>, mid: seq<real>, after: seq<real>, mat: seq<real>,
                            n: nat, lo: nat, hi: nat)
    requires RowsTransformed(before, mid, mat, n, lo, hi)
    requires Rows(n, hi + 1) <= |before|
    requires |after| == |mid|
    requires forall c :: 0 <= c < n ==> after[Flat(hi, c, n)] == Transformed(mat, mid, n, hi, c)
    requires forall idx :: 0 <= idx < |mid| && !(Flat(hi, 0, n) <= idx < Flat(hi, 0, n) + n) ==> after[idx] == mid[idx]
    ensures RowsTransformed(before, after, mat, n, lo, hi + 1)
  {
    RowsMonotone(n, lo, hi);
    UntouchedRow(before, mid, mat, n, lo, hi);
    forall k: nat, c: nat | lo <= k < hi + 1 && c < n
      ensures Flat(k, 0, n) + n <= |before| && after[Flat(k, c, n)] == Transformed(mat, before, n, k, c)
    {
      RowsMonotone(n, k + 1, hi + 1);
      if k < hi {
        FlatBounds(k, c, n, hi);
      }
    }
  }

  /** Row hi lies past the rows already done, so it still holds its original entries. */
  lemma UntouchedRow(before: seq<real>, mid: seq<real>, mat: seq<real>, n: nat, lo: nat, hi: nat)
    requires RowsTransformed(before, mid, mat, n, lo, hi)
    requires Rows(n, hi + 1) <= |before|
    ensures Row(mid, n, hi) == Row(before, n, hi)
  {
    forall c | 0 <= c < n
      ensures Row(mid, n, hi)[c] == Row(before, n, hi)[c]
    {
      assert Flat(hi, 0, n) + c >= Rows(n, hi);
    }
  }

  /** Rows lo..hi-1 of `cur`, one after another, given that rows first..lo-1 are done. */
  method TransformRows(configs: seq<real>, cur: seq<real>, mat: seq<real>, n: nat, first: nat, lo: nat, hi: nat)
    returns (cur': seq<real>)
    requires RowsTransformed(configs, cur, mat, n, first, lo)
    requires lo <= hi && Rows(n, hi) <= |configs|
    ensures RowsTransformed(configs, cur', mat, n, first, hi)
  {
    cur' := cur;
    var k := lo;
    while k < hi
      invariant lo <= k <= hi
      invariant RowsTransformed(configs, cur', mat, n, first, k)
    {
      RowsMonotone(n, k + 1, hi);
      var next := TransformRow(cur', mat, n, k);
      RowsTransformedStep(configs, cur', next, mat, n, first, k);
      cur' := next;
      k := k + 1;
    }
  }

  /** The path without threads (CoupledOscillators/simulation.cpp:513-520): the first
      `steps` rows, one after another. */
  method Normals2PositionsSequential(configs: seq<real>, mat: seq<real>, n: nat, steps: nat)
    returns (configs': seq<real>)
    requires Rows(n, steps) <= |configs| && n * n <= |mat|
    ensures RowsTransformed(configs, configs', mat, n, 0, steps)
  {
    RowsTransformedStart(configs, mat, n, 0);
    configs' := TransformRows(configs, configs, mat, n, 0, 0, steps);
  }

  /** The number of threads normals2positions starts for a buffer of `rows` configurations
      (CoupledOscillators/simulation.cpp:523-525). */
  function ThreadCount(rows: nat): (t: nat)
    ensures t == 2 || t == 8
  {
    if rows < 100 then 2 else 8
  }

  /** The rows one thread transforms: `count` of them from `firstRow` on. */
  datatype Slice = Slice(firstRow: nat, count: nat)

  /** The slices of CoupledOscillators/simulation.cpp:526-534: every thread but the last takes
      rows/threads rows; the last takes the remainder. */
  function ThreadSlices(rows: nat): (s: seq<Slice>)
    ensures |s| == ThreadCount(rows)
    ensures s[0].firstRow == 0
    ensures forall i :: 0 <= i < |s| - 1 ==> s[i].firstRow + s[i].count == s[i + 1].firstRow
    ensures s[|s| - 1].firstRow + s[|s| - 1].count == rows
    ensures forall i :: 0 <= i < |s| - 1 ==> s[i].count == rows / ThreadCount(rows)
    ensures forall i :: 0 <= i < |s| ==> s[i].firstRow + s[i].count <= rows
  {
    var t := ThreadCount(rows);
    var per := rows / t;
    LastSliceFits(rows, t);
    seq(t, (i: nat) requires i < t => Slice(i * per, if i == t - 1 then rows - (t - 1) * per else per))
  }

  lemma LastSliceFits(rows: nat, t: nat)
    requires t >= 1
    ensures (t - 1) * (rows / t) <= rows
    ensures forall i: nat :: i < t - 1 ==> i * (rows / t) + rows / t == (i + 1) * (rows / t)
    ensures forall i: nat :: i < t ==> i * (rows / t) + rows / t <= rows
  {
    var per := rows / t;
    assert t * per <= rows;
    assert (t - 1) * per <= t * per;
    forall i: nat | i < t
      ensures i * per + per <= rows
    {
      assert i * per + per == (i + 1) * per;
      assert (i + 1) * per <= t * per;
    }
  }

  /** The thread's base pointer `i*(count_per_thread*num_oscillators)` is the start of its
      first row. */
  lemma SliceOffset(i: nat, per: nat, n: nat)
    ensures i * (per * n) == Flat(i * per, 0, n)
  {
    FlatIsProduct(i * per, 0, n);
    assert i * (per * n) == (i * per) * n;
  }

  /** normals2positions with threads (CoupledOscillators/simulation.cpp:522-543). The slices
      are disjoint, so the threads' order does not matter; they are taken one after another
      here. */
  method Normals2PositionsThreaded(configs: seq<real>, mat: seq<real>, n: nat) returns (configs': seq<real>)
    requires 1 <= n && n * n <= |mat|
    ensures RowsTransformed(configs, configs', mat, n, 0, |configs| / n)
  {
    var rows := |configs| / n;
    WholeRowsFit(|configs|, n);
    var slices := ThreadSlices(rows);
    configs' := configs;
    RowsTransformedStart(configs, mat, n, 0);
    var i := 0;
    var done := 0;
    while i < |slices|
      invariant i <= |slices| && done <= rows
      invariant done == if i < |slices| then slices[i].firstRow else rows
      invariant RowsTransformed(configs, configs', mat, n, 0, done)
    {
      var hi := slices[i].firstRow + slices[i].count;
      RowsMonotone(n, hi, rows);
      configs' := TransformRows(configs, configs', mat, n, 0, done, hi);
      done := hi;
      i := i + 1;
    }
  }

  /** The |configs|/n whole rows of a buffer fit inside it. */
  lemma WholeRowsFit(len: nat, n: nat)
    requires n >= 1
    ensures Rows(n, len / n) <= len
  {
    RowsIsProduct(n, len / n);
  }

  /** A transformed buffer is determined by the original: so the threaded pass over
      |configs|/n rows and the sequential pass over as many steps give the same buffer. */
  lemma RowsTransformedUnique(before: seq<real>, a: seq<real>, b: seq<real>, mat: seq<real>, n: nat, hi: nat)
    requires RowsTransformed(before, a, mat, n, 0, hi) && RowsTransformed(before, b, mat, n, 0, hi)
    ensures a == b
  {
    forall idx | 0 <= idx < |before|
      ensures a[idx] == b[idx]
    {
      if idx < Rows(n, hi) {
        var k, c := Unflatten(idx, n, hi);
      }
    }
  }

  // ---------------------------------------------------------------------------------
  // The stationary-state excitation click.
  // ---------------------------------------------------------------------------------

  /** The highest excitation a click can reach. */
  const MaxExcitation: int := 30

  /** The stationary-state branch of cursor_set_initial_wave_function
      (CoupledOscillators/simulation.cpp:689-698): of the first n excitation numbers only the
      clicked one changes, up by one below 30 when adding energy, down by one above 0
      otherwise. */
  function ClickExcitation(excitations: seq<int>, n: int, pos: int, addEnergy: bool): (r: seq<int>)
    requires Count(n) <= |excitations|
    ensures |r| == |excitations|
    ensures forall j :: 0 <= j < |r| && j != pos ==> r[j] == excitations[j]
    ensures 0 <= pos < Count(n) && addEnergy ==> r[pos] == if excitations[pos] < MaxExcitation then excitations[pos] + 1 else excitations[pos]
    ensures 0 <= pos < Count(n) && !addEnergy ==> r[pos] == if excitations[pos] > 0 then excitations[pos] - 1 else excitations[pos]
    ensures !(0 <= pos < Count(n)) ==> r == excitations
  {
    if 0 <= pos < Count(n) then
      if addEnergy then
        (if excitations[pos] < MaxExcitation then excitations[pos := excitations[pos] + 1] else excitations)
      else
        (if excitations[pos] > 0 then excitations[pos := excitations[pos] - 1] else excitations)
    else excitations
  }

  /** Clicks keep every excitation number in [0, 30]. */
  lemma ClickKeepsRange(excitations: seq<int>, n: int, pos: int, addEnergy: bool)
    requires Count(n) <= |excitations|
    requires forall j :: 0 <= j < |excitations| ==> 0 <= excitations[j] <= MaxExcitation
    ensures var r := ClickExcitation(excitations, n, pos, addEnergy);
            forall j :: 0 <= j < |r| ==> 0 <= r[j] <= MaxExcitation
  {
  }

  /** For a mode inside [0, 30], adding energy and then removing it undoes the click unless
      the mode was already at 30, and removing and then adding undoes it unless it was at 0. */
  lemma ClickInverse(excitations: seq<int>, n: int, pos: int)
    requires Count(n) <= |excitations|
    ensures 0 <= pos < Count(n) && 0 <= excitations[pos] < MaxExcitation ==>
      ClickExcitation(ClickExcitation(excitations, n, pos, true), n, pos, false) == excitations
    ensures 0 <= pos < Count(n) && 0 < excitations[pos] <= MaxExcitation ==>
      ClickExcitation(ClickExcitation(excitations, n, pos, false), n, pos, true) == excitations
  {
    if 0 <= pos < Count(n) {
      var e := excitations[pos];
      if e < MaxExcitation {
        assert ClickExcitation(excitations, n, pos, true) == excitations[pos := e + 1];
        assert excitations[pos := e + 1][pos := e] == excitations;
      }
      if e > 0 {
        assert ClickExcitation(excitations, n, pos, false) == excitations[pos := e - 1];
        assert excitations[pos := e - 1][pos := e] == excitations;
      }
    }
  }

  // ---------------------------------------------------------------------------------
  // The acceptance rate.
  // ---------------------------------------------------------------------------------

  /** acceptanceRate (CoupledOscillators/simulation.cpp:247-249, repeated at 281-283, 318-320
      and 346-348): accepted over all proposals. */
  function AcceptanceRate(accepted: nat, rejected: nat): (r: Double)
    ensures accepted + rejected > 0 ==> r.Finite? && 0.0 <= r.value <= 1.0
    ensures accepted + rejected == 0 ==> r == NaN
  {
    Divide(accepted as real, (accepted + rejected) as real)
  }

  /** After a sampling run of any length the rate is a number in (0, 1]: the accepted
      counter starts at one, so the denominator is steps + 1. */
  lemma AcceptanceRateAfterSampling(x0: Point, delta: seq<real>, dist: Point -> real, draws: seq<real>, steps: nat)
    requires |delta| >= |x0| && DrawBudget(|x0|, steps) <= |draws|
    ensures var c := Run(Start(x0, dist), delta, dist, draws, steps);
            var r := AcceptanceRate(c.accepted, c.rejected);
            r.Finite? && 0.0 < r.value <= 1.0 && r.value == c.accepted as real / (steps + 1) as real
  {
    var c := Run(Start(x0, dist), delta, dist, draws, steps);
    CountersAddUp(x0, delta, dist, draws, steps);
    RateBounds(c.accepted, c.rejected);
  }

  lemma RateBounds(accepted: nat, rejected: nat)
    requires accepted >= 1
    ensures var r := AcceptanceRate(accepted, rejected);
            r.Finite? && 0.0 < r.value <= 1.0 && r.value == accepted as real / (accepted + rejected) as real
  {
    var a, t := accepted as real, (accepted + rejected) as real;
    assert a / t > 0.0;
  }
}
