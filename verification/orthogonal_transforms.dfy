/** The transform matrices of CoupledOscillators/orthogonal_transforms.cpp: the type-I discrete
    sine transform (DST) and the discrete sine-cosine transform (DSCT), each stored row-major
    in an n*n buffer together with its transpose, and `apply_transform`.

    sin, cos and sqrt are the uninterpreted functions of `MathOps`; doubles are exact reals,
    so the symmetry of the DST holds exactly here, whereas in doubles `(pi*(i+1))*(j+1)` and
    `(pi*(j+1))*(i+1)` may round differently. */
module OrthogonalTransforms {

  import opened MathOps
  import opened Layout

  /** dst_element (CoupledOscillators/orthogonal_transforms.cpp:13-15). */
  function DstElement(m: Math, i: nat, j: nat, n: nat): (r: real)
    ensures r == 2.0 * m.sin(PI * ((i + 1) * (j + 1)) as real / (n + 1) as real) / Sqrt(m, 2.0 * (n + 1) as real)
  {
    var angle := PI * (i + 1) as real * (j + 1) as real / (n + 1) as real;
    assert ((i + 1) * (j + 1)) as real == (i + 1) as real * (j + 1) as real;
    assert angle == PI * ((i + 1) * (j + 1)) as real / (n + 1) as real;
    2.0 * m.sin(angle) / Sqrt(m, 2.0 * (n + 1) as real)
  }

  /** The DST matrix is symmetric: its angle depends on the product (i+1)(j+1) only. */
  lemma DstSymmetric(m: Math, i: nat, j: nat, n: nat)
    ensures DstElement(m, i, j, n) == DstElement(m, j, i, n)
  {
    assert (i + 1) * (j + 1) == (j + 1) * (i + 1);
  }

  /** The signed frequency k of DSCT basis vector j (CoupledOscillators/orthogonal_transforms.cpp:22). */
  function FrequencyIndex(j: int, n: nat): int {
    if n % 2 == 1 then j - n / 2 else j - n / 2 + 1
  }

  /** The smallest and largest frequency of an n-point DSCT. */
  function MinFrequency(n: nat): int {
    if n % 2 == 1 then -((n - 1) / 2) else -(n / 2) + 1
  }

  function MaxFrequency(n: nat): int {
    if n % 2 == 1 then (n - 1) / 2 else n / 2
  }

  /** The basis vector carrying frequency k: the inverse of `FrequencyIndex`. */
  function BasisOfFrequency(k: int, n: nat): int {
    if n % 2 == 1 then k + n / 2 else k + n / 2 - 1
  }

  /** j maps [0, n) one-to-one onto [MinFrequency(n), MaxFrequency(n)], with inverse
      `BasisOfFrequency`; the range is [-(n-1)/2, (n-1)/2] for odd n and [-n/2+1, n/2] for
      even n, and it holds exactly n frequencies. */
  lemma FrequencyBijection(n: nat)
    requires n >= 1
    ensures forall j :: 0 <= j < n ==> MinFrequency(n) <= FrequencyIndex(j, n) <= MaxFrequency(n)
    ensures forall k :: MinFrequency(n) <= k <= MaxFrequency(n) ==> 0 <= BasisOfFrequency(k, n) < n
    ensures forall j :: FrequencyIndex(BasisOfFrequency(j, n), n) == j
    ensures forall j :: BasisOfFrequency(FrequencyIndex(j, n), n) == j
    ensures MaxFrequency(n) - MinFrequency(n) + 1 == n
  {
  }

  /** The normalisation factor of DSCT basis vector j (CoupledOscillators/orthogonal_transforms.cpp:23-25). */
  function DsctNorm(m: Math, j: nat, n: nat): real
    requires n >= 1
  {
    var k := FrequencyIndex(j, n);
    if n % 2 == 1 then Sqrt(m, (if k != 0 then 2.0 else 1.0) / n as real)
    else Sqrt(m, (if k != 0 && j != n - 1 then 2.0 else 1.0) / n as real)
  }

  /** Stated by frequency: the factor is sqrt(1/n) exactly for the constant vector (k = 0)
      and, for even n, the alternating one (k = n/2); every other vector gets sqrt(2/n). */
  lemma DsctNormCases(m: Math, j: nat, n: nat)
    requires 1 <= n && j < n
    ensures var k := FrequencyIndex(j, n);
            var unit := k == 0 || (n % 2 == 0 && k == n / 2);
            && (unit ==> DsctNorm(m, j, n) == Sqrt(m, 1.0 / n as real))
            && (!unit ==> DsctNorm(m, j, n) == Sqrt(m, 2.0 / n as real))
  {
  }

  /** dsct_element (CoupledOscillators/orthogonal_transforms.cpp:21-27): entry i of basis
      vector j. */
  function DsctElement(m: Math, i: nat, j: nat, n: nat): (r: real)
    requires n >= 1
    ensures i == 0 ==> r == (if FrequencyIndex(j, n) < 0 then 0.0 else DsctNorm(m, j, n))
  {
    var k := FrequencyIndex(j, n);
    var angle := 2.0 * PI * i as real * k as real / n as real;
    assert i == 0 ==> angle == 0.0;
    DsctNorm(m, j, n) * (if k < 0 then -m.sin(angle) else m.cos(angle))
  }

  /** The first (n-1)/2 basis vectors are the sines (negative frequency), the remaining
      n - (n-1)/2 the cosines. */
  lemma DsctSineVectors(m: Math, i: nat, j: nat, n: nat)
    requires 1 <= n && j < n
    ensures var angle := 2.0 * PI * i as real * FrequencyIndex(j, n) as real / n as real;
            && (j < (n - 1) / 2 ==> DsctElement(m, i, j, n) == DsctNorm(m, j, n) * -m.sin(angle))
            && (j >= (n - 1) / 2 ==> DsctElement(m, i, j, n) == DsctNorm(m, j, n) * m.cos(angle))
  {
    if n % 2 == 1 {
      assert (n - 1) / 2 == n / 2;
    } else {
      assert (n - 1) / 2 == n / 2 - 1;
    }
  }

  /** Every entry of an n by n buffer has been filled: row r, column c holds e(r, c). */
  ghost predicate Filled(a: seq<real>, n: nat, e: (nat, nat) -> real, rows: nat, columns: nat) {
    forall r: nat, c: nat :: r < rows && c < columns ==> Flat(r, c, n) < |a| && a[Flat(r, c, n)] == e(r, c)
  }

  /** The transpose buffer: row c, column r holds e(r, c). */
  ghost predicate FilledTransposed(b: seq<real>, n: nat, e: (nat, nat) -> real, rows: nat, columns: nat) {
    forall r: nat, c: nat :: r < rows && c < columns ==> Flat(c, r, n) < |b| && b[Flat(c, r, n)] == e(r, c)
  }

  /** The double loop shared by the four builders: `a[r*n + c] = e(r, c)` and
      `b[c*n + r] = a[r*n + c]` for every row r and column c, rows outermost. Every index
      below n*n of both buffers is written and nothing at or beyond n*n changes. */
  method FillWithTranspose(n: nat, e: (nat, nat) -> real, a: seq<real>, b: seq<real>)
    returns (a': seq<real>, b': seq<real>)
    requires Rows(n, n) <= |a| && Rows(n, n) <= |b|
    ensures |a'| == |a| && |b'| == |b|
    ensures Filled(a', n, e, n, n) && FilledTransposed(b', n, e, n, n)
    ensures forall k :: Rows(n, n) <= k < |a| ==> a'[k] == a[k]
    ensures forall k :: Rows(n, n) <= k < |b| ==> b'[k] == b[k]
  {
    a', b' := a, b;
    var r := 0;
    while r < n
      invariant r <= n && |a'| == |a| && |b'| == |b|
      invariant Filled(a', n, e, r, n) && FilledTransposed(b', n, e, r, n)
      invariant forall k :: Rows(n, n) <= k < |a| ==> a'[k] == a[k]
      invariant forall k :: Rows(n, n) <= k < |b| ==> b'[k] == b[k]
    {
      var c := 0;
      while c < n
        invariant c <= n && |a'| == |a| && |b'| == |b|
        invariant Filled(a', n, e, r, n) && FilledTransposed(b', n, e, r, n)
        invariant forall col :: 0 <= col < c ==> Flat(r, col, n) < |a'| && a'[Flat(r, col, n)] == e(r, col)
        invariant forall col :: 0 <= col < c ==> Flat(col, r, n) < |b'| && b'[Flat(col, r, n)] == e(r, col)
        invariant forall k :: Rows(n, n) <= k < |a| ==> a'[k] == a[k]
        invariant forall k :: Rows(n, n) <= k < |b| ==> b'[k] == b[k]
      {
        ghost var a0, b0 := a', b';
        FlatBounds(r, c, n, n);
        FlatBounds(c, r, n, n);
        a' := a'[Flat(r, c, n) := e(r, c)];
        b' := b'[Flat(c, r, n) := a'[Flat(r, c, n)]];
        FillStep(a0, b0, a', b', n, e, r, c);
        c := c + 1;
      }
      r := r + 1;
    }
  }

  /** One write of the inner loop keeps every earlier write: distinct (row, column) pairs
      have distinct flat indices. */
  lemma FillStep(a0: seq<real>, b0: seq<real>, a: seq<real>, b: seq<real>, n: nat,
                 e: (nat, nat) -> real, r: nat, c: nat)
    requires r < n && c < n
    requires Flat(r, c, n) < |a0| && Flat(c, r, n) < |b0|
    requires a == a0[Flat(r, c, n) := e(r, c)] && b == b0[Flat(c, r, n) := e(r, c)]
    requires Filled(a0, n, e, r, n) && FilledTransposed(b0, n, e, r, n)
    requires forall col :: 0 <= col < c ==> Flat(r, col, n) < |a0| && a0[Flat(r, col, n)] == e(r, col)
    requires forall col :: 0 <= col < c ==> Flat(col, r, n) < |b0| && b0[Flat(col, r, n)] == e(r, col)
    ensures Filled(a, n, e, r, n) && FilledTransposed(b, n, e, r, n)
    ensures forall col :: 0 <= col < c + 1 ==> Flat(r, col, n) < |a| && a[Flat(r, col, n)] == e(r, col)
    ensures forall col :: 0 <= col < c + 1 ==> Flat(col, r, n) < |b| && b[Flat(col, r, n)] == e(r, col)
  {
    forall r0: nat, c0: nat | r0 < r && c0 < n
      ensures a[Flat(r0, c0, n)] == e(r0, c0) && b[Flat(c0, r0, n)] == e(r0, c0)
    {
      FlatInjective(r0, c0, r, c, n);
      FlatInjective(c0, r0, c, r, n);
    }
    forall col | 0 <= col < c
      ensures a[Flat(r, col, n)] == e(r, col) && b[Flat(col, r, n)] == e(r, col)
    {
      FlatInjective(r, col, r, c, n);
      FlatInjective(col, r, c, r, n);
    }
  }

  /** make_dst, double overload (CoupledOscillators/orthogonal_transforms.cpp:29-36):
      `dst[i*n + j]` is element (i, j), `idst` is its transpose, and since the DST matrix
      is symmetric the two buffers agree on all n*n entries. */
  method MakeDst(m: Math, dst: seq<real>, idst: seq<real>, n: nat) returns (dst': seq<real>, idst': seq<real>)
    requires n * n <= |dst| && n * n <= |idst|
    ensures |dst'| == |dst| && |idst'| == |idst|
    ensures forall k :: n * n <= k < |dst| ==> dst'[k] == dst[k]
    ensures forall k :: n * n <= k < |idst| ==> idst'[k] == idst[k]
    ensures forall i: nat, j: nat :: i < n && j < n ==>
              && Flat(i, j, n) < |dst'| && dst'[Flat(i, j, n)] == DstElement(m, i, j, n)
              && Flat(j, i, n) < |idst'| && idst'[Flat(j, i, n)] == dst'[Flat(i, j, n)]
    ensures forall k :: 0 <= k < n * n ==> dst'[k] == idst'[k]
  {
    RowsIsProduct(n, n);
    dst', idst' := FillWithTranspose(n, (i: nat, j: nat) => DstElement(m, i, j, n), dst, idst);
    forall k | 0 <= k < Rows(n, n)
      ensures dst'[k] == idst'[k]
    {
      var i, j := Unflatten(k, n, n);
      DstSymmetric(m, i, j, n);
    }
  }

  /** make_dsct, double overload (CoupledOscillators/orthogonal_transforms.cpp:38-45): basis
      vector j is row j (`dsct[j*n + i]` is entry i of vector j), and `idsct` is its
      transpose, holding the basis vectors as columns. */
  method MakeDsct(m: Math, dsct: seq<real>, idsct: seq<real>, n: nat) returns (dsct': seq<real>, idsct': seq<real>)
    requires n * n <= |dsct| && n * n <= |idsct|
    ensures |dsct'| == |dsct| && |idsct'| == |idsct|
    ensures forall k :: n * n <= k < |dsct| ==> dsct'[k] == dsct[k]
    ensures forall k :: n * n <= k < |idsct| ==> idsct'[k] == idsct[k]
    ensures forall i: nat, j: nat :: i < n && j < n ==>
              && Flat(j, i, n) < |dsct'| && dsct'[Flat(j, i, n)] == DsctElement(m, i, j, n)
              && Flat(i, j, n) < |idsct'| && idsct'[Flat(i, j, n)] == dsct'[Flat(j, i, n)]
  {
    // For n == 0 the loops are empty and the element function is never evaluated.
    RowsIsProduct(n, n);
    dsct', idsct' := FillWithTranspose(n, (j: nat, i: nat) => if n == 0 then 0.0 else DsctElement(m, i, j, n), dsct, idsct);
  }

  /** make_dst, float overload (CoupledOscillators/orthogonal_transforms.cpp:47-54): the
      same index pattern, each element rounded to float once and copied. */
  method MakeDstFloat(m: Math, dst: seq<real>, idst: seq<real>, n: nat) returns (dst': seq<real>, idst': seq<real>)
    requires n * n <= |dst| && n * n <= |idst|
    ensures |dst'| == |dst| && |idst'| == |idst|
    ensures forall k :: n * n <= k < |dst| ==> dst'[k] == dst[k]
    ensures forall k :: n * n <= k < |idst| ==> idst'[k] == idst[k]
    ensures forall i: nat, j: nat :: i < n && j < n ==>
              && Flat(i, j, n) < |dst'| && dst'[Flat(i, j, n)] == m.toFloat(DstElement(m, i, j, n))
              && Flat(j, i, n) < |idst'| && idst'[Flat(j, i, n)] == dst'[Flat(i, j, n)]
    ensures forall k :: 0 <= k < n * n ==> dst'[k] == idst'[k]
  {
    RowsIsProduct(n, n);
    dst', idst' := FillWithTranspose(n, (i: nat, j: nat) => m.toFloat(DstElement(m, i, j, n)), dst, idst);
    forall k | 0 <= k < Rows(n, n)
      ensures dst'[k] == idst'[k]
    {
      var i, j := Unflatten(k, n, n);
      DstSymmetric(m, i, j, n);
    }
  }

  /** make_dsct, float overload (CoupledOscillators/orthogonal_transforms.cpp:56-63). */
  method MakeDsctFloat(m: Math, dsct: seq<real>, idsct: seq<real>, n: nat) returns (dsct': seq<real>, idsct': seq<real>)
    requires n * n <= |dsct| && n * n <= |idsct|
    ensures |dsct'| == |dsct| && |idsct'| == |idsct|
    ensures forall k :: n * n <= k < |dsct| ==> dsct'[k] == dsct[k]
    ensures forall k :: n * n <= k < |idsct| ==> idsct'[k] == idsct[k]
    ensures forall i: nat, j: nat :: i < n && j < n ==>
              && Flat(j, i, n) < |dsct'| && dsct'[Flat(j, i, n)] == m.toFloat(DsctElement(m, i, j, n))
              && Flat(i, j, n) < |idsct'| && idsct'[Flat(i, j, n)] == dsct'[Flat(j, i, n)]
  {
    RowsIsProduct(n, n);
    dsct', idsct' := FillWithTranspose(n, (j: nat, i: nat) => if n == 0 then 0.0 else m.toFloat(DsctElement(m, i, j, n)), dsct, idsct);
  }

  /** The sum of the first `count` entries of row i of an n by n matrix. */
  function RowSum(t: seq<real>, i: nat, n: nat, count: nat): real
    requires i < n && count <= n && n * n <= |t|
  {
    if count == 0 then 0.0
    else
      FlatBounds(i, count - 1, n, n);
      RowsIsProduct(n, n);
      RowSum(t, i, n, count - 1) + t[Flat(i, count - 1, n)]
  }

  /** The first `count` terms of row i times x: the matrix-vector product. */
  function RowDot(t: seq<real>, x: seq<real>, i: nat, count: nat): real
    requires i < |x| && count <= |x| && |x| * |x| <= |t|
  {
    if count == 0 then 0.0
    else
      FlatBounds(i, count - 1, |x|, |x|);
      RowsIsProduct(|x|, |x|);
      RowDot(t, x, i, count - 1) + t[Flat(i, count - 1, |x|)] * x[count - 1]
  }

  /** apply_transform as written (CoupledOscillators/orthogonal_transforms.cpp:65-75): the
      inner loop multiplies by x[i] where a matrix-vector product needs x[j], so entry i
      is x[i] times the sum of row i. */
  method ApplyTransformAsWritten(t: seq<real>, x: seq<real>) returns (res: seq<real>)
    requires |x| * |x| <= |t|
    ensures |res| == |x|
    ensures forall i :: 0 <= i < |x| ==> res[i] == x[i] * RowSum(t, i, |x|, |x|)
  {
    var n := |x|;
    res := seq(n, _ => 0.0);
    var i := 0;
    while i < n
      invariant i <= n && |res| == n
      invariant forall i0 :: 0 <= i0 < i ==> res[i0] == x[i0] * RowSum(t, i0, n, n)
    {
      res := res[i := 0.0];
      var j := 0;
      while j < n
        invariant j <= n && |res| == n
        invariant forall i0 :: 0 <= i0 < i ==> res[i0] == x[i0] * RowSum(t, i0, n, n)
        invariant res[i] == x[i] * RowSum(t, i, n, j)
      {
        FlatBounds(i, j, n, n);
        RowsIsProduct(n, n);
        assert x[i] * RowSum(t, i, n, j + 1) == x[i] * RowSum(t, i, n, j) + t[Flat(i, j, n)] * x[i];
        res := res[i := res[i] + t[Flat(i, j, n)] * x[i]];
        j := j + 1;
      }
      i := i + 1;
    }
  }

  /** The matrix-vector product apply_transform evidently means: entry i is the dot product
      of row i with x. */
  method ApplyTransform(t: seq<real>, x: seq<real>) returns (res: seq<real>)
    requires |x| * |x| <= |t|
    ensures |res| == |x|
    ensures forall i :: 0 <= i < |x| ==> res[i] == RowDot(t, x, i, |x|)
  {
    var n := |x|;
    res := seq(n, _ => 0.0);
    var i := 0;
    while i < n
      invariant i <= n && |res| == n
      invariant forall i0 :: 0 <= i0 < i ==> res[i0] == RowDot(t, x, i0, n)
    {
      res := res[i := 0.0];
      var j := 0;
      while j < n
        invariant j <= n && |res| == n
        invariant forall i0 :: 0 <= i0 < i ==> res[i0] == RowDot(t, x, i0, n)
        invariant res[i] == RowDot(t, x, i, j)
      {
        FlatBounds(i, j, n, n);
        RowsIsProduct(n, n);
        res := res[i := res[i] + t[Flat(i, j, n)] * x[j]];
        j := j + 1;
      }
      i := i + 1;
    }
  }

  /** The exchange matrix [[0, 1], [1, 0]] applied to (1, 0): as written the result is
      (1, 0), the product is (0, 1). */
  lemma ApplyTransformSwapsNothing()
    ensures var t, x := [0.0, 1.0, 1.0, 0.0], [1.0, 0.0];
            && [x[0] * RowSum(t, 0, 2, 2), x[1] * RowSum(t, 1, 2, 2)] == [1.0, 0.0]
            && [RowDot(t, x, 0, 2), RowDot(t, x, 1, 2)] == [0.0, 1.0]
  {
  }
}
