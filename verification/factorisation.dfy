/** The "most square" factorisations `decompose` and `decompose_3`. The same `decompose`
    appears in CoupledOscillators/simulation_pilot.cpp and Periodic2DSystem/simulation.cpp;
    it is defined once here.

    Arithmetic is on unbounded naturals: the source's `i*i < n` compares a signed product
    against an unsigned value and is only meaningful while `i*i` fits in 31 bits. */
module Factorisation {

  function Sq(i: nat): nat { i * i }

  function Cube(i: nat): nat { i * i * i }

  predicate Divides(d: nat, n: nat) {
    d > 0 && n % d == 0
  }

  datatype Dims2 = Dims2(first: nat, second: nat)

  datatype Dims3 = Dims3(first: nat, second: nat, third: nat)

  lemma SqMonotone(a: nat, b: nat)
    requires a <= b
    ensures Sq(a) <= Sq(b)
  {
    assert a * a <= a * b <= b * b;
  }

  lemma CubeMonotone(a: nat, b: nat)
    requires a <= b
    ensures Cube(a) <= Cube(b)
  {
    SqMonotone(a, b);
    assert Sq(a) * a <= Sq(b) * a <= Sq(b) * b;
  }

  /** The first loop of `decompose`: the smallest `j >= i` with `j*j >= n`. */
  function SquareCeilFrom(i: nat, n: nat): (r: nat)
    requires i >= 1
    ensures r >= i && Sq(r) >= n
    ensures forall j :: i <= j < r ==> Sq(j) < n
    decreases n - i
  {
    if Sq(i) < n then
      assert i * 1 <= i * i;
      SquareCeilFrom(i + 1, n)
    else i
  }

  /** The first loop of `decompose_3`: the smallest `j >= i` with `j*j*j >= n`. */
  function CubeCeilFrom(i: nat, n: nat): (r: nat)
    requires i >= 1
    ensures r >= i && Cube(r) >= n
    ensures forall j :: i <= j < r ==> Cube(j) < n
    decreases n - i
  {
    if Cube(i) < n then
      assert i * 1 <= i * i;
      assert i * 1 <= i * i * i;
      CubeCeilFrom(i + 1, n)
    else i
  }

  /** The second loop of both functions: counting down from `i`, the first divisor of n.
      It stops at 1 at the latest, since every n is a multiple of 1. */
  function DivisorAtMost(i: nat, n: nat): (r: nat)
    requires i >= 1
    ensures 1 <= r <= i && Divides(r, n)
    ensures forall d :: r < d <= i ==> !Divides(d, n)
  {
    if n % i == 0 then i else DivisorAtMost(i - 1, n)
  }

  /** decompose (CoupledOscillators/simulation_pilot.cpp:7-15). */
  function Decompose(n: nat): (d: Dims2)
    ensures d.first * d.second == n
    ensures d.first >= d.second
    ensures n >= 1 <==> d.second >= 1
  {
    var i := DivisorAtMost(SquareCeilFrom(1, n), n);
    var q := n / i;
    assert q * i == n;
    Dims2(if q > i then q else i, if q < i then q else i)
  }

  /** decompose_3 (CoupledOscillators/simulation_pilot.cpp:17-27). */
  function Decompose3(n: nat): (d: Dims3)
    ensures d.first * d.second * d.third == n
    ensures d.third >= 1 && Divides(d.third, n)
    ensures d.first >= d.second
  {
    var i := DivisorAtMost(CubeCeilFrom(1, n), n);
    var m := n / i;
    var inner := Decompose(m);
    ScaleProduct(inner.first, inner.second, m, i, n);
    Dims3(inner.first, inner.second, i)
  }

  lemma ScaleProduct(a: nat, b: nat, m: nat, i: nat, n: nat)
    requires a * b == m && i >= 1 && n % i == 0 && m == n / i
    ensures a * b * i == n
  {
  }

  /** The reference meaning of "most square": `second` is a divisor whose square does not
      exceed n, and no divisor with that property is larger. */
  ghost predicate MostSquare(n: nat, d: Dims2) {
    && d.first * d.second == n
    && d.first >= d.second
    && Sq(d.second) <= n
    && forall e: nat :: Divides(e, n) && Sq(e) <= n ==> e <= d.second
  }

  lemma MulMonotone(a: nat, b: nat, k: nat)
    ensures a <= b ==> a * k <= b * k
    ensures a < b && k > 0 ==> a * k < b * k
  {
  }

  lemma IntMulBounds(t: int, k: int)
    requires k > 0
    ensures t >= 1 ==> t * k >= k
    ensures t <= -1 ==> t * k <= 0 - k
  {
  }

  lemma MultipleMod(a: nat, k: nat)
    requires k > 0
    ensures (a * k) % k == 0
    ensures (a * k) / k == a
  {
    var x: int := a * k;
    var q := x / k;
    var r := x % k;
    assert x == k * q + r && 0 <= r < k;
    assert k * (a - q) == r;
    IntMulBounds(a - q, k);
  }

  lemma DivExact(a: nat, k: nat)
    requires k > 0 && a % k == 0
    ensures (a / k) * k == a
  {
    assert a == k * (a / k) + a % k;
  }

  lemma SqStrict(a: nat, b: nat)
    ensures a < b ==> Sq(a) < Sq(b)
  {
    MulMonotone(a, b, a);
    MulMonotone(a, b, b);
  }

  lemma SqStep(c: nat)
    ensures Sq(c + 1) == Sq(c) + 2 * c + 1
  {
  }

  /** Any number above the ceiling c (the smallest c >= 1 with c*c >= n) squares above n. */
  lemma AboveCeil(e: nat, c: nat, n: nat)
    requires c >= 1 && Sq(c) >= n
    ensures e > c ==> Sq(e) > n
  {
    SqStep(c);
    if e > c {
      SqMonotone(c + 1, e);
    }
  }

  lemma QuotientBounds(n: nat, i: nat)
    requires i >= 1 && n % i == 0
    ensures (n / i) * i == n
    ensures Sq(i) <= n ==> n / i >= i
    ensures Sq(i) > n ==> n / i < i
  {
    var q := n / i;
    MulMonotone(q, i, i);
    MulMonotone(i, q, i);
  }

  /** `decompose` picks the most nearly square factorisation (for n >= 1). */
  lemma {:induction false} DecomposeMostSquare(n: nat)
    requires n >= 1
    ensures MostSquare(n, Decompose(n))
  {
    var c := SquareCeilFrom(1, n);
    var i := DivisorAtMost(c, n);
    var q := n / i;
    QuotientBounds(n, i);
    var d := Decompose(n);
    if Sq(i) <= n {
      assert d.second == i;
      forall e: nat | Divides(e, n) && Sq(e) <= n
        ensures e <= i
      {
        AboveCeil(e, c, n);
      }
    } else {
      assert d.second == q;
      assert i == c;
      assert q * c == n;
      forall e: nat | Divides(e, n) && Sq(e) <= n
        ensures e <= q
      {
        CoDivisorBound(n, c, q, e);
      }
      MulMonotone(q, i, q);
    }
  }

  /** In the case `i*i > n` (so i is the ceiling c itself and q = n/c): a divisor e whose
      square is at most n has a co-divisor f = n/e with f >= e, hence f*f >= n, hence f >= c,
      hence e <= q. */
  lemma CoDivisorBound(n: nat, c: nat, q: nat, e: nat)
    requires n >= 1 && c >= 1 && q * c == n
    requires forall j :: 1 <= j < c ==> Sq(j) < n
    requires Divides(e, n) && Sq(e) <= n
    ensures e <= q
  {
    var f := n / e;
    assert f * e == n;
    MulMonotone(e, f, e);
    MulMonotone(f, e, e);
    assert e <= f;
    MulMonotone(e, f, f);
    assert Sq(f) >= n;
    assert f >= c;
    MulMonotone(c, f, e);
    MulMonotone(q, e, c);
    MulMonotone(e, q, c);
  }

  /** The divisor search of `decompose_3` (CoupledOscillators/simulation_pilot.cpp:19-21): the
      third factor is the largest divisor not above the smallest i with i*i*i >= n. */
  lemma Decompose3Third(n: nat)
    ensures var c := CubeCeilFrom(1, n);
            && Cube(c) >= n && (c > 1 ==> Cube(c - 1) < n)
            && Decompose3(n).third <= c
            && forall e :: Decompose3(n).third < e <= c ==> !Divides(e, n)
  {
  }

  /** decompose(0) leaves the factors (1, 0); decompose_3(0) leaves (1, 0, 1). */
  lemma DecomposeZero()
    ensures Decompose(0) == Dims2(1, 0)
    ensures Decompose3(0) == Dims3(1, 0, 1)
  {
    assert SquareCeilFrom(1, 0) == 1;
    assert CubeCeilFrom(1, 0) == 1;
  }

  /** A perfect square k*k decomposes into k by k; the default particle count 65536
      therefore gives a 256 by 256 grid. */
  lemma DecomposeSquare(k: nat)
    requires k >= 1
    ensures Decompose(k * k) == Dims2(k, k)
  {
    var n := k * k;
    DecomposeMostSquare(n);
    var d := Decompose(n);
    MultipleMod(k, k);
    assert Divides(k, n) && Sq(k) <= n;
    assert k <= d.second;
    SqStrict(k, d.second);
    assert d.second <= k;
    assert d.first * k == k * k;
    MulMonotone(d.first, k, k);
    MulMonotone(k, d.first, k);
  }

  lemma DefaultParticleGrid()
    ensures Decompose(65536) == Dims2(256, 256)
  {
    DecomposeSquare(256);
  }
}
