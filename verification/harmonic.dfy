/** The one-dimensional harmonic-oscillator helpers of CoupledOscillators/harmonic.cpp:
    `factorial`, the Hermite polynomials, the zero-frequency branches of the three wave
    functions and the widths and means reported to the interface.

    Doubles are exact reals. The wave-function formulas for a nonzero frequency (complex
    exponentials, fractional powers, the squeezed phase factor) are not modelled: they are
    the fields of `Formulas`, given to the wave functions as parameters. */
module Harmonic {

  import opened MathOps
  import opened Complex

  /** n!, the reference definition. */
  function Fact(n: nat): nat {
    if n == 0 then 1 else n * Fact(n - 1)
  }

  /** factorial (CoupledOscillators/harmonic.cpp:17-26), for the whole-number arguments
      its callers pass: the loop runs i = 0..n and multiplies from i = 2 on. */
  method Factorial(n: nat) returns (res: real)
    ensures res == Fact(n) as real
  {
    res := 1.0;
    var prev := 1.0;
    var i: nat := 0;
    while i < n + 1
      invariant i <= n + 1 && res == prev
      invariant res == Fact(if i == 0 then 0 else i - 1) as real
    {
      if i > 1 {
        res := i as real * prev;
        prev := res;
      }
      i := i + 1;
    }
  }

  /** The coefficient of x^k in the closed form the source hard-codes for H_n, n < 20
      (CoupledOscillators/harmonic.cpp:53-100). */
  function ClosedCoefficient(n: nat, k: int): int {
    if n == 0 then
      if k == 0 then 1 else 0
    else if n == 1 then
      if k == 1 then 2 else 0
    else if n == 2 then
      if k == 2 then 4 else if k == 0 then -2 else 0
    else if n == 3 then
      if k == 3 then 8 else if k == 1 then -12 else 0
    else if n == 4 then
      if k == 4 then 16 else if k == 2 then -48 else if k == 0 then 12 else 0
    else if n == 5 then
      if k == 5 then 32 else if k == 3 then -160 else if k == 1 then 120 else 0
    else if n == 6 then
      if k == 6 then 64 else if k == 4 then -480 else if k == 2 then 720 else
      if k == 0 then -120 else 0
    else if n == 7 then
      if k == 7 then 128 else if k == 5 then -1344 else if k == 3 then 3360 else
      if k == 1 then -1680 else 0
    else if n == 8 then
      if k == 8 then 256 else if k == 6 then -3584 else if k == 4 then 13440 else
      if k == 2 then -13440 else if k == 0 then 1680 else 0
    else if n == 9 then
      if k == 9 then 512 else if k == 7 then -9216 else if k == 5 then 48384 else
      if k == 3 then -80640 else if k == 1 then 30240 else 0
    else if n == 10 then
      if k == 10 then 1024 else if k == 8 then -23040 else if k == 6 then 161280 else
      if k == 4 then -403200 else if k == 2 then 302400 else if k == 0 then -30240 else 0
    else if n == 11 then
      if k == 11 then 2048 else if k == 9 then -56320 else if k == 7 then 506880 else
      if k == 5 then -1774080 else if k == 3 then 2217600 else if k == 1 then -665280 else 0
    else if n == 12 then
      if k == 12 then 4096 else if k == 10 then -135168 else if k == 8 then 1520640 else
      if k == 6 then -7096320 else if k == 4 then 13305600 else if k == 2 then -7983360 else
      if k == 0 then 665280 else 0
    else if n == 13 then
      if k == 13 then 8192 else if k == 11 then -319488 else if k == 9 then 4392960 else
      if k == 7 then -26357760 else if k == 5 then 69189120 else if k == 3 then -69189120 else
      if k == 1 then 17297280 else 0
    else if n == 14 then
      if k == 14 then 16384 else if k == 12 then -745472 else if k == 10 then 12300288 else
      if k == 8 then -92252160 else if k == 6 then 322882560 else if k == 4 then -484323840 else
      if k == 2 then 242161920 else if k == 0 then -17297280 else 0
    else if n == 15 then
      if k == 15 then 32768 else if k == 13 then -1720320 else if k == 11 then 33546240 else
      if k == 9 then -307507200 else if k == 7 then 1383782400 else if k == 5 then -2905943040 else
      if k == 3 then 2421619200 else if k == 1 then -518918400 else 0
    else if n == 16 then
      if k == 16 then 65536 else if k == 14 then -3932160 else if k == 12 then 89456640 else
      if k == 10 then -984023040 else if k == 8 then 5535129600 else
      if k == 6 then -15498362880 else if k == 4 then 19372953600 else
      if k == 2 then -8302694400 else if k == 0 then 518918400 else 0
    else if n == 17 then
      if k == 17 then 131072 else if k == 15 then -8912896 else if k == 13 then 233963520 else
      if k == 11 then -3041525760 else if k == 9 then 20910489600 else
      if k == 7 then -75277762560 else if k == 5 then 131736084480 else
      if k == 3 then -94097203200 else if k == 1 then 17643225600 else 0
    else if n == 18 then
      if k == 18 then 262144 else if k == 16 then -20054016 else if k == 14 then 601620480 else
      if k == 12 then -9124577280 else if k == 10 then 75277762560 else
      if k == 8 then -338749931520 else if k == 6 then 790416506880 else
      if k == 4 then -846874828800 else if k == 2 then 317578060800 else
      if k == 0 then -17643225600 else 0
    else if n == 19 then
      if k == 19 then 524288 else if k == 17 then -44826624 else if k == 15 then 1524105216 else
      if k == 13 then -26671841280 else if k == 11 then 260050452480 else
      if k == 9 then -1430277488640 else if k == 7 then 4290832465920 else
      if k == 5 then -6436248698880 else if k == 3 then 4022655436800 else
      if k == 1 then -670442572800 else 0
    else 0
  }

  function Pow(x: real, k: nat): real {
    if k == 0 then 1.0 else x * Pow(x, k - 1)
  }

  /** The terms of degree 0..d of the polynomial with integer coefficients c, evaluated at x. */
  function PolySum(c: int -> int, x: real, d: int): real
    decreases d + 1
  {
    if d < 0 then 0.0 else PolySum(c, x, d - 1) + c(d) as real * Pow(x, d)
  }

  /** The coefficients of the closed form the source hard-codes for H_n. */
  function ClosedForm(n: nat): int -> int {
    k => ClosedCoefficient(n, k)
  }

  /** The hard-coded closed form for H_n, evaluated at x. */
  function ClosedValue(n: nat, x: real): real
    requires n < 20
  {
    PolySum(ClosedForm(n), x, n)
  }

  /** hermite (CoupledOscillators/harmonic.cpp:33-104): the closed form for n < 20, the
      three-term recurrence above; n decreases on every recursive call, so the recursion
      ends in the closed-form range. */
  function Hermite(n: nat, x: real): (r: real)
    ensures n == 0 ==> r == 1.0
    ensures n == 1 ==> r == 2.0 * x
  {
    if n < 20 then
      assert PolySum(ClosedForm(n), x, -1) == 0.0;
      assert Pow(x, 0) == 1.0 && Pow(x, 1) == x;
      ClosedValue(n, x)
    else RecurrenceStep(n, x, Hermite(n - 1, x), Hermite(n - 2, x))
  }

  /** The default branch of hermite: H_n from h1 = H_(n-1) and h2 = H_(n-2). */
  function RecurrenceStep(n: nat, x: real, h1: real, h2: real): real {
    2.0 * x * h1 - 2.0 * (n - 1) as real * h2
  }

  /** The hard-coded closed forms follow the recurrence H_n = 2x H_(n-1) - 2(n-1) H_(n-2)
      coefficient for coefficient: the coefficient of x^k in H_n is twice that of x^(k-1)
      in H_(n-1) minus 2(n-1) times that of x^k in H_(n-2). */
  lemma ClosedFormsFollowRecurrence(n: nat, k: int)
    requires 2 <= n < 20
    ensures ClosedCoefficient(n, k) == 2 * ClosedCoefficient(n - 1, k - 1) - 2 * (n - 1) * ClosedCoefficient(n - 2, k)
  {
  }

  /** No hard-coded closed form has a term outside degrees 0..n. */
  lemma ClosedFormDegree(n: nat, k: int)
    requires n < 20 && (k < 0 || k > n)
    ensures ClosedCoefficient(n, k) == 0
  {
  }

  function Pow2(n: nat): nat {
    if n == 0 then 1 else 2 * Pow2(n - 1)
  }

  /** Every closed form has leading coefficient 2^n. */
  lemma {:induction false} ClosedFormLeading(n: nat)
    requires n < 20
    ensures ClosedCoefficient(n, n) == Pow2(n)
  {
    if n >= 2 {
      ClosedFormLeading(n - 1);
      ClosedFormsFollowRecurrence(n, n);
      ClosedFormDegree(n - 2, n);
    }
  }

  /** Every closed form has only powers of x with the parity of n. */
  lemma {:induction false} ClosedFormParity(n: nat, k: int)
    requires n < 20
    ensures (n - k) % 2 == 1 ==> ClosedCoefficient(n, k) == 0
  {
    if n >= 2 && (n - k) % 2 == 1 {
      assert (n - 1 - (k - 1)) % 2 == 1 && (n - 2 - k) % 2 == 1;
      ClosedFormParity(n - 1, k - 1);
      ClosedFormParity(n - 2, k);
      ClosedFormsFollowRecurrence(n, k);
      var a, b := ClosedCoefficient(n - 1, k - 1), ClosedCoefficient(n - 2, k);
      assert a == 0 && b == 0;
      assert 2 * a - 2 * (n - 1) * b == 0;
    }
  }

  /** Negating x leaves even powers alone and negates odd ones. */
  lemma {:induction false} PowNegated(x: real, k: nat)
    ensures k % 2 == 0 ==> Pow(-x, k) == Pow(x, k)
    ensures k % 2 == 1 ==> Pow(-x, k) == -Pow(x, k)
  {
    if k > 0 {
      PowNegated(x, k - 1);
    }
  }

  /** A polynomial with nonzero coefficients at even degrees only is an even function. */
  lemma {:induction false} EvenPolySum(c: int -> int, x: real, d: int)
    requires forall k :: 0 <= k <= d && c(k) != 0 ==> k % 2 == 0
    ensures PolySum(c, -x, d) == PolySum(c, x, d)
    decreases d + 1
  {
    if d >= 0 {
      EvenPolySum(c, x, d - 1);
      PowNegated(x, d);
    }
  }

  /** A polynomial with nonzero coefficients at odd degrees only is an odd function. */
  lemma {:induction false} OddPolySum(c: int -> int, x: real, d: int)
    requires forall k :: 0 <= k <= d && c(k) != 0 ==> k % 2 == 1
    ensures PolySum(c, -x, d) == -PolySum(c, x, d)
    decreases d + 1
  {
    if d >= 0 {
      OddPolySum(c, x, d - 1);
      PowNegated(x, d);
      var t := c(d) as real;
      if t != 0.0 {
        assert t * Pow(-x, d) == -(t * Pow(x, d));
      }
    }
  }

  /** The nonzero coefficients of a closed form sit at degrees of the parity of n. */
  lemma ClosedFormSigns(n: nat)
    requires n < 20
    ensures forall k :: 0 <= k <= n && ClosedForm(n)(k) != 0 ==> k % 2 == n % 2
  {
    forall k | 0 <= k <= n && ClosedForm(n)(k) != 0
      ensures k % 2 == n % 2
    {
      ClosedFormParity(n, k);
    }
  }

  /** The hard-coded closed forms are even or odd with n as functions of x. */
  lemma ClosedValueParity(n: nat, x: real)
    requires n < 20
    ensures n % 2 == 0 ==> ClosedValue(n, -x) == ClosedValue(n, x)
    ensures n % 2 == 1 ==> ClosedValue(n, -x) == -ClosedValue(n, x)
  {
    ClosedFormSigns(n);
    if n % 2 == 0 {
      EvenPolySum(ClosedForm(n), x, n);
    } else {
      OddPolySum(ClosedForm(n), x, n);
    }
  }

  /** Below n = 20, hermite returns the hard-coded closed form. */
  lemma HermiteClosed(n: nat, x: real)
    requires n < 20
    ensures Hermite(n, x) == ClosedValue(n, x)
  {
  }

  /** From n = 20 on, hermite takes the default branch. */
  lemma HermiteUnfold(n: nat, x: real)
    requires n >= 20
    ensures Hermite(n, x) == RecurrenceStep(n, x, Hermite(n - 1, x), Hermite(n - 2, x))
  {
  }

  /** The recurrence step at -x, fed an odd H_(n-1) and an even H_(n-2) for even n (an even
      H_(n-1) and an odd H_(n-2) for odd n), gives a value of the parity of n. */
  lemma RecurrenceParity(n: nat, x: real, h1: real, h2: real)
    requires n >= 2
    ensures n % 2 == 0 ==> RecurrenceStep(n, -x, -h1, h2) == RecurrenceStep(n, x, h1, h2)
    ensures n % 2 == 1 ==> RecurrenceStep(n, -x, h1, -h2) == -RecurrenceStep(n, x, h1, h2)
  {
  }

  /** Every Hermite polynomial, hard-coded or from the recurrence, is even or odd with n:
      H_n(-x) = (-1)^n H_n(x). */
  lemma {:induction false} HermiteParity(n: nat, x: real)
    ensures n % 2 == 0 ==> Hermite(n, -x) == Hermite(n, x)
    ensures n % 2 == 1 ==> Hermite(n, -x) == -Hermite(n, x)
    decreases n, 1
  {
    if n < 20 {
      ClosedValueParity(n, x);
      HermiteClosed(n, x);
      HermiteClosed(n, -x);
    } else {
      RecurrenceValueParity(n, x);
    }
  }

  /** From n = 20 on, the parity passes from H_(n-1) and H_(n-2) to H_n. */
  lemma {:induction false} RecurrenceValueParity(n: nat, x: real)
    requires n >= 20
    ensures n % 2 == 0 ==> Hermite(n, -x) == Hermite(n, x)
    ensures n % 2 == 1 ==> Hermite(n, -x) == -Hermite(n, x)
    decreases n, 0
  {
    HermiteParity(n - 1, x);
    HermiteParity(n - 2, x);
    HermiteUnfold(n, x);
    HermiteUnfold(n, -x);
    CombineParity(n, x, Hermite(n, x), Hermite(n, -x), Hermite(n - 1, x), Hermite(n - 2, x),
                  Hermite(n - 1, -x), Hermite(n - 2, -x));
  }

  /** The recurrence's value at -x, given the parities of its two inputs. */
  lemma CombineParity(n: nat, x: real, h: real, hNeg: real, h1: real, h2: real, g1: real, g2: real)
    requires n >= 2
    requires h == RecurrenceStep(n, x, h1, h2) && hNeg == RecurrenceStep(n, -x, g1, g2)
    requires (n - 1) % 2 == 0 ==> g1 == h1
    requires (n - 1) % 2 == 1 ==> g1 == -h1
    requires (n - 2) % 2 == 0 ==> g2 == h2
    requires (n - 2) % 2 == 1 ==> g2 == -h2
    ensures n % 2 == 0 ==> hNeg == h
    ensures n % 2 == 1 ==> hNeg == -h
  {
    RecurrenceParity(n, x, h1, h2);
  }

  /** get_tall_thin_gaussian_standard_dev (CoupledOscillators/harmonic.cpp:106-108). */
  const TallThinStandardDev: real := 0.01

  /** tall_thin_gaussian (CoupledOscillators/harmonic.cpp:110-113): a narrow real Gaussian
      centred on x0, standing in for a position eigenstate when the frequency is zero. It is
      positive in exact reals; in doubles it underflows to 0 once |x - x0| exceeds about 0.546. */
  function TallThinGaussian(ops: Math, x: real, x0: real): (z: Complex)
    ensures z.im == 0.0 && z.re > 0.0
  {
    FromReal(TallThinProfile(ops, (x - x0) / TallThinStandardDev))
  }

  /** The Gaussian profile at y standard deviations from the centre. */
  function TallThinProfile(ops: Math, y: real): (r: real)
    ensures r > 0.0
  {
    var root := Sqrt(ops, TallThinStandardDev * Sqrt(ops, 2.0 * PI));
    assert root > 0.0;
    var e := ops.exp(-0.25 * (y * y));
    assert e / root > 0.0;
    e / root
  }

  /** The tall-thin Gaussian is symmetric about its centre. */
  lemma TallThinSymmetric(ops: Math, x0: real, d: real)
    ensures TallThinGaussian(ops, x0 + d, x0) == TallThinGaussian(ops, x0 - d, x0)
  {
    var y := (x0 + d - x0) / TallThinStandardDev;
    assert (x0 - d - x0) / TallThinStandardDev == -y;
    ProfileEven(ops, y);
  }

  lemma ProfileEven(ops: Math, y: real)
    ensures TallThinProfile(ops, -y) == TallThinProfile(ops, y)
  {
    assert -0.25 * (-y * -y) == -0.25 * (y * y);
  }

  /** The wave-function formulas for a nonzero frequency, which the model leaves open:
      stationary_state(n, x, t, m, omega, hbar), coherent_state(x, t, x0, p0, m, omega, hbar)
      and squeezed_state(x, t, x0, p0, sigma0, m, omega, hbar, omit_phase). */
  datatype Formulas = Formulas(
    stationary: (nat, real, real, real, real, real) -> Complex,
    coherent: (real, real, real, real, real, real, real) -> Complex,
    squeezed: (real, real, real, real, real, real, real, real, bool) -> Complex)

  /** stationary_state (CoupledOscillators/harmonic.cpp:117-133). At zero frequency the state is the
      tall-thin Gaussian; the clause for a nonzero frequency only names the `Formulas`
      parameter that stands for the closed form. */
  function StationaryState(ops: Math, f: Formulas, n: nat, x: real, t: real, m: real, omega: real, hbar: real): (z: Complex)
    ensures omega == 0.0 ==> z == TallThinGaussian(ops, x, 0.0) && z.im == 0.0 && z.re > 0.0
    ensures omega != 0.0 ==> z == f.stationary(n, x, t, m, omega, hbar)
  {
    if omega == 0.0 then TallThinGaussian(ops, x, 0.0) else f.stationary(n, x, t, m, omega, hbar)
  }

  /** coherent_state (CoupledOscillators/harmonic.cpp:148-164). At zero frequency the state is the
      tall-thin Gaussian; the clause for a nonzero frequency only names the `Formulas`
      parameter that stands for the closed form. */
  function CoherentState(ops: Math, f: Formulas, x: real, t: real, x0: real, p0: real,
                         m: real, omega: real, hbar: real): (z: Complex)
    ensures omega == 0.0 ==> z == TallThinGaussian(ops, x, x0) && z.im == 0.0 && z.re > 0.0
    ensures omega != 0.0 ==> z == f.coherent(x, t, x0, p0, m, omega, hbar)
  {
    if omega == 0.0 then TallThinGaussian(ops, x, x0) else f.coherent(x, t, x0, p0, m, omega, hbar)
  }

  /** squeezed_state (CoupledOscillators/harmonic.cpp:215-236). At zero frequency the state is the
      tall-thin Gaussian; the clause for a nonzero frequency only names the `Formulas`
      parameter that stands for the closed form. */
  function SqueezedState(ops: Math, f: Formulas, x: real, t: real, x0: real, p0: real, sigma0: real,
                         m: real, omega: real, hbar: real, omitPhase: bool): (z: Complex)
    ensures omega == 0.0 ==> z == TallThinGaussian(ops, x, x0) && z.im == 0.0 && z.re > 0.0
    ensures omega != 0.0 ==> z == f.squeezed(x, t, x0, p0, sigma0, m, omega, hbar, omitPhase)
  {
    if omega == 0.0 then TallThinGaussian(ops, x, x0)
    else f.squeezed(x, t, x0, p0, sigma0, m, omega, hbar, omitPhase)
  }

  /** At zero frequency every state is the tall-thin Gaussian at its centre (the origin for
      a stationary state), a positive real amplitude that depends on nothing else: not on
      the level, the time, the momentum, the width, the mass or hbar. */
  lemma ZeroFrequencyStates(ops: Math, f: Formulas, n: nat, x: real, t: real, x0: real, p0: real,
                            sigma0: real, m: real, hbar: real, omitPhase: bool)
    ensures StationaryState(ops, f, n, x, t, m, 0.0, hbar) == CoherentState(ops, f, x, 0.0, 0.0, 0.0, 1.0, 0.0, 1.0)
    ensures CoherentState(ops, f, x, t, x0, p0, m, 0.0, hbar) == SqueezedState(ops, f, x, 0.0, x0, 0.0, 1.0, 1.0, 0.0, 1.0, true)
    ensures SqueezedState(ops, f, x, t, x0, p0, sigma0, m, 0.0, hbar, omitPhase) == TallThinGaussian(ops, x, x0)
    ensures StationaryState(ops, f, n, x, t, m, 0.0, hbar).im == 0.0
    ensures StationaryState(ops, f, n, x, t, m, 0.0, hbar).re > 0.0
  {
  }

  /** coherent_standard_dev (CoupledOscillators/harmonic.cpp:238-243). A zero mass with a
      nonzero frequency divides by zero in the source and is excluded. */
  function CoherentStandardDev(ops: Math, m: real, omega: real, hbar: real): (r: real)
    requires omega != 0.0 ==> m != 0.0
    ensures omega == 0.0 ==> r == TallThinStandardDev
    ensures omega != 0.0 && hbar / (m * omega) > 0.0 ==> r > 0.0
  {
    if omega == 0.0 then TallThinStandardDev
    else
      assert hbar / (2.0 * m * omega) == (hbar / (m * omega)) / 2.0;
      Sqrt(ops, hbar / (2.0 * m * omega))
  }

  /** squeezed_standard_dev (CoupledOscillators/harmonic.cpp:245-257). A zero mass or initial
      width with a nonzero frequency divides by zero in the source and is excluded. */
  function SqueezedStandardDev(ops: Math, t: real, sigma0: real, m: real, omega: real, hbar: real): (r: real)
    requires omega != 0.0 ==> m != 0.0 && sigma0 != 0.0
    ensures omega == 0.0 ==> r == TallThinStandardDev
    ensures r >= 0.0
  {
    if omega == 0.0 then TallThinStandardDev
    else
      var c, s := ops.cos(t * omega), ops.sin(t * omega);
      var sigma4 := sigma0 * sigma0 * sigma0 * sigma0;
      var spread := hbar * hbar * s * s + 4.0 * (m * m) * (omega * omega) * sigma4 * c * c;
      var scale := WidthScale(m, omega, sigma0);
      QuotientSign(Sqrt(ops, spread), scale);
      Sqrt(ops, spread) / scale
  }

  /** The divisor `abs(2 m omega sigma0)`, positive when no factor is zero. */
  function WidthScale(m: real, omega: real, sigma0: real): (r: real)
    requires m != 0.0 && omega != 0.0 && sigma0 != 0.0
    ensures r > 0.0
  {
    NonzeroProduct(m, omega, sigma0);
    Abs(2.0 * m * omega * sigma0)
  }

  lemma NonzeroProduct(a: real, b: real, c: real)
    requires a != 0.0 && b != 0.0 && c != 0.0
    ensures 2.0 * a * b * c != 0.0
  {
  }

  lemma QuotientSign(p: real, q: real)
    requires p >= 0.0 && q > 0.0
    ensures p / q >= 0.0
    ensures p > 0.0 ==> p / q > 0.0
  {
  }

  function Abs(a: real): real {
    if a < 0.0 then -a else a
  }

  /** squeezed_avg_x (CoupledOscillators/harmonic.cpp:259-267). */
  function SqueezedAvgX(ops: Math, t: real, x0: real, p0: real, m: real, omega: real, hbar: real): (r: real)
    requires omega != 0.0 ==> m != 0.0
    ensures omega == 0.0 ==> r == x0
    ensures x0 == 0.0 && p0 == 0.0 ==> r == 0.0
  {
    if omega == 0.0 then x0
    else x0 * ops.cos(t * omega) + p0 * ops.sin(t * omega) / (m * omega)
  }

  /** squeezed_avg_p (CoupledOscillators/harmonic.cpp:269-277). */
  function SqueezedAvgP(ops: Math, t: real, x0: real, p0: real, m: real, omega: real, hbar: real): (r: real)
    requires omega != 0.0 ==> m != 0.0
    ensures omega == 0.0 ==> r == 0.0
    ensures x0 == 0.0 && p0 == 0.0 ==> r == 0.0
  {
    if omega == 0.0 then 0.0
    else -omega * x0 * ops.sin(t * omega) + (p0 / m) * ops.cos(t * omega)
  }

  /** The reported means start where the packet starts: at t = 0 the mean position is x0
      for every frequency, and the mean reported for the momentum is p0/m for a nonzero
      frequency but 0 at zero frequency, whatever p0 is. At zero frequency neither moves. */
  lemma SqueezedMeansAtStart(ops: Math, t: real, x0: real, p0: real, m: real, omega: real, hbar: real)
    requires omega != 0.0 ==> m != 0.0
    ensures SqueezedAvgX(ops, 0.0, x0, p0, m, omega, hbar) == x0
    ensures omega != 0.0 ==> SqueezedAvgP(ops, 0.0, x0, p0, m, omega, hbar) == p0 / m
    ensures omega == 0.0 ==> SqueezedAvgX(ops, t, x0, p0, m, omega, hbar) == x0
    ensures omega == 0.0 ==> SqueezedAvgP(ops, t, x0, p0, m, omega, hbar) == 0.0
  {
    assert 0.0 * omega == 0.0;
  }
}
