/** The many-oscillator probability densities of CoupledOscillators/multidimensional_harmonic.cpp:
    products over the normal modes of one-dimensional amplitudes, and the superposition of
    single excitations. Each density is the squared modulus of a complex amplitude. The
    one-dimensional amplitudes are those of the Harmonic module, whose nonzero-frequency
    formulas stay open. */
module MultidimensionalHarmonic {

  import opened Complex
  import opened MathOps
  import opened Harmonic

  /** The product z[0] * z[1] * ... taken left to right, as `prod *= z` accumulates it. */
  function Prod(zs: seq<Complex>): Complex
    decreases |zs|
  {
    if |zs| == 0 then One else Mul(Prod(zs[..|zs| - 1]), zs[|zs| - 1])
  }

  /** The product of the entries other than the one at `skip`, in order. */
  function ProdSkipping(zs: seq<Complex>, skip: int): Complex
    decreases |zs|
  {
    if |zs| == 0 then One
    else if |zs| - 1 == skip then ProdSkipping(zs[..|zs| - 1], skip)
    else Mul(ProdSkipping(zs[..|zs| - 1], skip), zs[|zs| - 1])
  }

  /** Skipping an index outside the sequence skips nothing. */
  lemma {:induction false} ProdSkippingOutside(zs: seq<Complex>, skip: int)
    requires skip < 0 || skip >= |zs|
    ensures ProdSkipping(zs, skip) == Prod(zs)
    decreases |zs|
  {
    if |zs| > 0 {
      ProdSkippingOutside(zs[..|zs| - 1], skip);
    }
  }

  /** Any factor that is zero makes the whole product zero. */
  lemma {:induction false} ProdWithZero(zs: seq<Complex>, k: nat)
    requires k < |zs| && zs[k] == Zero
    ensures Prod(zs) == Zero
    decreases |zs|
  {
    if k < |zs| - 1 {
      ProdWithZero(zs[..|zs| - 1], k);
      MulZeroLeft(zs[|zs| - 1]);
    } else {
      assert Mul(Prod(zs[..|zs| - 1]), Zero) == Zero;
    }
  }

  // ---------------------------------------------------------------------------------
  // Products over the modes.
  // ---------------------------------------------------------------------------------

  /** The per-mode coherent-state amplitudes of coherent_state_prod. */
  function CoherentAmplitudes(ops: Math, f: Formulas, x: seq<real>, t: real, x0: seq<real>, p0: seq<real>,
                              m: real, omega: seq<real>, hbar: real): (zs: seq<Complex>)
    requires |x0| >= |x| && |p0| >= |x| && |omega| >= |x|
    ensures |zs| == |x|
    ensures forall i :: 0 <= i < |x| ==> zs[i] == CoherentState(ops, f, x[i], t, x0[i], p0[i], m, omega[i], hbar)
  {
    seq(|x|, (i: nat) requires i < |x| => CoherentState(ops, f, x[i], t, x0[i], p0[i], m, omega[i], hbar))
  }

  /** coherent_state_prod (CoupledOscillators/multidimensional_harmonic.cpp:9-18). The loop
      runs over the coordinates, and reads the same index of every parameter array, so those
      must be at least as long as x. */
  method CoherentStateProd(ops: Math, f: Formulas, x: seq<real>, t: real, x0: seq<real>, p0: seq<real>,
                           m: real, omega: seq<real>, hbar: real) returns (r: real)
    requires |x0| >= |x| && |p0| >= |x| && |omega| >= |x|
    ensures r >= 0.0
    ensures r == Norm2(Prod(CoherentAmplitudes(ops, f, x, t, x0, p0, m, omega, hbar)))
    ensures |x| == 0 ==> r == 1.0
  {
    ghost var zs := CoherentAmplitudes(ops, f, x, t, x0, p0, m, omega, hbar);
    var prod := One;
    var i := 0;
    while i < |x|
      invariant 0 <= i <= |x|
      invariant prod == Prod(zs[..i])
    {
      assert zs[..i + 1][..i] == zs[..i];
      prod := Mul(prod, CoherentState(ops, f, x[i], t, x0[i], p0[i], m, omega[i], hbar));
      i := i + 1;
    }
    assert zs[..|x|] == zs;
    r := Norm2(prod);
  }

  /** The per-mode amplitudes of squeezed_state_prod. squeezed_state is called with eight
      arguments, so its default omit_phase = true applies (CoupledOscillators/harmonic.hpp:58)
      and the phase factor is left out. */
  function SqueezedAmplitudes(ops: Math, f: Formulas, x: seq<real>, t: real, x0: seq<real>, p0: seq<real>,
                              sigma0: seq<real>, m: real, omega: seq<real>, hbar: real): (zs: seq<Complex>)
    requires |x0| >= |x| && |p0| >= |x| && |sigma0| >= |x| && |omega| >= |x|
    ensures |zs| == |x|
    ensures forall i :: 0 <= i < |x| ==>
      zs[i] == SqueezedState(ops, f, x[i], t, x0[i], p0[i], sigma0[i], m, omega[i], hbar, true)
  {
    seq(|x|, (i: nat) requires i < |x| => SqueezedState(ops, f, x[i], t, x0[i], p0[i], sigma0[i], m, omega[i], hbar, true))
  }

  /** squeezed_state_prod (CoupledOscillators/multidimensional_harmonic.cpp:49-60). */
  method SqueezedStateProd(ops: Math, f: Formulas, x: seq<real>, t: real, x0: seq<real>, p0: seq<real>,
                           sigma0: seq<real>, m: real, omega: seq<real>, hbar: real) returns (r: real)
    requires |x0| >= |x| && |p0| >= |x| && |sigma0| >= |x| && |omega| >= |x|
    ensures r >= 0.0
    ensures r == Norm2(Prod(SqueezedAmplitudes(ops, f, x, t, x0, p0, sigma0, m, omega, hbar)))
    ensures |x| == 0 ==> r == 1.0
  {
    ghost var zs := SqueezedAmplitudes(ops, f, x, t, x0, p0, sigma0, m, omega, hbar);
    var prod := One;
    var i := 0;
    while i < |x|
      invariant 0 <= i <= |x|
      invariant prod == Prod(zs[..i])
    {
      assert zs[..i + 1][..i] == zs[..i];
      prod := Mul(prod, SqueezedState(ops, f, x[i], t, x0[i], p0[i], sigma0[i], m, omega[i], hbar, true));
      i := i + 1;
    }
    assert zs[..|x|] == zs;
    r := Norm2(prod);
  }

  /** 2^64, the number of `size_t` values. */
  const SizeTModulus: nat := 0x1_0000_0000_0000_0000

  /** The conversion of an `int` excitation to the `size_t` level stationary_state takes: the
      `size_t` value congruent to it modulo 2^64, so a negative value wraps around. */
  function ToSizeT(e: int): (r: nat)
    ensures r < SizeTModulus
    ensures (e - r) % SizeTModulus == 0
    ensures 0 <= e < SizeTModulus ==> r == e
  {
    e % SizeTModulus
  }

  /** The excitation -1 becomes the largest `size_t` value. */
  lemma ToSizeTMinusOne()
    ensures ToSizeT(-1) == SizeTModulus - 1
  {
  }

  /** The per-mode amplitudes of stationary_states_prod, one per excitation entry. */
  function StationaryAmplitudes(ops: Math, f: Formulas, x: seq<real>, t: real, excitations: seq<int>,
                                m: real, omega: seq<real>, hbar: real): (zs: seq<Complex>)
    requires |x| >= |excitations| && |omega| >= |excitations|
    ensures |zs| == |excitations|
    ensures forall i :: 0 <= i < |excitations| ==>
      zs[i] == StationaryState(ops, f, ToSizeT(excitations[i]), x[i], t, m, omega[i], hbar)
  {
    seq(|excitations|, (i: nat) requires i < |excitations| =>
      StationaryState(ops, f, ToSizeT(excitations[i]), x[i], t, m, omega[i], hbar))
  }

  /** stationary_states_prod (CoupledOscillators/multidimensional_harmonic.cpp:29-39). Unlike
      the other products it loops over the excitation numbers, so x and omega must be at
      least as long as those. */
  method StationaryStatesProd(ops: Math, f: Formulas, x: seq<real>, t: real, excitations: seq<int>,
                              m: real, omega: seq<real>, hbar: real) returns (r: real)
    requires |x| >= |excitations| && |omega| >= |excitations|
    ensures r >= 0.0
    ensures r == Norm2(Prod(StationaryAmplitudes(ops, f, x, t, excitations, m, omega, hbar)))
    ensures |excitations| == 0 ==> r == 1.0
  {
    ghost var zs := StationaryAmplitudes(ops, f, x, t, excitations, m, omega, hbar);
    var prod := One;
    var i := 0;
    while i < |excitations|
      invariant 0 <= i <= |excitations|
      invariant prod == Prod(zs[..i])
    {
      assert zs[..i + 1][..i] == zs[..i];
      prod := Mul(prod, StationaryState(ops, f, ToSizeT(excitations[i]), x[i], t, m, omega[i], hbar));
      i := i + 1;
    }
    assert zs[..|excitations|] == zs;
    r := Norm2(prod);
  }

  /** Coordinates past the number of excitations do not affect the stationary density. */
  lemma StationaryIgnoresTrailingCoordinates(ops: Math, f: Formulas, x: seq<real>, y: seq<real>, t: real,
                                             excitations: seq<int>, m: real, omega: seq<real>, hbar: real)
    requires |x| >= |excitations| && |y| >= |excitations| && |omega| >= |excitations|
    requires x[..|excitations|] == y[..|excitations|]
    ensures StationaryAmplitudes(ops, f, x, t, excitations, m, omega, hbar)
         == StationaryAmplitudes(ops, f, y, t, excitations, m, omega, hbar)
  {
    var n := |excitations|;
    forall i | 0 <= i < n
      ensures x[i] == y[i]
    {
      assert x[..n][i] == x[i] && y[..n][i] == y[i];
    }
  }

  /** A mode at zero frequency contributes the tall-thin Gaussian, whatever its excitation. */
  lemma StationaryZeroFrequencyMode(ops: Math, f: Formulas, x: seq<real>, t: real, excitations: seq<int>,
                                    m: real, omega: seq<real>, hbar: real, i: nat)
    requires |x| >= |excitations| && |omega| >= |excitations|
    requires i < |excitations| && omega[i] == 0.0
    ensures StationaryAmplitudes(ops, f, x, t, excitations, m, omega, hbar)[i] == TallThinGaussian(ops, x[i], 0.0)
  {
  }

  // ---------------------------------------------------------------------------------
  // Superposition of single excitations.
  // ---------------------------------------------------------------------------------

  /** Term i of single_excitations_sum: coeff[i] times the ground-state amplitudes of every
      other mode times the first excited amplitude of mode i. */
  function Term(coeff: seq<Complex>, ground: seq<Complex>, excited: seq<Complex>, i: nat): Complex
    requires i < |coeff| && i < |excited|
  {
    Mul(Mul(coeff[i], ProdSkipping(ground, i)), excited[i])
  }

  /** The sum of the first n terms, leaving out those with a zero coefficient as the source
      does. */
  function SkippingSum(coeff: seq<Complex>, ground: seq<Complex>, excited: seq<Complex>, n: nat): Complex
    requires n <= |coeff| && n <= |excited|
  {
    if n == 0 then Zero
    else if coeff[n - 1] != Zero then Add(SkippingSum(coeff, ground, excited, n - 1), Term(coeff, ground, excited, n - 1))
    else SkippingSum(coeff, ground, excited, n - 1)
  }

  /** The sum of all of the first n terms. */
  function FullSum(coeff: seq<Complex>, ground: seq<Complex>, excited: seq<Complex>, n: nat): Complex
    requires n <= |coeff| && n <= |excited|
  {
    if n == 0 then Zero else Add(FullSum(coeff, ground, excited, n - 1), Term(coeff, ground, excited, n - 1))
  }

  /** Leaving out the terms with a zero coefficient does not change the sum. */
  lemma {:induction false} SkippingZeroTermsIsExact(coeff: seq<Complex>, ground: seq<Complex>,
                                                    excited: seq<Complex>, n: nat)
    requires n <= |coeff| && n <= |excited|
    ensures SkippingSum(coeff, ground, excited, n) == FullSum(coeff, ground, excited, n)
  {
    if n > 0 {
      SkippingZeroTermsIsExact(coeff, ground, excited, n - 1);
      if coeff[n - 1] == Zero {
        MulZeroLeft(ProdSkipping(ground, n - 1));
        MulZeroLeft(excited[n - 1]);
        AddZeroRight(FullSum(coeff, ground, excited, n - 1));
      }
    }
  }

  /** With every coefficient zero the superposition vanishes. */
  lemma {:induction false} AllZeroCoefficients(coeff: seq<Complex>, ground: seq<Complex>,
                                               excited: seq<Complex>, n: nat)
    requires n <= |coeff| && n <= |excited|
    requires forall i :: 0 <= i < n ==> coeff[i] == Zero
    ensures SkippingSum(coeff, ground, excited, n) == Zero
    ensures FullSum(coeff, ground, excited, n) == Zero
  {
    if n > 0 {
      AllZeroCoefficients(coeff, ground, excited, n - 1);
    }
    SkippingZeroTermsIsExact(coeff, ground, excited, n);
  }

  /** The ground and first excited amplitudes of every mode. */
  function LevelAmplitudes(ops: Math, f: Formulas, level: nat, x: seq<real>, t: real, m: real,
                           omega: seq<real>, hbar: real): (zs: seq<Complex>)
    requires |omega| >= |x|
    ensures |zs| == |x|
    ensures forall i :: 0 <= i < |x| ==> zs[i] == StationaryState(ops, f, level, x[i], t, m, omega[i], hbar)
  {
    seq(|x|, (i: nat) requires i < |x| => StationaryState(ops, f, level, x[i], t, m, omega[i], hbar))
  }

  /** The density single_excitations_sum computes, stated with every term included. */
  function SingleExcitationsDensity(ops: Math, f: Formulas, x: seq<real>, coeff: seq<Complex>, t: real, m: real,
                                    omega: seq<real>, hbar: real): real
    requires |coeff| >= |x| && |omega| >= |x|
  {
    var ground := LevelAmplitudes(ops, f, 0, x, t, m, omega, hbar);
    var excited := LevelAmplitudes(ops, f, 1, x, t, m, omega, hbar);
    Norm2(FullSum(coeff, ground, excited, |x|))
  }

  /** single_excitations_sum (CoupledOscillators/multidimensional_harmonic.cpp:71-91). The
      ground-state amplitudes are computed once; each term with a nonzero coefficient then
      multiplies those of the other modes. `abs(coeff[i]) != 0` holds exactly when the
      coefficient is not zero. */
  method SingleExcitationsSum(ops: Math, f: Formulas, x: seq<real>, coeff: seq<Complex>, t: real, m: real,
                              omega: seq<real>, hbar: real) returns (r: real)
    requires |coeff| >= |x| && |omega| >= |x|
    ensures r >= 0.0
    ensures r == SingleExcitationsDensity(ops, f, x, coeff, t, m, omega, hbar)
    ensures (forall i :: 0 <= i < |x| ==> coeff[i] == Zero) ==> r == 0.0
  {
    var n := |x|;
    var groundStates := GroundStates(ops, f, x, t, m, omega, hbar);
    assert groundStates == LevelAmplitudes(ops, f, 0, x, t, m, omega, hbar);
    ghost var excited := LevelAmplitudes(ops, f, 1, x, t, m, omega, hbar);
    var sum := ExcitationTerms(ops, f, x, coeff, groundStates, t, m, omega, hbar);
    SkippingZeroTermsIsExact(coeff, groundStates, excited, n);
    if forall k :: 0 <= k < n ==> coeff[k] == Zero {
      AllZeroCoefficients(coeff, groundStates, excited, n);
    }
    r := Norm2(sum);
  }

  /** The second loop of single_excitations_sum: the terms with a nonzero coefficient,
      each the coefficient times the other modes' ground states times the mode's first
      excited state. */
  method ExcitationTerms(ops: Math, f: Formulas, x: seq<real>, coeff: seq<Complex>, groundStates: seq<Complex>,
                         t: real, m: real, omega: seq<real>, hbar: real) returns (sum: Complex)
    requires |coeff| >= |x| && |omega| >= |x| && |groundStates| == |x|
    ensures sum == SkippingSum(coeff, groundStates, LevelAmplitudes(ops, f, 1, x, t, m, omega, hbar), |x|)
  {
    ghost var excited := LevelAmplitudes(ops, f, 1, x, t, m, omega, hbar);
    sum := Zero;
    var i := 0;
    while i < |x|
      invariant 0 <= i <= |x|
      invariant sum == SkippingSum(coeff, groundStates, excited, i)
    {
      if coeff[i] != Zero {
        var prod := ProductOfOthers(groundStates, i);
        var e := StationaryState(ops, f, 1, x[i], t, m, omega[i], hbar);
        assert e == excited[i];
        sum := Add(sum, Mul(Mul(coeff[i], prod), e));
      }
      i := i + 1;
    }
  }

  /** The first loop of single_excitations_sum: the ground-state amplitude of every mode. */
  method GroundStates(ops: Math, f: Formulas, x: seq<real>, t: real, m: real, omega: seq<real>, hbar: real)
    returns (groundStates: seq<Complex>)
    requires |omega| >= |x|
    ensures |groundStates| == |x|
    ensures forall k :: 0 <= k < |x| ==> groundStates[k] == StationaryState(ops, f, 0, x[k], t, m, omega[k], hbar)
  {
    groundStates := [];
    var i := 0;
    while i < |x|
      invariant 0 <= i <= |x|
      invariant |groundStates| == i
      invariant forall k :: 0 <= k < i ==> groundStates[k] == StationaryState(ops, f, 0, x[k], t, m, omega[k], hbar)
    {
      groundStates := groundStates + [StationaryState(ops, f, 0, x[i], t, m, omega[i], hbar)];
      i := i + 1;
    }
  }

  /** The inner loop of single_excitations_sum: the product of every amplitude but the i-th,
      which equals the product of the sequence with that entry removed. */
  method ProductOfOthers(zs: seq<Complex>, i: nat) returns (prod: Complex)
    requires i < |zs|
    ensures prod == ProdSkipping(zs, i)
    ensures prod == Prod(zs[..i] + zs[i + 1..])
  {
    prod := One;
    var k := 0;
    while k < |zs|
      invariant 0 <= k <= |zs|
      invariant prod == ProdSkipping(zs[..k], i)
    {
      assert zs[..k + 1][..k] == zs[..k];
      if k != i {
        prod := Mul(prod, zs[k]);
      }
      k := k + 1;
    }
    assert zs[..|zs|] == zs;
    ProdSkippingRemoves(zs, i);
  }

  /** Skipping index i is taking the product of the sequence with entry i removed. */
  lemma {:induction false} ProdSkippingRemoves(zs: seq<Complex>, i: nat)
    requires i < |zs|
    ensures ProdSkipping(zs, i) == Prod(zs[..i] + zs[i + 1..])
    decreases |zs|
  {
    var n := |zs|;
    var init := zs[..n - 1];
    if n - 1 == i {
      ProdSkippingOutside(init, i);
      assert zs[..i] + zs[i + 1..] == init;
    } else {
      ProdSkippingRemoves(init, i);
      var s := zs[..i] + zs[i + 1..];
      assert s[..|s| - 1] == init[..i] + init[i + 1..];
      assert s[|s| - 1] == zs[n - 1];
    }
  }

  // ---------------------------------------------------------------------------------
  // The density callbacks handed to the sampler.
  // ---------------------------------------------------------------------------------

  datatype CoherentStateProdData = CoherentStateProdData(t: real, m: real, hbar: real,
                                                         x0: seq<real>, p0: seq<real>, omega: seq<real>)

  datatype StationaryStatesProdData = StationaryStatesProdData(t: real, m: real, hbar: real,
                                                               excitations: seq<int>, omega: seq<real>)

  datatype SqueezedStateProdData = SqueezedStateProdData(t: real, m: real, hbar: real, x0: seq<real>,
                                                         p0: seq<real>, sigma0: seq<real>, omega: seq<real>)

  datatype SingleExcitationsStateData = SingleExcitationsStateData(t: real, m: real, hbar: real,
                                                                   omega: seq<real>, coeff: seq<Complex>)

  /** coherent_state_prod_dist_func (CoupledOscillators/multidimensional_harmonic.cpp:21-27). */
  method CoherentStateProdDistFunc(ops: Math, f: Formulas, x: seq<real>, data: CoherentStateProdData) returns (r: real)
    requires |data.x0| >= |x| && |data.p0| >= |x| && |data.omega| >= |x|
    ensures r >= 0.0
    ensures r == Norm2(Prod(CoherentAmplitudes(ops, f, x, data.t, data.x0, data.p0, data.m, data.omega, data.hbar)))
  {
    r := CoherentStateProd(ops, f, x, data.t, data.x0, data.p0, data.m, data.omega, data.hbar);
  }

  /** stationary_states_prod_dist_func (CoupledOscillators/multidimensional_harmonic.cpp:41-47). */
  method StationaryStatesProdDistFunc(ops: Math, f: Formulas, x: seq<real>, data: StationaryStatesProdData)
    returns (r: real)
    requires |x| >= |data.excitations| && |data.omega| >= |data.excitations|
    ensures r >= 0.0
    ensures r == Norm2(Prod(StationaryAmplitudes(ops, f, x, data.t, data.excitations, data.m, data.omega, data.hbar)))
  {
    r := StationaryStatesProd(ops, f, x, data.t, data.excitations, data.m, data.omega, data.hbar);
  }

  /** squeezed_state_prod_dist_func (CoupledOscillators/multidimensional_harmonic.cpp:62-69). */
  method SqueezedStateProdDistFunc(ops: Math, f: Formulas, x: seq<real>, data: SqueezedStateProdData) returns (r: real)
    requires |data.x0| >= |x| && |data.p0| >= |x| && |data.sigma0| >= |x| && |data.omega| >= |x|
    ensures r >= 0.0
    ensures r == Norm2(Prod(SqueezedAmplitudes(ops, f, x, data.t, data.x0, data.p0, data.sigma0,
                                               data.m, data.omega, data.hbar)))
  {
    r := SqueezedStateProd(ops, f, x, data.t, data.x0, data.p0, data.sigma0, data.m, data.omega, data.hbar);
  }

  /** single_excitations_sum_dist_func (CoupledOscillators/multidimensional_harmonic.cpp:93-102). */
  method SingleExcitationsSumDistFunc(ops: Math, f: Formulas, x: seq<real>, data: SingleExcitationsStateData)
    returns (r: real)
    requires |data.coeff| >= |x| && |data.omega| >= |x|
    ensures r >= 0.0
    ensures r == SingleExcitationsDensity(ops, f, x, data.coeff, data.t, data.m, data.omega, data.hbar)
  {
    r := SingleExcitationsSum(ops, f, x, data.coeff, data.t, data.m, data.omega, data.hbar);
  }
}
