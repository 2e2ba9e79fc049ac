/** The record of CoupledOscillators/initial_normal_mode_wave_function.hpp: the initial
    wave function of the coupled oscillators in normal coordinates. Each per-mode array has
    a fixed capacity of MAX_SIZE slots, and `size` counts the modes in use. The reset
    operations each walk all MAX_SIZE slots, whatever `size` is. */
module InitialNormalModeWaveFunction {

  import opened Complex

  /** MAX_SIZE (CoupledOscillators/initial_normal_mode_wave_function.hpp:7). */
  const MaxSize: nat := 512

  datatype WaveFunction = WaveFunction(
    size: nat,
    x: seq<real>,
    p: seq<real>,
    s: seq<real>,
    excitations: seq<nat>,
    coefficients: seq<Complex>)

  /** Every per-mode array has its MAX_SIZE slots, as the struct's array members do. */
  ghost predicate Valid(w: WaveFunction) {
    |w.x| == MaxSize && |w.p| == MaxSize && |w.s| == MaxSize
    && |w.excitations| == MaxSize && |w.coefficients| == MaxSize
  }

  /** The array holding v in each of its MAX_SIZE slots. */
  function Constant<T>(v: T): (r: seq<T>)
    ensures |r| == MaxSize
    ensures forall i :: 0 <= i < |r| ==> r[i] == v
  {
    seq(MaxSize, _ => v)
  }

  /** The loop `for (i = 0; i < MAX_SIZE; i++) a[i] = v;` every operation here runs. */
  method Fill<T>(a: seq<T>, v: T) returns (r: seq<T>)
    requires |a| == MaxSize
    ensures r == Constant(v)
  {
    r := a;
    for i := 0 to MaxSize
      invariant |r| == MaxSize
      invariant forall j :: 0 <= j < i ==> r[j] == v
    {
      r := r[i := v];
    }
  }

  /** The state the constructor leaves: the given size, zero positions, momenta,
      excitations and coefficients, and unit squeezing factors. */
  function Initial(size: nat): (w: WaveFunction)
    ensures Valid(w) && w.size == size
  {
    WaveFunction(size, Constant(0.0), Constant(0.0), Constant(1.0), Constant(0), Constant(Zero))
  }

  /** The constructor (CoupledOscillators/initial_normal_mode_wave_function.cpp:4-14). Its
      one loop writes every slot of all five arrays, whatever the memory held before; the
      size is stored as given, so it may exceed MAX_SIZE. */
  method Construct(size: nat, before: WaveFunction) returns (w: WaveFunction)
    requires Valid(before)
    ensures w == Initial(size)
  {
    var x, p, excitations, s, coefficients := before.x, before.p, before.excitations, before.s, before.coefficients;
    for i := 0 to MaxSize
      invariant |x| == |p| == |excitations| == |s| == |coefficients| == MaxSize
      invariant forall j :: 0 <= j < i ==> x[j] == 0.0 && p[j] == 0.0 && excitations[j] == 0
      invariant forall j :: 0 <= j < i ==> s[j] == 1.0 && coefficients[j] == Zero
    {
      x := x[i := 0.0];
      p := p[i := 0.0];
      excitations := excitations[i := 0];
      s := s[i := 1.0];
      coefficients := coefficients[i := Zero];
    }
    w := WaveFunction(size, x, p, s, excitations, coefficients);
  }

  /** resize (CoupledOscillators/initial_normal_mode_wave_function.cpp:16-18). */
  function Resize(w: WaveFunction, newSize: nat): (r: WaveFunction)
    ensures r.size == newSize
    ensures r.x == w.x && r.p == w.p && r.s == w.s
    ensures r.excitations == w.excitations && r.coefficients == w.coefficients
  {
    w.(size := newSize)
  }

  /** zero_excitations (CoupledOscillators/initial_normal_mode_wave_function.cpp:20-23). */
  function ZeroExcitations(w: WaveFunction): (r: WaveFunction)
    ensures |r.excitations| == MaxSize && forall i :: 0 <= i < MaxSize ==> r.excitations[i] == 0
    ensures r.size == w.size && r.x == w.x && r.p == w.p && r.s == w.s && r.coefficients == w.coefficients
  {
    w.(excitations := Constant(0))
  }

  /** zero_coefficients (CoupledOscillators/initial_normal_mode_wave_function.cpp:25-28). */
  function ZeroCoefficients(w: WaveFunction): (r: WaveFunction)
    ensures |r.coefficients| == MaxSize && forall i :: 0 <= i < MaxSize ==> r.coefficients[i] == Zero
    ensures r.size == w.size && r.x == w.x && r.p == w.p && r.s == w.s && r.excitations == w.excitations
  {
    w.(coefficients := Constant(Zero))
  }

  /** set_s_to_ones (CoupledOscillators/initial_normal_mode_wave_function.cpp:30-33). */
  function SetSToOnes(w: WaveFunction): (r: WaveFunction)
    ensures |r.s| == MaxSize && forall i :: 0 <= i < MaxSize ==> r.s[i] == 1.0
    ensures r.size == w.size && r.x == w.x && r.p == w.p && r.excitations == w.excitations && r.coefficients == w.coefficients
  {
    w.(s := Constant(1.0))
  }

  /** The three reset loops, each run over the record's own array. */
  method RunZeroExcitations(w: WaveFunction) returns (r: WaveFunction)
    requires Valid(w)
    ensures r == ZeroExcitations(w)
  {
    var e := Fill(w.excitations, 0);
    r := w.(excitations := e);
  }

  method RunZeroCoefficients(w: WaveFunction) returns (r: WaveFunction)
    requires Valid(w)
    ensures r == ZeroCoefficients(w)
  {
    var c := Fill(w.coefficients, Zero);
    r := w.(coefficients := c);
  }

  method RunSetSToOnes(w: WaveFunction) returns (r: WaveFunction)
    requires Valid(w)
    ensures r == SetSToOnes(w)
  {
    var s := Fill(w.s, 1.0);
    r := w.(s := s);
  }

  /** Each reset is idempotent: a second run changes nothing. */
  lemma ResetsIdempotent(w: WaveFunction)
    ensures ZeroExcitations(ZeroExcitations(w)) == ZeroExcitations(w)
    ensures ZeroCoefficients(ZeroCoefficients(w)) == ZeroCoefficients(w)
    ensures SetSToOnes(SetSToOnes(w)) == SetSToOnes(w)
  {
  }

  /** The resets touch disjoint arrays, so they can run in any order, and none of them
      interferes with resize. */
  lemma ResetsCommute(w: WaveFunction, n: nat)
    ensures ZeroExcitations(ZeroCoefficients(w)) == ZeroCoefficients(ZeroExcitations(w))
    ensures ZeroExcitations(SetSToOnes(w)) == SetSToOnes(ZeroExcitations(w))
    ensures ZeroCoefficients(SetSToOnes(w)) == SetSToOnes(ZeroCoefficients(w))
    ensures Resize(ZeroExcitations(w), n) == ZeroExcitations(Resize(w, n))
    ensures Resize(ZeroCoefficients(w), n) == ZeroCoefficients(Resize(w, n))
    ensures Resize(SetSToOnes(w), n) == SetSToOnes(Resize(w, n))
  {
  }

  /** A freshly constructed record is already reset: each reset leaves it unchanged, and
      resizing it gives the record constructed with the new size. */
  lemma InitialIsReset(size: nat, newSize: nat)
    ensures ZeroExcitations(Initial(size)) == Initial(size)
    ensures ZeroCoefficients(Initial(size)) == Initial(size)
    ensures SetSToOnes(Initial(size)) == Initial(size)
    ensures Resize(Initial(size), newSize) == Initial(newSize)
  {
  }

  /** The three resets together restore every array except positions and momenta to its
      constructed value. */
  lemma ResetsRestoreInitial(w: WaveFunction)
    ensures var r := SetSToOnes(ZeroCoefficients(ZeroExcitations(w)));
            r == Initial(w.size).(x := w.x, p := w.p)
  {
  }
}
