/** Complex numbers as pairs of exact reals, standing in for std::complex<double>. */
module Complex {

  datatype Complex = Complex(re: real, im: real)

  const Zero: Complex := Complex(0.0, 0.0)
  const One: Complex := Complex(1.0, 0.0)

  function Add(a: Complex, b: Complex): Complex {
    Complex(a.re + b.re, a.im + b.im)
  }

  function Mul(a: Complex, b: Complex): Complex {
    Complex(a.re * b.re - a.im * b.im, a.re * b.im + a.im * b.re)
  }

  function FromReal(r: real): Complex {
    Complex(r, 0.0)
  }

  /** The squared modulus, which is what `abs(z)*abs(z)` computes in exact arithmetic. */
  function Norm2(z: Complex): (r: real)
    ensures r >= 0.0
  {
    z.re * z.re + z.im * z.im
  }

  lemma MulZeroLeft(b: Complex)
    ensures Mul(Zero, b) == Zero
  {
  }

  lemma MulOneRight(a: Complex)
    ensures Mul(a, One) == a
  {
  }

  lemma AddZeroRight(a: Complex)
    ensures Add(a, Zero) == a
  {
  }
}
