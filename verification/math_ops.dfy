/** The floating-point library functions the source calls (sin, cos, sqrt, exp and the
    rounding of a double to a float). The model never depends on their values: they are
    handed to every operation that needs them, as a record of function values. The only
    laws kept are those of the exact functions that the model's statements need: the
    square root of a positive number is positive (so a division by such a root is
    defined) and that of zero is zero, exp is positive, and sin and cos of zero are 0
    and 1. Both positivity laws are carried by the types of the fields. The double exp does
    not keep the positivity law: it underflows to 0 for arguments below about -745. */
module MathOps {

  type Positive = x: real | x > 0.0 witness 1.0

  datatype Ops = Ops(
    sin: real -> real,
    cos: real -> real,
    root: Positive -> Positive,
    exp: real -> Positive,
    toFloat: real -> real)

  type Math = ops: Ops |
    ops.sin(0.0) == 0.0 && ops.cos(0.0) == 1.0
    witness Ops(x => 0.0, x => 1.0, x => x, x => 1.0, x => x)

  /** sqrt. A negative argument, NaN in the source, is not given a value of its own: it
      maps to 0 like zero does. */
  function Sqrt(ops: Ops, x: real): (r: real)
    ensures x > 0.0 ==> r > 0.0
    ensures x <= 0.0 ==> r == 0.0
  {
    if x > 0.0 then ops.root(x) else 0.0
  }

  /** The double literal the source uses for pi. */
  const PI: real := 3.141592653589793
}
