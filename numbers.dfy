/**
 * The calculator's f64 values, kept symbolic: a value is either a literal read
 * from the input or one of the four arithmetic operations applied to two values,
 * left operand first. Nothing is assumed about the arithmetic itself, so every
 * fact proved about this algebra holds for any reading of +, -, * and /.
 */
module Numbers {
  import opened Wrappers

  datatype Arith = Plus | Minus | Times | Over

  datatype Num = Lit(literal: real) | Apply(op: Arith, left: Num, right: Num)

  /** One operation on reals; None for a division by zero (where f64 gives an infinity or NaN). */
  function Calculate(op: Arith, a: real, b: real): Option<real>
  {
    match op
    case Plus => Some(a + b)
    case Minus => Some(a - b)
    case Times => Some(a * b)
    case Over => if b == 0.0 then None else Some(a / b)
  }

  /** The real-number reading of a value, where every step of it has one. */
  function Value(n: Num): Option<real>
  {
    match n
    case Lit(v) => Some(v)
    case Apply(op, l, r) =>
      var a, b := Value(l), Value(r);
      if a.None? || b.None? then None else Calculate(op, a.value, b.value)
  }

  /** The reading of one operation on two literals. */
  lemma ValueOfApply(op: Arith, a: real, b: real)
    ensures Value(Apply(op, Lit(a), Lit(b))) == Calculate(op, a, b)
  {
  }
}
