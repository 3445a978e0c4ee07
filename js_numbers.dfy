/**
 * The JavaScript numbers the pages divide, multiply and compare: exact values plus NaN and
 * the two infinities. Values are reals, so IEEE 754 rounding and the sign of zero are not
 * represented.
 */
module JsNumbers {

  datatype Num = Finite(value: real) | NaN | PosInf | NegInf

  function FromInt(n: int): Num
  {
    Finite(n as real)
  }

  /** An infinity with the given sign. */
  function Inf(positive: bool): Num
  {
    if positive then PosInf else NegInf
  }

  /** The sign of a non-NaN number, for the sign rules of `*` and `/`. */
  predicate Positive(a: Num)
    requires a != NaN
  {
    a == PosInf || (a.Finite? && a.value > 0.0)
  }

  /** JavaScript's `a / b`. */
  function Div(a: Num, b: Num): Num
  {
    if a == NaN || b == NaN then NaN
    else if a.Finite? && b.Finite? then
      if b.value != 0.0 then Finite(a.value / b.value)
      else if a.value == 0.0 then NaN
      else Inf(a.value > 0.0)
    else if a.Finite? then Finite(0.0)
    else if b.Finite? then
      if b.value == 0.0 then a else Inf(Positive(a) == (b.value > 0.0))
    else NaN
  }

  /** JavaScript's `a * b`. */
  function Mul(a: Num, b: Num): Num
  {
    if a == NaN || b == NaN then NaN
    else if a.Finite? && b.Finite? then Finite(a.value * b.value)
    else if (a.Finite? && a.value == 0.0) || (b.Finite? && b.value == 0.0) then NaN
    else Inf(Positive(a) == Positive(b))
  }

  /** JavaScript's `a < b`: false whenever NaN is involved. */
  predicate Less(a: Num, b: Num)
  {
    match (a, b)
    case (Finite(x), Finite(y)) => x < y
    case (NegInf, _) => b != NaN && b != NegInf
    case (_, PosInf) => a != NaN && a != PosInf
    case _ => false
  }

  /** JavaScript's truthiness of a number: everything but zero and NaN. */
  predicate Truthy(a: Num)
  {
    a != NaN && a != Finite(0.0)
  }

  /** `a || 0`. */
  function OrZero(a: Num): Num
  {
    if Truthy(a) then a else Finite(0.0)
  }

  /** `|| 0` never leaves NaN behind and leaves every truthy number as it is. */
  lemma OrZeroFacts(a: Num)
    ensures OrZero(a) != NaN
    ensures Truthy(a) <==> OrZero(a) == a && a != Finite(0.0)
    ensures !Truthy(a) <==> OrZero(a) == Finite(0.0)
  {
  }

  /** Dividing a finite number by zero: NaN for 0 / 0, an infinity of the dividend's sign otherwise. */
  lemma DivByZero(x: real)
    ensures Div(Finite(x), Finite(0.0)) == NaN <==> x == 0.0
    ensures x > 0.0 ==> Div(Finite(x), Finite(0.0)) == PosInf
    ensures x < 0.0 ==> Div(Finite(x), Finite(0.0)) == NegInf
  {
  }

  /** `<` is a strict order: never both ways, and transitive. */
  lemma LessStrict(a: Num, b: Num, c: Num)
    ensures !(Less(a, b) && Less(b, a))
    ensures Less(a, b) && Less(b, c) ==> Less(a, c)
  {
  }

  /** NaN compares below nothing and nothing compares below it. */
  lemma LessNaN(a: Num)
    ensures !Less(a, NaN) && !Less(NaN, a)
  {
  }
}
