/** Floating-point numbers that need not be finite, and the conversion of them to integers. */
module Floating {
  import opened Integers

  /** The sign of a zero is left out. */
  datatype Float = Finite(value: real) | Infinite(negative: bool) | NaN

  function Reciprocal(x: Float): Float {
    match x
    case Finite(v) => if v == 0.0 then Infinite(false) else Finite(1.0 / v)
    case Infinite(_) => Finite(0.0)
    case NaN => NaN
  }

  /** The comparison x <= 0, which NaN fails. */
  predicate AtMostZero(x: Float) {
    (x.Finite? && x.value <= 0.0) || (x.Infinite? && x.negative)
  }

  function Truncate(x: real): int {
    if x >= 0.0 then x.Floor else -((-x).Floor)
  }

  /** Whether int64(x) is defined: the integer left when the fraction is cut off fits. */
  predicate Convertible(x: Float) {
    x.Finite? && -(TWO63 as int) <= Truncate(x.value) < TWO63
  }

  /** The conversion int64(x); where Go leaves it to the implementation, as amd64 does it. */
  function Convert(x: Float): Int64 {
    if Convertible(x) then Truncate(x.value) else -(TWO63 as int)
  }

  predicate Whole(x: real) {
    x == x.Floor as real
  }

  /** Cutting off the fraction moves towards zero, by less than one; a whole number is its own. */
  lemma {:induction false} TruncateNear(x: real)
    ensures x >= 0.0 ==> 0 <= Truncate(x) && Truncate(x) as real <= x < Truncate(x) as real + 1.0
    ensures x <= 0.0 ==> 0 >= Truncate(x) && Truncate(x) as real >= x > Truncate(x) as real - 1.0
    ensures Truncate(x) as real == x <==> Whole(x)
  {
    if x < 0.0 {
      FloorOf(-x, (-x).Floor);
      FloorOf(-x, -x.Floor);
      FloorOf(x, -((-x).Floor));
    } else {
      FloorOf(x, x.Floor);
    }
  }

  lemma FloorOf(x: real, n: int)
    ensures x.Floor as real <= x < x.Floor as real + 1.0
    ensures x == n as real ==> x.Floor == n
  {
  }

  lemma {:induction false} ConvertibleIff(x: real)
    ensures Convertible(Finite(x)) <==> -(TWO63 as real) - 1.0 < x < TWO63 as real
  {
  }

  /** On the reciprocal this is a lower bound on the size of x. */
  lemma {:induction false} ReciprocalConvertibleIff(x: Float)
    ensures Convertible(Reciprocal(x)) <==>
              x.Infinite? || (x.Finite? && (x.value * TWO63 as real > 1.0 || x.value * (TWO63 + 1) as real < -1.0))
  {
  }
}
