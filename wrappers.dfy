// Shared value wrappers: optional values (Java's Optional and nullable
// references) and the extended reals that stand for Java doubles which may
// be positive or negative infinity.
module Wrappers {

  datatype Option<T> = None | Some(value: T)
  {
    function GetOr(default: T): (r: T)
      ensures Some? ==> r == value
      ensures None? ==> r == default
    {
      match this
      case None => default
      case Some(v) => v
    }
  }

  /** A double that may be infinite. NaN is not modelled. */
  datatype ExtReal = NegInf | Finite(r: real) | PosInf
  {
    predicate Lt(other: ExtReal)
    {
      match (this, other)
      case (NegInf, NegInf) => false
      case (NegInf, _) => true
      case (Finite(a), Finite(b)) => a < b
      case (Finite(_), PosInf) => true
      case (_, _) => false
    }

    predicate Le(other: ExtReal)
    {
      this == other || Lt(other)
    }
  }

  lemma LtIsStrictOrder(a: ExtReal, b: ExtReal, c: ExtReal)
    ensures !a.Lt(a)
    ensures a.Lt(b) ==> !b.Lt(a)
    ensures a.Lt(b) && b.Lt(c) ==> a.Lt(c)
    ensures a.Lt(b) || a == b || b.Lt(a)
  {
  }

  function MaxReal(a: real, b: real): (r: real)
    ensures r >= a && r >= b
    ensures r == a || r == b
  {
    if a >= b then a else b
  }

  function MinReal(a: real, b: real): (r: real)
    ensures r <= a && r <= b
    ensures r == a || r == b
  {
    if a <= b then a else b
  }

  /** FastMath.signum truncated to an int. */
  function Sign(x: real): (r: int)
    ensures r == -1 || r == 0 || r == 1
    ensures r > 0 <==> x > 0.0
    ensures r < 0 <==> x < 0.0
  {
    if x > 0.0 then 1 else if x < 0.0 then -1 else 0
  }
}
