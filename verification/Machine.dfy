/** The arithmetic a routine runs on: exact reals with a square root, and the machine constants
    that dpmpar and enorm's own definitions supply. */
module Machines {
  import opened Reals
  import opened Vectors

  /** epsmch, dwarf and giant are dpmpar(1), dpmpar(2) and dpmpar(3); rdwarf and rgiant are enorm's bounds. */
  datatype Machine = Machine(sqrt: real -> real, epsmch: real, dwarf: real, giant: real, rdwarf: real, rgiant: real) {

    ghost predicate Valid() {
      && epsmch > 0.0 && dwarf > 0.0 && giant >= 2.0 && rdwarf > 0.0 && rgiant > 0.0
      && forall t: real :: t >= 0.0 ==> sqrt(t) >= 0.0 && sqrt(t) * sqrt(t) == t
    }

    /** The Euclidean norm in exact arithmetic. */
    function Norm(x: Vec): (r: real)
      requires Valid()
      ensures r >= 0.0 && r * r == Dot(x, x)
    {
      DotNonneg(x);
      sqrt(Dot(x, x))
    }
  }

  lemma NormZero(mach: Machine, x: Vec)
    requires mach.Valid()
    ensures mach.Norm(x) == 0.0 <==> x == Zero(|x|)
  {
    DotNonneg(x);
    SquareSign(mach.Norm(x), Dot(x, x));
  }
}
