// Arithmetic over the reals.
module Reals {

  function Abs(x: real): real {
    if x < 0.0 then -x else x
  }

  function MinReal(x: real, y: real): real {
    if x <= y then x else y
  }

  function MaxReal(x: real, y: real): real {
    if x >= y then x else y
  }

  lemma MulMono(x: real, y: real, z: real)
    requires x <= y && z >= 0.0
    ensures x * z <= y * z
  {
  }

  /** A product under a name, for bounds that are combined further. */
  function Times(x: real, y: real): real {
    x * y
  }

  lemma TimesMono(q: real, x: real, y: real)
    requires q >= 0.0 && x <= y
    ensures Times(q, x) <= Times(q, y)
  {
    MulMono(x, y, q);
  }

  lemma TimesNonNegative(x: real, y: real)
    requires x >= 0.0 && y >= 0.0
    ensures Times(x, y) >= 0.0
  {
  }

  lemma TimesSum(q: real, x: real, y: real)
    ensures Times(q, x + y) == Times(q, x) + Times(q, y)
  {
  }

  lemma AbsScale(f: real, x: real)
    requires f >= 0.0
    ensures Abs(f * x) == f * Abs(x)
  {
  }

  lemma CrossMultiply(a: real, b: real, c: real, d: real)
    requires b > 0.0 && d > 0.0 && a * d <= c * b
    ensures a / b <= c / d
  {
    var x, y := a / b, c / d;
    assert a == x * b && c == y * d;
    assert (y - x) * (b * d) == c * b - a * d;
    Cancel(y - x, b * d);
  }

  lemma Cancel(x: real, p: real)
    requires p > 0.0 && x * p >= 0.0
    ensures x >= 0.0
  {
  }
}
