/** The three functions of Python's `math` module that the engine uses.  The model does not
    reproduce floating point: it takes `exp`, `ln` (math.log) and `sqrt` as real functions
    supplied by the caller, and every property that depends on them assumes only the
    elementary laws collected in `Lawful`, all of which the true functions satisfy. */
module Transcendental {

  datatype Funcs = Funcs(exp: real -> real, ln: real -> real, sqrt: real -> real) {

    function Exp(x: real): real { exp(x) }
    function Ln(x: real): real { ln(x) }
    function Sqrt(x: real): real { sqrt(x) }

    ghost predicate Lawful() {
      && (forall x :: Exp(x) > 0.0)
      && (forall x, y :: x < y ==> Exp(x) < Exp(y))
      && Exp(0.0) == 1.0
      && (forall x, y :: 0.0 < x < y ==> Ln(x) < Ln(y))
      && Ln(1.0) == 0.0
      && (forall x :: x > 0.0 ==> Sqrt(x) > 0.0)
      && (forall x, y :: 0.0 <= x < y ==> Sqrt(x) < Sqrt(y))
      && Sqrt(1.0) == 1.0
    }
  }

  lemma ExpAboveOne(m: Funcs, x: real)
    requires m.Lawful() && x > 0.0
    ensures m.Exp(x) > 1.0
  {
    assert m.Exp(0.0) < m.Exp(x);
  }

  lemma LnPositive(m: Funcs, x: real)
    requires m.Lawful() && x > 1.0
    ensures m.Ln(x) > 0.0
  {
    assert m.Ln(1.0) < m.Ln(x);
  }

  lemma LnMonotone(m: Funcs, x: real, y: real)
    requires m.Lawful() && 0.0 < x <= y
    ensures m.Ln(x) <= m.Ln(y)
  {
    if x < y { assert m.Ln(x) < m.Ln(y); }
  }

  lemma SqrtMonotone(m: Funcs, x: real, y: real)
    requires m.Lawful() && 0.0 <= x <= y
    ensures m.Sqrt(x) <= m.Sqrt(y)
  {
    if x < y { assert m.Sqrt(x) < m.Sqrt(y); }
  }
}
