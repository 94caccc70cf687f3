/** Dense univariate polynomials over the reals, standing for the
    `sympy.poly` values that `_newton_cotes` builds: `p[e]` is the
    coefficient of t^e. */
module Polynomials {

  /** The value of p at t, by Horner's rule. */
  function Eval(p: seq<real>, t: real): real
  {
    if p == [] then 0.0 else p[0] + t * Eval(p[1..], t)
  }

  /** The coefficients of (c0 + c1 t) p(t) + c1 prev, where prev is the
      coefficient that precedes p (this is how the shift by t carries). */
  function MulLinearFrom(p: seq<real>, c0: real, c1: real, prev: real): (r: seq<real>)
    ensures |r| == |p| + 1
  {
    if p == [] then [c1 * prev]
    else [c0 * p[0] + c1 * prev] + MulLinearFrom(p[1..], c0, c1, p[0])
  }

  /** The product of p with the linear polynomial c0 + c1 t. */
  function MulLinear(p: seq<real>, c0: real, c1: real): (r: seq<real>)
    ensures |r| == |p| + 1
  {
    MulLinearFrom(p, c0, c1, 0.0)
  }

  /** The identity behind one step of EvalMulLinearFrom, on plain reals. */
  lemma MulLinearStep(c0: real, c1: real, prev: real, t: real, head: real,
                      restValue: real, tailValue: real, value: real)
    requires tailValue == c0 * restValue + c1 * (head + t * restValue)
    requires value == head + t * restValue
    ensures (c0 * head + c1 * prev) + t * tailValue == c0 * value + c1 * (prev + t * value)
  {
  }

  lemma {:induction false} EvalMulLinearFrom(p: seq<real>, c0: real, c1: real, prev: real, t: real)
    ensures Eval(MulLinearFrom(p, c0, c1, prev), t) == c0 * Eval(p, t) + c1 * (prev + t * Eval(p, t))
  {
    var r := MulLinearFrom(p, c0, c1, prev);
    if p == [] {
      assert r == [c1 * prev];
      assert Eval(r, t) == c1 * prev + t * Eval([], t);
    } else {
      var tail := MulLinearFrom(p[1..], c0, c1, p[0]);
      assert r[0] == c0 * p[0] + c1 * prev && r[1..] == tail;
      EvalMulLinearFrom(p[1..], c0, c1, p[0], t);
      MulLinearStep(c0, c1, prev, t, p[0], Eval(p[1..], t), Eval(tail, t), Eval(p, t));
    }
  }

  /** Multiplying by a linear factor multiplies every value by that factor. */
  lemma EvalMulLinear(p: seq<real>, c0: real, c1: real, t: real)
    ensures Eval(MulLinear(p, c0, c1), t) == Eval(p, t) * (c0 + c1 * t)
  {
    EvalMulLinearFrom(p, c0, c1, 0.0, t);
  }

  /** t^e. */
  function Power(t: real, e: nat): real
  {
    if e == 0 then 1.0 else t * Power(t, e - 1)
  }

  /** The terms of p from degree e on, written out as the sum of
      p[d] t^d over d >= e. */
  function PowerSum(p: seq<real>, e: nat, t: real): real
    decreases |p| - e
  {
    if e >= |p| then 0.0 else p[e] * Power(t, e) + PowerSum(p, e + 1, t)
  }

  lemma PowerSumStep(p: seq<real>, e: nat, t: real)
    requires e < |p|
    ensures PowerSum(p, e, t) == p[e] * Power(t, e) + PowerSum(p, e + 1, t)
  {
  }

  /** All the terms of p add up to p. */
  lemma PowerSumZero(p: seq<real>, t: real)
    ensures PowerSum(p, 0, t) == Eval(p, t)
  {
    PowerSumEval(p, 0, t);
    assert p[0..] == p;
  }

  /** The identity behind one step of PowerSumEval, on plain reals. */
  lemma HornerStep(c: real, pw: real, t: real, rest: real)
    ensures c * pw + (t * pw) * rest == pw * (c + t * rest)
  {
  }

  /** Horner's rule and the sum of monomials agree: the terms from degree e on
      are t^e times the polynomial p[e..]. */
  lemma {:induction false} PowerSumEval(p: seq<real>, e: nat, t: real)
    requires e <= |p|
    ensures PowerSum(p, e, t) == Power(t, e) * Eval(p[e..], t)
    decreases |p| - e
  {
    if e < |p| {
      PowerSumEval(p, e + 1, t);
      assert p[e..][1..] == p[e + 1..];
      HornerStep(p[e], Power(t, e), t, Eval(p[e + 1..], t));
    } else {
      assert p[e..] == [];
    }
  }
}
