/** Shared vocabulary of the model: the ValueError the scheme constructors
    raise, exact sums over `real`, numpy's `w * numpy.ones(n)` and
    `numpy.concatenate`, and the transcendental functions the tables call. */
module Basics {

  /** The only exception the modelled code raises on purpose. */
  datatype Error = ValueError(message: string)

  datatype Result<T> = Ok(value: T) | Err(error: Error)

  datatype Option<T> = None | Some(value: T)

  /** numpy.sqrt, numpy.cos, numpy.sin, numpy.arccos and numpy.pi (or their
      sympy counterparts) are foreign code: the model receives them as values. */
  datatype Numerics = Numerics(
    sqrt: real -> real,
    cos: real -> real,
    sin: real -> real,
    arccos: real -> real,
    pi: real)

  /** Floating-point division by a divisor that is not a literal. A zero divisor
      gives inf or nan in numpy; the model, which has no such values, gives 0. */
  function FloatDiv(x: real, y: real): (q: real)
    ensures y != 0.0 ==> q * y == x
  {
    if y == 0.0 then 0.0 else x / y
  }

  /** Exact sum, standing for math.fsum and numpy.sum. */
  function Sum(s: seq<real>): real
  {
    if s == [] then 0.0 else s[0] + Sum(s[1..])
  }

  lemma {:induction false} SumAppend(a: seq<real>, b: seq<real>)
    ensures Sum(a + b) == Sum(a) + Sum(b)
  {
    if a == [] {
      assert a + b == b;
    } else {
      assert (a + b)[1..] == a[1..] + b;
      SumAppend(a[1..], b);
    }
  }

  /** `w * numpy.ones(n)`: n copies of the weight w. */
  function Ones(n: nat, w: real): (r: seq<real>)
    ensures |r| == n
    ensures forall i :: 0 <= i < n ==> r[i] == w
  {
    if n == 0 then [] else [w] + Ones(n - 1, w)
  }

  lemma {:induction false} SumOnes(n: nat, w: real)
    ensures Sum(Ones(n, w)) == n as real * w
  {
    if n > 0 {
      assert Ones(n, w)[1..] == Ones(n - 1, w);
      SumOnes(n - 1, w);
    }
  }

  function Fact(n: nat): (r: nat)
    ensures r >= 1
  {
    if n == 0 then 1 else n * Fact(n - 1)
  }

  function Abs(x: real): (r: real)
    ensures r >= 0.0 && (r == x || r == -x)
  {
    if x < 0.0 then -x else x
  }
}
