/** Stroud's 1957 rules of degree 2 and 3 for the n-cube [-1, 1]^n
    (`stroud_1957_2`, `stroud_1957_3`). */
module NCubeStroud1957 {
  import opened Basics

  /** What `NCubeScheme` records: name, dimension, weights, points (one row
      of n coordinates per point) and degree. */
  datatype NCubeScheme = NCubeScheme(name: string, dim: int, weights: seq<real>, points: seq<seq<real>>, degree: nat)

  /** `_s(n, a, b)`: the helper that builds a fully symmetric point set. It
      is foreign to this file, so the rules receive it as a value. */
  type OrbitFn = (int, real, real) -> seq<seq<real>>

  /** One `(weight, points)` pair of the `data` list. */
  datatype Group = Group(weight: real, points: seq<seq<real>>)

  datatype Untangled = Untangled(points: seq<seq<real>>, weights: seq<real>)

  /** `untangle(data)` for scalar weights: the point sets stacked in order,
      each weight broadcast to the rows of its point set. */
  function Untangle(data: seq<Group>): (u: Untangled)
    ensures |u.points| == |u.weights|
  {
    if data == [] then Untangled([], [])
    else
      var rest := Untangle(data[1..]);
      Untangled(data[0].points + rest.points, Ones(|data[0].points|, data[0].weight) + rest.weights)
  }

  lemma UntangleThree(g0: Group, g1: Group, g2: Group)
    ensures Untangle([g0, g1, g2]).points == g0.points + g1.points + g2.points
    ensures Untangle([g0, g1, g2]).weights
         == Ones(|g0.points|, g0.weight) + Ones(|g1.points|, g1.weight) + Ones(|g2.points|, g2.weight)
  {
    assert [g0, g1, g2][1..] == [g1, g2] && [g1, g2][1..] == [g2];
    var u2 := Untangle([g2]);
    UntangleOne(g2);
    var u1 := Untangle([g1, g2]);
    assert u1.points == g1.points + u2.points && u1.weights == Ones(|g1.points|, g1.weight) + u2.weights;
    var u0 := Untangle([g0, g1, g2]);
    assert u0.points == g0.points + u1.points && u0.weights == Ones(|g0.points|, g0.weight) + u1.weights;
  }

  lemma UntangleOne(g: Group)
    ensures Untangle([g]).points == g.points
    ensures Untangle([g]).weights == Ones(|g.points|, g.weight)
  {
    assert [g][1..] == [];
    var u := Untangle([g]);
    assert u.points == g.points + [] && u.weights == Ones(|g.points|, g.weight) + [];
  }

  /** `reference_volume = 2 ** n`, the volume of [-1, 1]^n. */
  function Pow2(n: nat): (r: nat)
    ensures r >= 1
  {
    if n == 0 then 1 else 2 * Pow2(n - 1)
  }

  /** `n2`: `n // 2` for even n, `(n - 1) // 2` for odd n. Python's `//` and
      `%` by 2 agree with Dafny's `/` and `%` on every int. */
  function HalfDim(n: int): (n2: int)
    ensures 2 * n2 <= n < 2 * n2 + 2
    ensures n2 == n / 2
  {
    if n % 2 == 0 then n / 2 else (n - 1) / 2
  }

  /** One weight times the scale factor. */
  function Times(x: real, c: real): real
  {
    x * c
  }

  /** The elementwise product of a weight vector and a scalar. */
  function ScaledBy(s: seq<real>, c: real): (r: seq<real>)
    ensures |r| == |s|
    ensures forall i :: 0 <= i < |s| ==> r[i] == Times(s[i], c)
  {
    if s == [] then [] else [Times(s[0], c)] + ScaledBy(s[1..], c)
  }

  lemma {:induction false} SumScaledBy(s: seq<real>, c: real)
    ensures Sum(ScaledBy(s, c)) == Sum(s) * c
  {
    if s != [] {
      SumScaledBy(s[1..], c);
    }
  }

  lemma ScaledByAppend(a: seq<real>, b: seq<real>, c: real)
    ensures ScaledBy(a + b, c) == ScaledBy(a, c) + ScaledBy(b, c)
  {
    var l, r := ScaledBy(a + b, c), ScaledBy(a, c) + ScaledBy(b, c);
    forall i | 0 <= i < |a + b|
      ensures l[i] == r[i]
    {
      if i < |a| {
        assert (a + b)[i] == a[i];
      } else {
        assert (a + b)[i] == b[i - |a|];
      }
    }
  }

  lemma {:induction false} ScaledOnes(k: nat, w: real, c: real)
    ensures ScaledBy(Ones(k, w), c) == Ones(k, Times(w, c))
  {
    if k > 0 {
      assert Ones(k, w)[1..] == Ones(k - 1, w);
      ScaledOnes(k - 1, w, c);
      assert ScaledBy(Ones(k, w), c) == [Times(w, c)] + ScaledBy(Ones(k - 1, w), c);
    }
  }

  /** `weights *= reference_volume`, in place. */
  method Rescale(w: array<real>, factor: real)
    modifies w
    ensures w[..] == ScaledBy(old(w[..]), factor)
  {
    for i := 0 to w.Length
      invariant forall q :: 0 <= q < i ==> w[q] == old(w[q]) * factor
      invariant forall q :: i <= q < w.Length ==> w[q] == old(w[q])
    {
      w[i] := w[i] * factor;
    }
    assert forall q :: 0 <= q < w.Length ==> w[..][q] == ScaledBy(old(w[..]), factor)[q];
  }

  /** The weights of `data` rescaled to the reference volume, as the rules
      compute them: an array filled from `untangle`, then `*= 2 ** n`. */
  method ScaledWeights(weights: seq<real>, n: nat) returns (r: seq<real>)
    ensures r == ScaledBy(weights, Pow2(n) as real)
    ensures Sum(r) == Sum(weights) * Pow2(n) as real
  {
    var w := new real[|weights|](i requires 0 <= i < |weights| => weights[i]);
    assert w[..] == weights;
    Rescale(w, Pow2(n) as real);
    r := w[..];
    SumScaledBy(weights, Pow2(n) as real);
  }

  /** A sequence whose even entries are v and whose odd entries are -v. */
  function Alternating(len: nat, v: real): (s: seq<real>)
    ensures |s| == len
  {
    seq(len, i => if i % 2 == 0 then v else -v)
  }

  /** `s[1::2] *= -1`: every odd position is negated, in place. */
  method NegateOdd(a: array<real>)
    modifies a
    ensures forall i :: 0 <= i < a.Length ==> a[i] == if i % 2 == 1 then -old(a[i]) else old(a[i])
  {
    var i := 1;
    while i < a.Length
      invariant 1 <= i <= a.Length + 1 && i % 2 == 1
      invariant forall q :: 0 <= q < i && q < a.Length ==> a[q] == if q % 2 == 1 then -old(a[q]) else old(a[q])
      invariant forall q :: i <= q < a.Length ==> a[q] == old(a[q])
    {
      a[i] := -a[i];
      i := i + 2;
    }
  }

  /** `sqrt3pm = numpy.full(len, v)` followed by the flip of its odd entries. */
  method PlusMinusColumn(len: nat, v: real) returns (col: seq<real>)
    ensures col == Alternating(len, v)
  {
    var a := new real[len](_ => v);
    NegateOdd(a);
    col := a[..];
  }

  /** The angle `(2k - 1) i pi / n` of the 1-based point i in plane k. */
  function Angle(nm: Numerics, n: int, k: int, i: int): real
    requires n > 0
  {
    ((2 * k - 1) * i) as real * nm.pi / n as real
  }

  /** The row `sqrt(2/3) cos(angle)` (or `sin`) over the points i = 1 .. 2n. */
  function TrigRow(nm: Numerics, n: int, k: int, cosine: bool): (row: seq<real>)
    requires n > 0
    ensures |row| == 2 * n
  {
    seq(2 * n, i requires 0 <= i < 2 * n =>
      nm.sqrt(2.0 / 3.0) * (if cosine then nm.cos(Angle(nm, n, k, i + 1)) else nm.sin(Angle(nm, n, k, i + 1))))
  }

  /** The list `pts` of cos/sin row pairs for k = 1 .. n2, stacked. */
  function PlaneRows(nm: Numerics, n: int): (rows: seq<seq<real>>)
    requires n > 0
    ensures |rows| == 2 * HalfDim(n)
    ensures forall r :: 0 <= r < |rows| ==> |rows[r]| == 2 * n
  {
    seq(2 * HalfDim(n), r requires 0 <= r < 2 * HalfDim(n) => TrigRow(nm, n, r / 2 + 1, r % 2 == 0))
  }

  /** `1 / sqrt(3)`. */
  function InvSqrt3(nm: Numerics): real
  {
    FloatDiv(1.0, nm.sqrt(3.0))
  }

  /** `numpy.vstack(pts)`: the plane rows, then the alternating row when n is
      odd. */
  function Rows(nm: Numerics, n: int): (rows: seq<seq<real>>)
    requires n > 0
    ensures forall r :: 0 <= r < |rows| ==> |rows[r]| == 2 * n
  {
    PlaneRows(nm, n) + if n % 2 == 1 then [Alternating(2 * n as nat, InvSqrt3(nm))] else []
  }

  /** `.T`: column i of the stacked rows becomes point i. */
  function Transpose(rows: seq<seq<real>>, cols: nat): (t: seq<seq<real>>)
    requires forall r :: 0 <= r < |rows| ==> |rows[r]| == cols
    ensures |t| == cols
    ensures forall i :: 0 <= i < cols ==> |t[i]| == |rows|
    ensures forall i, r :: 0 <= i < cols && 0 <= r < |rows| ==> t[i][r] == rows[r][i]
  {
    seq(cols, i requires 0 <= i < cols => seq(|rows|, r requires 0 <= r < |rows| => rows[r][i]))
  }

  /** The points of `stroud_1957_3(n)`. */
  function Stroud3Points(nm: Numerics, n: int): seq<seq<real>>
    requires n > 0
  {
    Transpose(Rows(nm, n), 2 * n as nat)
  }

  /** There are 2n points, each with n coordinates. */
  lemma Stroud3Shape(nm: Numerics, n: int)
    requires n > 0
    ensures |Stroud3Points(nm, n)| == 2 * n
    ensures forall i :: 0 <= i < 2 * n ==> |Stroud3Points(nm, n)[i]| == n
  {
  }

  /** Coordinates 2k - 2 and 2k - 1 of the 0-based point i are
      `sqrt(2/3) cos((2k - 1)(i + 1) pi / n)` and the matching sine. */
  lemma Stroud3Coordinates(nm: Numerics, n: int, i: int, k: int)
    requires n > 0 && 0 <= i < 2 * n && 1 <= k <= HalfDim(n)
    ensures |Stroud3Points(nm, n)[i]| == n
    ensures Stroud3Points(nm, n)[i][2 * k - 2] == nm.sqrt(2.0 / 3.0) * nm.cos(Angle(nm, n, k, i + 1))
    ensures Stroud3Points(nm, n)[i][2 * k - 1] == nm.sqrt(2.0 / 3.0) * nm.sin(Angle(nm, n, k, i + 1))
  {
    var rows := Rows(nm, n);
    assert rows[2 * k - 2] == TrigRow(nm, n, k, true);
    assert rows[2 * k - 1] == TrigRow(nm, n, k, false);
  }

  /** For odd n the last coordinate of the 0-based point i is 1/sqrt(3) when
      i is even and -1/sqrt(3) when i is odd. */
  lemma Stroud3LastCoordinate(nm: Numerics, n: int, i: int)
    requires n > 0 && n % 2 == 1 && 0 <= i < 2 * n
    ensures |Stroud3Points(nm, n)[i]| == n
    ensures Stroud3Points(nm, n)[i][n - 1] == if i % 2 == 0 then InvSqrt3(nm) else -InvSqrt3(nm)
  {
    var rows := Rows(nm, n);
    assert rows[n - 1] == Alternating(2 * n as nat, InvSqrt3(nm));
  }

  /** Rescaling copies of w by c gives copies of any y equal to w c. */
  lemma ScaledOnesTo(k: nat, w: real, c: real, y: real)
    requires Times(w, c) == y
    ensures ScaledBy(Ones(k, w), c) == Ones(k, y)
  {
    ScaledOnes(k, w, c);
  }

  lemma DivScale(m: real, p: real)
    requires m != 0.0
    ensures 1.0 / m * p == p / m
    ensures m * (p / m) == p
  {
  }

  /** The weights of `stroud_1957_3`: m copies of 1/m, rescaled by p, are
      m copies of p/m and sum to p. */
  lemma Stroud3Weights(m: nat, p: real)
    requires m > 0
    ensures ScaledBy(Ones(m, 1.0 / m as real), p) == Ones(m, p / m as real)
    ensures Sum(Ones(m, p / m as real)) == p
  {
    DivScale(m as real, p);
    ScaledOnesTo(m, 1.0 / m as real, p, p / m as real);
    SumOnes(m, p / m as real);
  }

  /** The weights of `stroud_1957_2`: (1, r.., -r..) rescaled by p. */
  lemma Stroud2Weights(p: real, rr: real, nr: real, a: nat, b: nat)
    ensures ScaledBy(Ones(1, 1.0) + Ones(a, rr) + Ones(b, nr), p) == [p] + Ones(a, Times(rr, p)) + Ones(b, Times(nr, p))
  {
    ScaledByAppend(Ones(1, 1.0) + Ones(a, rr), Ones(b, nr), p);
    ScaledByAppend(Ones(1, 1.0), Ones(a, rr), p);
    ScaledOnesTo(1, 1.0, p, p);
    assert Ones(1, p) == [p];
    ScaledOnes(a, rr, p);
    ScaledOnes(b, nr, p);
  }

  lemma NegTimes(a: real, b: real)
    ensures Times(-a, b) == -Times(a, b)
  {
  }

  /** When the two orbits of `stroud_1957_2` have the same size, the r
      terms cancel and the weights sum to p. */
  lemma Stroud2Sum(p: real, x: real, y: real, a: nat)
    requires y == -x
    ensures Sum([p] + Ones(a, x) + Ones(a, y)) == p
  {
    SumAppend([p] + Ones(a, x), Ones(a, y));
    SumAppend([p], Ones(a, x));
    assert Sum([p]) == p;
    SumOnes(a, x);
    SumOnes(a, y);
  }

  const NegativeDimensions := "negative dimensions are not allowed"
  const NothingToStack := "need at least one array to concatenate"

  /** `stroud_1957_3(n)`: 2n points of weight 2^n / (2n). For n <= 0 numpy
      raises ValueError: `numpy.full` of a negative length when n is odd,
      `numpy.vstack` of an empty list when n is even. */
  method Stroud1957_3(nm: Numerics, n: int) returns (r: Result<NCubeScheme>)
    ensures r.Err? <==> n <= 0
    ensures r.Err? ==> r.error == ValueError(if n % 2 == 1 then NegativeDimensions else NothingToStack)
    ensures r.Ok? ==> r.value.name == "Stroud 1957-3" && r.value.dim == n && r.value.degree == 3
    ensures r.Ok? ==> r.value.points == Stroud3Points(nm, n)
    ensures r.Ok? ==> r.value.weights == Ones(2 * n, Pow2(n) as real / (2 * n) as real)
    ensures r.Ok? ==> Sum(r.value.weights) == Pow2(n) as real
  {
    if n <= 0 {
      return Err(ValueError(if n % 2 == 1 then NegativeDimensions else NothingToStack));
    }
    var pts := PlaneRows(nm, n);
    if n % 2 == 1 {
      var sqrt3pm := PlusMinusColumn(2 * n, InvSqrt3(nm));
      pts := pts + [sqrt3pm];
    }
    assert pts == Rows(nm, n);
    var points := Transpose(pts, 2 * n);
    var u := Untangle([Group(1.0 / (2 * n) as real, points)]);
    UntangleOne(Group(1.0 / (2 * n) as real, points));
    var weights := ScaledWeights(u.weights, n);
    Stroud3Weights(2 * n, Pow2(n) as real);
    r := Ok(NCubeScheme("Stroud 1957-3", n, weights, u.points, 3));
  }

  /** `r = sqrt(3) / 6`. */
  function R(nm: Numerics): real
  {
    nm.sqrt(3.0) / 6.0
  }

  /** The `data` list of `stroud_1957_2`. */
  function Stroud2Data(nm: Numerics, orbit: OrbitFn, n: nat): seq<Group>
  {
    [Group(1.0, [Ones(n, 2.0 * R(nm))]), Group(R(nm), orbit(n, -1.0, R(nm))), Group(-R(nm), orbit(n, 1.0, R(nm)))]
  }

  lemma Stroud2Untangle(nm: Numerics, orbit: OrbitFn, n: nat)
    ensures Untangle(Stroud2Data(nm, orbit, n)).points
         == [Ones(n, 2.0 * R(nm))] + orbit(n, -1.0, R(nm)) + orbit(n, 1.0, R(nm))
    ensures Untangle(Stroud2Data(nm, orbit, n)).weights
         == Ones(1, 1.0) + Ones(|orbit(n, -1.0, R(nm))|, R(nm)) + Ones(|orbit(n, 1.0, R(nm))|, -R(nm))
  {
    var data := Stroud2Data(nm, orbit, n);
    UntangleThree(data[0], data[1], data[2]);
    assert data == [data[0], data[1], data[2]];
  }

  /** `stroud_1957_2(n)`: the centre-like point (2r, ..., 2r) of weight 2^n,
      then `_s(n, -1, r)` with weight r 2^n and `_s(n, +1, r)` with weight
      -r 2^n. For n < 0 `numpy.full` raises ValueError. */
  method Stroud1957_2(nm: Numerics, orbit: OrbitFn, n: int) returns (r: Result<NCubeScheme>)
    ensures r.Err? <==> n < 0
    ensures r.Err? ==> r.error == ValueError(NegativeDimensions)
    ensures r.Ok? ==> r.value.name == "Stroud 1957-2" && r.value.dim == n && r.value.degree == 2
    ensures r.Ok? ==> r.value.points == [Ones(n, 2.0 * R(nm))] + orbit(n, -1.0, R(nm)) + orbit(n, 1.0, R(nm))
    ensures r.Ok? ==> (r.value.weights
         == [Pow2(n) as real]
          + Ones(|orbit(n, -1.0, R(nm))|, Times(R(nm), Pow2(n) as real))
          + Ones(|orbit(n, 1.0, R(nm))|, Times(-R(nm), Pow2(n) as real)))
    ensures r.Ok? && |orbit(n, -1.0, R(nm))| == |orbit(n, 1.0, R(nm))| ==> Sum(r.value.weights) == Pow2(n) as real
  {
    if n < 0 {
      return Err(ValueError(NegativeDimensions));
    }
    var u := Untangle(Stroud2Data(nm, orbit, n));
    Stroud2Untangle(nm, orbit, n);
    var weights := ScaledWeights(u.weights, n);
    var a, b := |orbit(n, -1.0, R(nm))|, |orbit(n, 1.0, R(nm))|;
    Stroud2Weights(Pow2(n) as real, R(nm), -R(nm), a, b);
    if a == b {
      NegTimes(R(nm), Pow2(n) as real);
      Stroud2Sum(Pow2(n) as real, Times(R(nm), Pow2(n) as real), Times(-R(nm), Pow2(n) as real), a);
    }
    r := Ok(NCubeScheme("Stroud 1957-2", n, weights, u.points, 2));
  }
}
