/** `_newton_cotes`, NewtonCotesClosed and NewtonCotesOpen of
    quadrature/tetrahedron.py: Silvester's symmetric rules, whose points are
    the barycentric lattice i + j + k + l = n and whose weights integrate the
    product of four univariate Lagrange factors over the tetrahedron. */
module NewtonCotes {
  import opened Basics
  import opened Simplex
  import opened Polynomials

  /** The two `point_fun` arguments: k / n (closed) and (k + 1) / (n + 4) (open). */
  datatype Rule = Closed | Open

  /** A rule is defined at n unless it divides by zero. */
  predicate Defined(rule: Rule, n: nat)
  {
    rule.Closed? ==> n > 0
  }

  /** `point_fun(k, n)`. */
  function Node(rule: Rule, k: nat, n: nat): real
    requires Defined(rule, n)
  {
    match rule
    case Closed => k as real / n as real
    case Open => (k + 1) as real / (n + 4) as real
  }

  lemma DivLess(a: real, b: real, d: real)
    requires a < b && d > 0.0
    ensures a / d < b / d
  {
    assert a / d * d == a && b / d * d == b;
  }

  /** The nodes increase strictly with k, so the Lagrange denominators
      `point_fun(m, n) - point_fun(k, n)` for k < m are never zero. */
  lemma NodeIncreasing(rule: Rule, k: nat, m: nat, n: nat)
    requires Defined(rule, n) && k < m
    ensures Node(rule, k, n) < Node(rule, m, n)
  {
    match rule
    case Closed => DivLess(k as real, m as real, n as real);
    case Open => DivLess((k + 1) as real, (m + 1) as real, (n + 4) as real);
  }

  /** The closed nodes of 0..n run from 0 to 1 inclusive; the open ones lie
      strictly inside (0, 1). */
  lemma NodeRange(rule: Rule, k: nat, n: nat)
    requires Defined(rule, n)
    ensures 0.0 <= Node(rule, k, n)
    ensures k <= n ==> Node(rule, k, n) <= 1.0
    ensures rule == Closed ==> (Node(rule, k, n) == 0.0 <==> k == 0) && (Node(rule, k, n) == 1.0 <==> k == n)
    ensures rule == Open && k <= n ==> 0.0 < Node(rule, k, n) < 1.0
  {
    match rule
    case Closed => FractionRange(k as real, n as real);
    case Open => FractionRange((k + 1) as real, (n + 4) as real);
  }

  /** Where a nonnegative quotient a/d sits relative to 0 and 1. */
  lemma FractionRange(a: real, d: real)
    requires 0.0 <= a && d > 0.0
    ensures 0.0 <= a / d
    ensures a <= d ==> a / d <= 1.0
    ensures (a / d == 0.0 <==> a == 0.0) && (a / d == 1.0 <==> a == d)
    ensures 0.0 < a < d ==> 0.0 < a / d < 1.0
  {
    var q := a / d;
    assert q * d == a;
    assert q < 0.0 ==> q * d < 0.0;
    assert q > 1.0 ==> q * d > d;
    assert q >= 1.0 ==> q * d >= d;
  }

  /** A lattice index `[i, j, k, n-i-j-k]`. */
  datatype Index = Index(i: nat, j: nat, k: nat, l: nat)

  function Total(x: Index): nat
  {
    x.i + x.j + x.k + x.l
  }

  /** The order of the comprehension: by i, then j, then k. */
  predicate LexLess(a: Index, b: Index)
  {
    a.i < b.i || (a.i == b.i && a.j < b.j) || (a.i == b.i && a.j == b.j && a.k < b.k)
  }

  predicate StrictlySorted(s: seq<Index>)
  {
    forall p, q :: 0 <= p < q < |s| ==> LexLess(s[p], s[q])
  }

  /** `for k in range(n + 1 - i - j)` at fixed i and j. */
  function KRun(n: nat, i: nat, j: nat): (s: seq<Index>)
    requires i + j <= n
    ensures |s| == n - i - j + 1
  {
    seq(n - i - j + 1, k requires 0 <= k <= n - i - j => Index(i, j, k, n - i - j - k))
  }

  /** `for j in range(n + 1 - i)` from j on, at fixed i. */
  function JRun(n: nat, i: nat, j: nat): seq<Index>
    requires i + j <= n + 1
    decreases n + 1 - i - j
  {
    if i + j > n then [] else KRun(n, i, j) + JRun(n, i, j + 1)
  }

  /** `for i in range(n + 1)` from i on. */
  function IRun(n: nat, i: nat): seq<Index>
    requires i <= n + 1
    decreases n + 1 - i
  {
    if i > n then [] else JRun(n, i, 0) + IRun(n, i + 1)
  }

  /** The `idx` array of `_newton_cotes`. */
  function Lattice(n: nat): seq<Index>
  {
    IRun(n, 0)
  }

  lemma KRunMembers(n: nat, i: nat, j: nat, x: Index)
    requires i + j <= n
    ensures x in KRun(n, i, j) <==> x.i == i && x.j == j && Total(x) == n
  {
    if x.i == i && x.j == j && Total(x) == n {
      assert KRun(n, i, j)[x.k] == x;
    }
  }

  lemma {:induction false} JRunMembers(n: nat, i: nat, j: nat, x: Index)
    requires i + j <= n + 1
    ensures x in JRun(n, i, j) <==> x.i == i && j <= x.j && Total(x) == n
    decreases n + 1 - i - j
  {
    if i + j <= n {
      KRunMembers(n, i, j, x);
      JRunMembers(n, i, j + 1, x);
    }
  }

  lemma {:induction false} IRunMembers(n: nat, i: nat, x: Index)
    requires i <= n + 1
    ensures x in IRun(n, i) <==> i <= x.i && Total(x) == n
    decreases n + 1 - i
  {
    if i <= n {
      JRunMembers(n, i, 0, x);
      IRunMembers(n, i + 1, x);
    }
  }

  /** The lattice holds exactly the indices whose entries sum to n. */
  lemma LatticeMembers(n: nat, x: Index)
    ensures x in Lattice(n) <==> Total(x) == n
  {
    IRunMembers(n, 0, x);
  }

  lemma SortedAppend(a: seq<Index>, b: seq<Index>)
    requires StrictlySorted(a) && StrictlySorted(b)
    requires forall x, y :: x in a && y in b ==> LexLess(x, y)
    ensures StrictlySorted(a + b)
  {
    forall p, q | 0 <= p < q < |a + b|
      ensures LexLess((a + b)[p], (a + b)[q])
    {
      if q < |a| {
        assert (a + b)[p] == a[p] && (a + b)[q] == a[q];
      } else if p < |a| {
        assert (a + b)[p] in a && (a + b)[q] in b;
      } else {
        assert (a + b)[p] == b[p - |a|] && (a + b)[q] == b[q - |a|];
      }
    }
  }

  lemma {:induction false} JRunSorted(n: nat, i: nat, j: nat)
    requires i + j <= n + 1
    ensures StrictlySorted(JRun(n, i, j))
    decreases n + 1 - i - j
  {
    if i + j <= n {
      JRunSorted(n, i, j + 1);
      forall x, y | x in KRun(n, i, j) && y in JRun(n, i, j + 1)
        ensures LexLess(x, y)
      {
        KRunMembers(n, i, j, x);
        JRunMembers(n, i, j + 1, y);
      }
      SortedAppend(KRun(n, i, j), JRun(n, i, j + 1));
    }
  }

  lemma {:induction false} IRunSorted(n: nat, i: nat)
    requires i <= n + 1
    ensures StrictlySorted(IRun(n, i))
    decreases n + 1 - i
  {
    if i <= n {
      JRunSorted(n, i, 0);
      IRunSorted(n, i + 1);
      forall x, y | x in JRun(n, i, 0) && y in IRun(n, i + 1)
        ensures LexLess(x, y)
      {
        JRunMembers(n, i, 0, x);
        IRunMembers(n, i + 1, y);
      }
      SortedAppend(JRun(n, i, 0), IRun(n, i + 1));
    }
  }

  /** The lattice is listed in strictly increasing lexicographic order, so no
      index appears twice. */
  lemma LatticeSorted(n: nat)
    ensures StrictlySorted(Lattice(n))
    ensures forall p, q :: 0 <= p < q < |Lattice(n)| ==> Lattice(n)[p] != Lattice(n)[q]
  {
    IRunSorted(n, 0);
  }

  lemma {:induction false} JRunLength(n: nat, i: nat, j: nat)
    requires i + j <= n + 1
    ensures 2 * |JRun(n, i, j)| == (n + 1 - i - j) * (n + 2 - i - j)
    decreases n + 1 - i - j
  {
    if i + j <= n {
      JRunLength(n, i, j + 1);
      var m := n - i - j;
      assert (m + 1) * (m + 2) == 2 * (m + 1) + m * (m + 1);
    }
  }

  lemma CountStep(u: int, rest: int, first: int)
    requires 2 * first == u * (u + 1)
    requires 6 * rest == (u - 1) * u * (u + 1)
    ensures 6 * (first + rest) == u * (u + 1) * (u + 2)
  {
  }

  lemma {:induction false} IRunLength(n: nat, i: nat)
    requires i <= n + 1
    ensures 6 * |IRun(n, i)| == (n + 1 - i) * (n + 2 - i) * (n + 3 - i)
    decreases n + 1 - i
  {
    if i <= n {
      JRunLength(n, i, 0);
      IRunLength(n, i + 1);
      CountStep(n + 1 - i, |IRun(n, i + 1)|, |JRun(n, i, 0)|);
    }
  }

  /** There are (n + 1)(n + 2)(n + 3) / 6 lattice points. */
  lemma LatticeLength(n: nat)
    ensures 6 * |Lattice(n)| == (n + 1) * (n + 2) * (n + 3)
  {
    IRunLength(n, 0);
  }

  /** Four numbers over their positive total form a barycentric row. */
  lemma QuarterRow(a: real, b: real, c: real, d: real, s: real)
    requires s > 0.0 && a + b + c + d == s
    ensures IsBary([a / s, b / s, c / s, d / s])
  {
    assert a / s + b / s + c / s + d / s == (a + b + c + d) / s;
  }

  /** The nodes of an index on the lattice of order n sum to one. */
  lemma NodesSumToOne(rule: Rule, n: nat, x: Index)
    requires Defined(rule, n) && Total(x) == n
    ensures IsBary([Node(rule, x.i, n), Node(rule, x.j, n), Node(rule, x.k, n), Node(rule, x.l, n)])
  {
    match rule
    case Closed =>
      assert x.i as real + x.j as real + x.k as real + x.l as real == n as real;
      QuarterRow(x.i as real, x.j as real, x.k as real, x.l as real, n as real);
    case Open =>
      assert (x.i + 1) as real + (x.j + 1) as real + (x.k + 1) as real + (x.l + 1) as real == (n + 4) as real;
      QuarterRow((x.i + 1) as real, (x.j + 1) as real, (x.k + 1) as real, (x.l + 1) as real, (n + 4) as real);
  }

  /** `point_fun(idx, n)` for one lattice index. */
  function NodeRow(rule: Rule, n: nat, x: Index): (row: seq<real>)
    requires Defined(rule, n)
    ensures Total(x) == n ==> IsBary(row)
  {
    if Total(x) == n then NodesSumToOne(rule, n, x); [Node(rule, x.i, n), Node(rule, x.j, n), Node(rule, x.k, n), Node(rule, x.l, n)]
    else [Node(rule, x.i, n), Node(rule, x.j, n), Node(rule, x.k, n), Node(rule, x.l, n)]
  }

  /** `bary = point_fun(idx, n)`: every row sums to one. */
  function Bary(rule: Rule, n: nat): (rows: seq<seq<real>>)
    requires Defined(rule, n)
    ensures |rows| == |Lattice(n)| && AllBary(rows)
    ensures forall q :: 0 <= q < |rows| ==> rows[q] == NodeRow(rule, n, Lattice(n)[q])
  {
    var lattice := Lattice(n);
    forall q | 0 <= q < |lattice|
      ensures Total(lattice[q]) == n
    {
      LatticeMembers(n, lattice[q]);
    }
    seq(|lattice|, q requires 0 <= q < |lattice| => NodeRow(rule, n, lattice[q]))
  }

  /** `points = bary[:, [1, 2, 3]]`. */
  function Points(rule: Rule, n: nat): (points: seq<Vec3>)
    requires Defined(rule, n)
    ensures |points| == |Lattice(n)|
    ensures forall q :: 0 <= q < |points| ==> Lift(points[q]) == Bary(rule, n)[q]
  {
    DropFirstColumn(Bary(rule, n))
  }

  /** Multiplying by the factor (t - xk) / (xm - xk), in the coefficients
      get_poly hands to sympy. */
  lemma EvalLinearFactor(p: seq<real>, xk: real, xm: real, x: real)
    requires xk < xm
    ensures Eval(MulLinear(p, -xk / (xm - xk), 1.0 / (xm - xk)), x) == Eval(p, x) * ((x - xk) / (xm - xk))
  {
    var d := xm - xk;
    EvalMulLinear(p, -xk / d, 1.0 / d, x);
    assert -xk / d + 1.0 / d * x == (x - xk) / d;
  }

  /** `point_fun(k, n)` for k = 0, ..., count - 1: the abscissae get_poly
      interpolates at. */
  function Nodes(rule: Rule, n: nat, count: nat): (xs: seq<real>)
    requires Defined(rule, n)
    ensures |xs| == count
    ensures forall k :: 0 <= k < count ==> xs[k] == Node(rule, k, n)
  {
    seq(count, k requires 0 <= k < count => Node(rule, k, n))
  }

  predicate Increasing(xs: seq<real>)
  {
    forall k, m :: 0 <= k < m < |xs| ==> xs[k] < xs[m]
  }

  lemma NodesIncreasing(rule: Rule, n: nat, count: nat)
    requires Defined(rule, n)
    ensures Increasing(Nodes(rule, n, count))
  {
    forall k, m | 0 <= k < m < count
      ensures Nodes(rule, n, count)[k] < Nodes(rule, n, count)[m]
    {
      NodeIncreasing(rule, k, m, n);
    }
  }

  /** The product over k < count of (t - xs[k]) / (xs[m] - xs[k]). */
  function Factors(xs: seq<real>, m: nat, count: nat): (p: seq<real>)
    requires Increasing(xs) && count <= m < |xs|
    ensures |p| == count + 1
  {
    if count == 0 then [1.0]
    else
      var xk, xm := xs[count - 1], xs[m];
      MulLinear(Factors(xs, m, count - 1), -xk / (xm - xk), 1.0 / (xm - xk))
  }

  lemma {:induction false} FactorsAtOwnNode(xs: seq<real>, m: nat, count: nat)
    requires Increasing(xs) && count <= m < |xs|
    ensures Eval(Factors(xs, m, count), xs[m]) == 1.0
  {
    var xm := xs[m];
    if count > 0 {
      var xk := xs[count - 1];
      FactorsAtOwnNode(xs, m, count - 1);
      EvalLinearFactor(Factors(xs, m, count - 1), xk, xm, xm);
      assert (xm - xk) / (xm - xk) == 1.0;
    } else {
      assert Eval([1.0], xm) == 1.0 + xm * Eval([], xm);
    }
  }

  lemma {:induction false} FactorsVanish(xs: seq<real>, m: nat, count: nat, k: nat)
    requires Increasing(xs) && count <= m < |xs| && k < count
    ensures Eval(Factors(xs, m, count), xs[k]) == 0.0
  {
    var xk, xm := xs[count - 1], xs[m];
    EvalLinearFactor(Factors(xs, m, count - 1), xk, xm, xs[k]);
    if k < count - 1 {
      FactorsVanish(xs, m, count - 1, k);
    }
  }

  /** `get_poly(t, m, n)`: the Lagrange factor of node m over the nodes below it. */
  function GetPoly(rule: Rule, n: nat, m: nat): (p: seq<real>)
    requires Defined(rule, n)
    ensures |p| == m + 1
  {
    NodesIncreasing(rule, n, m + 1);
    Factors(Nodes(rule, n, m + 1), m, m)
  }

  /** get_poly is the constant 1 for m = 0; it is 1 at node m and 0 at every
      node below m. */
  lemma GetPolyValues(rule: Rule, n: nat, m: nat)
    requires Defined(rule, n)
    ensures m == 0 ==> GetPoly(rule, n, m) == [1.0]
    ensures Eval(GetPoly(rule, n, m), Node(rule, m, n)) == 1.0
    ensures forall k: nat :: k < m ==> Eval(GetPoly(rule, n, m), Node(rule, k, n)) == 0.0
  {
    NodesIncreasing(rule, n, m + 1);
    var xs := Nodes(rule, n, m + 1);
    FactorsAtOwnNode(xs, m, m);
    forall k: nat | k < m
      ensures Eval(GetPoly(rule, n, m), Node(rule, k, n)) == 0.0
    {
      FactorsVanish(xs, m, m, k);
    }
  }

  function FactProduct(exps: seq<nat>): (r: nat)
    ensures r >= 1
  {
    if exps == [] then 1 else Fact(exps[0]) * FactProduct(exps[1..])
  }

  function ExpSum(exps: seq<nat>): nat
  {
    if exps == [] then 0 else exps[0] + ExpSum(exps[1..])
  }

  /** Silvester's closed form for a monomial with exponents m over the
      tetrahedron, scaled by 6 so that the reference volume counts as one:
      `prod(factorial(m)) * 6.0 / factorial(sum(m) + 3)`. */
  function MonomialIntegral(exps: seq<nat>): (r: real)
    ensures r > 0.0
  {
    FactProduct(exps) as real * 6.0 / Fact(ExpSum(exps) + 3) as real
  }

  /** One monomial of the expanded product `g`: its exponents (`g.monoms()`)
      and its coefficient (`g.coeffs()`). */
  datatype Term = Term(exps: seq<nat>, coef: real)

  /** The coefficient built so far times the coefficient chosen next. */
  function MulCoef(coef: real, c: real): real
  {
    coef * c
  }

  /** The monomials of the product of the polynomials `ps`, one variable
      each; `exps` and `coef` are the exponents chosen and the coefficient
      built so far. Zero coefficients are kept: they add nothing to a weight. */
  function Expand(ps: seq<seq<real>>, exps: seq<nat>, coef: real): seq<Term>
    decreases |ps|, 1, 0
  {
    if ps == [] then [Term(exps, coef)]
    else ExpandFrom(ps, exps, coef, 0)
  }

  /** Expand with the exponent of the first remaining variable at least e. */
  function ExpandFrom(ps: seq<seq<real>>, exps: seq<nat>, coef: real, e: nat): seq<Term>
    requires ps != []
    decreases |ps|, 0, |ps[0]| - e
  {
    if e >= |ps[0]| then []
    else Expand(ps[1..], exps + [e], MulCoef(coef, ps[0][e])) + ExpandFrom(ps, exps, coef, e + 1)
  }

  /** `numpy.sum` of `c * integral(m)` over the monomials, where `integral`
      is the closed form of a monomial's integral. */
  function IntegrateTerms(terms: seq<Term>, integral: seq<nat> -> real): real
  {
    if terms == [] then 0.0
    else MulCoef(terms[0].coef, integral(terms[0].exps)) + IntegrateTerms(terms[1..], integral)
  }

  /** Coordinate q of the point t, and 0 past its end. */
  function At(t: seq<real>, q: nat): real
  {
    if q < |t| then t[q] else 0.0
  }

  /** The value at the point t of the monomial with exponents exps, the q-th
      exponent applying to coordinate q. */
  function Monomial(exps: seq<nat>, t: seq<real>): real
  {
    if exps == [] then 1.0
    else Monomial(exps[..|exps| - 1], t) * Power(At(t, |exps| - 1), exps[|exps| - 1])
  }

  /** The value at the point t of a sum of monomials. */
  function EvalTerms(terms: seq<Term>, t: seq<real>): real
  {
    if terms == [] then 0.0
    else MulCoef(terms[0].coef, Monomial(terms[0].exps, t)) + EvalTerms(terms[1..], t)
  }

  /** The value at the point t of the product of the univariate polynomials
      ps, the first of them in coordinate k, the next in k + 1, and so on. */
  function ProductAt(ps: seq<seq<real>>, t: seq<real>, k: nat): real
  {
    if ps == [] then 1.0 else Eval(ps[0], At(t, k)) * ProductAt(ps[1..], t, k + 1)
  }

  lemma {:induction false} EvalTermsAppend(a: seq<Term>, b: seq<Term>, t: seq<real>)
    ensures EvalTerms(a + b, t) == EvalTerms(a, t) + EvalTerms(b, t)
  {
    if a == [] {
      assert a + b == b;
    } else {
      assert (a + b)[1..] == a[1..] + b;
      EvalTermsAppend(a[1..], b, t);
    }
  }

  lemma MonomialAppend(exps: seq<nat>, e: nat, t: seq<real>)
    ensures Monomial(exps + [e], t) == MulCoef(Monomial(exps, t), Power(At(t, |exps|), e))
  {
    assert (exps + [e])[..|exps|] == exps;
  }

  lemma ProductAtStep(ps: seq<seq<real>>, t: seq<real>, k: nat)
    requires ps != []
    ensures ProductAt(ps, t, k) == MulCoef(Eval(ps[0], At(t, k)), ProductAt(ps[1..], t, k + 1))
  {
  }

  /** The product a b c, kept whole so that equal products are recognised
      as such. */
  function Product3(a: real, b: real, c: real): real
  {
    a * b * c
  }

  /** The product a b c d. */
  function Product4(a: real, b: real, c: real, d: real): real
  {
    a * b * c * d
  }

  /** The value of ExpandFrom at exponent e: the monomials whose first
      exponent is e, then those whose first exponent is above e. */
  lemma ExpandFromValue(ps: seq<seq<real>>, exps: seq<nat>, coef: real, e: nat, t: seq<real>)
    requires ps != [] && e < |ps[0]|
    ensures EvalTerms(ExpandFrom(ps, exps, coef, e), t)
         == EvalTerms(Expand(ps[1..], exps + [e], MulCoef(coef, ps[0][e])), t) + EvalTerms(ExpandFrom(ps, exps, coef, e + 1), t)
  {
    EvalTermsAppend(Expand(ps[1..], exps + [e], MulCoef(coef, ps[0][e])), ExpandFrom(ps, exps, coef, e + 1), t);
  }

  /** The identity behind one step of ExpandFromEval, on plain reals. */
  lemma ExpandStep(coef: real, c: real, m: real, mono: real, pw: real, tail: real, r: real,
                   first: real, rest: real, sum: real)
    requires mono == MulCoef(m, pw)
    requires first == Product3(MulCoef(coef, c), mono, r)
    requires rest == Product4(coef, m, tail, r)
    requires sum == c * pw + tail
    ensures first + rest == Product4(coef, m, sum, r)
  {
  }

  /** The identity behind the first step of ExpandEval, on plain reals. */
  lemma HeadStep(coef: real, m: real, s: real, head: real, r: real, value: real, product: real)
    requires value == Product4(coef, m, s, r)
    requires s == head && product == MulCoef(head, r)
    ensures value == Product3(coef, m, product)
  {
  }

  /** The expansion stands for the product it expands: at every point t, its
      monomials add up to coef times the monomial chosen so far times the
      value of the product of the remaining factors. */
  lemma {:induction false} ExpandEval(ps: seq<seq<real>>, exps: seq<nat>, coef: real, t: seq<real>)
    ensures EvalTerms(Expand(ps, exps, coef), t) == Product3(coef, Monomial(exps, t), ProductAt(ps, t, |exps|))
    decreases |ps|, 1, 0
  {
    if ps == [] {
      assert [Term(exps, coef)][1..] == [];
    } else {
      ExpandFromEval(ps, exps, coef, 0, t);
      PowerSumZero(ps[0], At(t, |exps|));
      ProductAtStep(ps, t, |exps|);
      HeadStep(coef, Monomial(exps, t), PowerSum(ps[0], 0, At(t, |exps|)), Eval(ps[0], At(t, |exps|)),
               ProductAt(ps[1..], t, |exps| + 1), EvalTerms(ExpandFrom(ps, exps, coef, 0), t), ProductAt(ps, t, |exps|));
    }
  }

  /** ExpandFrom at exponent e stands for the terms of the first factor from
      degree e on, times the product of the other factors. */
  lemma {:induction false} ExpandFromEval(ps: seq<seq<real>>, exps: seq<nat>, coef: real, e: nat, t: seq<real>)
    requires ps != []
    ensures EvalTerms(ExpandFrom(ps, exps, coef, e), t)
         == Product4(coef, Monomial(exps, t), PowerSum(ps[0], e, At(t, |exps|)), ProductAt(ps[1..], t, |exps| + 1))
    decreases |ps|, 0, |ps[0]| - e
  {
    if e < |ps[0]| {
      var c := MulCoef(coef, ps[0][e]);
      ExpandFromValue(ps, exps, coef, e, t);
      ExpandEval(ps[1..], exps + [e], c, t);
      assert |exps + [e]| == |exps| + 1;
      MonomialAppend(exps, e, t);
      ExpandFromEval(ps, exps, coef, e + 1, t);
      PowerSumStep(ps[0], e, At(t, |exps|));
      ExpandStep(coef, ps[0][e], Monomial(exps, t), Monomial(exps + [e], t), Power(At(t, |exps|), e),
                 PowerSum(ps[0], e + 1, At(t, |exps|)), ProductAt(ps[1..], t, |exps| + 1),
                 EvalTerms(Expand(ps[1..], exps + [e], c), t), EvalTerms(ExpandFrom(ps, exps, coef, e + 1), t),
                 PowerSum(ps[0], e, At(t, |exps|)));
    }
  }

  /** Expanded from scratch, the monomials add up to the product itself. */
  lemma ExpandProduct(ps: seq<seq<real>>, t: seq<real>)
    ensures EvalTerms(Expand(ps, [], 1.0), t) == ProductAt(ps, t, 0)
  {
    ExpandEval(ps, [], 1.0, t);
  }

  /** The four factors get_poly(t0, i), ..., get_poly(t3, l) of index x,
      whose product is the polynomial g of its weight. */
  function WeightFactors(rule: Rule, n: nat, x: Index): seq<seq<real>>
    requires Defined(rule, n)
  {
    [GetPoly(rule, n, x.i), GetPoly(rule, n, x.j), GetPoly(rule, n, x.k), GetPoly(rule, n, x.l)]
  }

  lemma ProductAtFour(ps: seq<seq<real>>, t: seq<real>)
    requires |ps| == 4 && |t| == 4
    ensures ProductAt(ps, t, 0) == Product4(Eval(ps[0], t[0]), Eval(ps[1], t[1]), Eval(ps[2], t[2]), Eval(ps[3], t[3]))
  {
    ProductAtStep(ps, t, 0);
    ProductAtStep(ps[1..], t, 1);
    ProductAtStep(ps[2..], t, 2);
    ProductAtStep(ps[3..], t, 3);
    assert ps[1..][0] == ps[1] && ps[2..][0] == ps[2] && ps[3..][0] == ps[3];
    assert ps[1..][1..] == ps[2..] && ps[2..][1..] == ps[3..] && ps[3..][1..] == [];
    NestedProduct(Eval(ps[0], t[0]), Eval(ps[1], t[1]), Eval(ps[2], t[2]), Eval(ps[3], t[3]));
  }

  lemma NestedProduct(a: real, b: real, c: real, d: real)
    ensures MulCoef(a, MulCoef(b, MulCoef(c, MulCoef(d, 1.0)))) == Product4(a, b, c, d)
  {
  }

  /** Silvester's Lagrange property, for every n: the expanded polynomial g of
      a lattice index x is 1 at the node of x and 0 at the node of every other
      lattice index. */
  lemma LagrangeProperty(rule: Rule, n: nat, x: Index, y: Index)
    requires Defined(rule, n) && Total(x) == n && Total(y) == n
    ensures EvalTerms(Expand(WeightFactors(rule, n, x), [], 1.0), NodeRow(rule, n, y)) == if x == y then 1.0 else 0.0
  {
    var ps := WeightFactors(rule, n, x);
    var t := NodeRow(rule, n, y);
    assert t == [Node(rule, y.i, n), Node(rule, y.j, n), Node(rule, y.k, n), Node(rule, y.l, n)];
    ExpandProduct(ps, t);
    ProductAtFour(ps, t);
    FactorAtNode(rule, n, x.i, y.i);
    FactorAtNode(rule, n, x.j, y.j);
    FactorAtNode(rule, n, x.k, y.k);
    FactorAtNode(rule, n, x.l, y.l);
    if x != y {
      assert y.i < x.i || y.j < x.j || y.k < x.k || y.l < x.l;
    }
    Product4Cases(Eval(ps[0], t[0]), Eval(ps[1], t[1]), Eval(ps[2], t[2]), Eval(ps[3], t[3]));
  }

  lemma Product4Cases(a: real, b: real, c: real, d: real)
    ensures a == 1.0 && b == 1.0 && c == 1.0 && d == 1.0 ==> Product4(a, b, c, d) == 1.0
    ensures a == 0.0 || b == 0.0 || c == 0.0 || d == 0.0 ==> Product4(a, b, c, d) == 0.0
  {
  }

  /** get_poly(t, m, n) at node k: 1 when k is m, 0 when k is below m. */
  lemma FactorAtNode(rule: Rule, n: nat, m: nat, k: nat)
    requires Defined(rule, n)
    ensures k == m ==> Eval(GetPoly(rule, n, m), Node(rule, k, n)) == 1.0
    ensures k < m ==> Eval(GetPoly(rule, n, m), Node(rule, k, n)) == 0.0
  {
    GetPolyValues(rule, n, m);
  }

  /** The weight of one lattice index: `numpy.sum` over the monomials of
      g = get_poly(t0, i) get_poly(t1, j) get_poly(t2, k) get_poly(t3, l). */
  function Weight(rule: Rule, n: nat, x: Index): real
    requires Defined(rule, n)
  {
    var g := Expand(WeightFactors(rule, n, x), [], 1.0);
    IntegrateTerms(g, MonomialIntegral)
  }

  /** The weight of each index of xs, in order. */
  function MapIndices(weightOf: Index -> real, xs: seq<Index>): (w: seq<real>)
    ensures |w| == |xs|
  {
    if xs == [] then [] else [weightOf(xs[0])] + MapIndices(weightOf, xs[1..])
  }

  lemma {:induction false} MapIndicesAt(weightOf: Index -> real, xs: seq<Index>, q: nat)
    requires q < |xs|
    ensures MapIndices(weightOf, xs)[q] == weightOf(xs[q])
  {
    if q > 0 {
      MapIndicesAt(weightOf, xs[1..], q - 1);
    }
  }

  /** Weight as a value, for the loop that fills the weights array. */
  function WeightOf(rule: Rule, n: nat): Index -> real
    requires Defined(rule, n)
  {
    x => Weight(rule, n, x)
  }

  /** The weights of a degree-0 scheme, `numpy.ones(1)`, whichever the rule:
      they are fixed before any node is computed. */
  function DegreeZeroWeights(): seq<real>
  {
    Ones(1, 1.0)
  }

  /** The weights `_newton_cotes` returns: `numpy.ones(1)` for n = 0, else one
      weight per lattice index, in lattice order. */
  function Weights(rule: Rule, n: nat): (w: seq<real>)
    requires Defined(rule, n)
  {
    if n == 0 then DegreeZeroWeights() else MapIndices(WeightOf(rule, n), Lattice(n))
  }

  /** One weight per point, and for n > 0 the weight of the q-th lattice index
      sits at position q. */
  lemma WeightsMatchLattice(rule: Rule, n: nat)
    requires Defined(rule, n)
    ensures |Weights(rule, n)| == |Points(rule, n)|
    ensures n > 0 ==> forall q :: 0 <= q < |Lattice(n)| ==> Weights(rule, n)[q] == Weight(rule, n, Lattice(n)[q])
  {
    if n == 0 {
      assert Lattice(0) == [Index(0, 0, 0, 0)] by {
        assert JRun(0, 0, 1) == [] && IRun(0, 1) == [];
      }
    } else {
      forall q | 0 <= q < |Lattice(n)|
        ensures Weights(rule, n)[q] == Weight(rule, n, Lattice(n)[q])
      {
        MapIndicesAt(WeightOf(rule, n), Lattice(n), q);
      }
    }
  }

  predicate IsSuffix(t: seq<Index>, s: seq<Index>)
  {
    |t| <= |s| && s[|s| - |t|..] == t
  }

  lemma SuffixOfSuffix(a: seq<Index>, b: seq<Index>, s: seq<Index>)
    requires IsSuffix(a + b, s)
    ensures IsSuffix(b, s)
  {
    assert s[|s| - |b|..] == s[|s| - |a + b|..][|a|..];
  }

  lemma {:induction false} IRunSuffix(n: nat, i: nat)
    requires i <= n + 1
    ensures IsSuffix(IRun(n, i), Lattice(n))
  {
    if i > 0 {
      IRunSuffix(n, i - 1);
      SuffixOfSuffix(JRun(n, i - 1, 0), IRun(n, i), Lattice(n));
    }
  }

  lemma {:induction false} JRunSuffix(n: nat, i: nat, j: nat)
    requires i + j <= n + 1 && i <= n
    ensures IsSuffix(JRun(n, i, j) + IRun(n, i + 1), Lattice(n))
  {
    if j == 0 {
      IRunSuffix(n, i);
    } else {
      JRunSuffix(n, i, j - 1);
      assert JRun(n, i, j - 1) + IRun(n, i + 1) == KRun(n, i, j - 1) + (JRun(n, i, j) + IRun(n, i + 1));
      SuffixOfSuffix(KRun(n, i, j - 1), JRun(n, i, j) + IRun(n, i + 1), Lattice(n));
    }
  }

  /** Where the triple loop stands at (i, j, k): the running counter `idx` is
      |Lattice(n)| - |JRun(n, i, j)| - |IRun(n, i + 1)| + k, and the lattice holds
      [i, j, k, n-i-j-k] there. */
  lemma LatticeAt(n: nat, i: nat, j: nat, k: nat)
    requires i + j + k <= n
    ensures |JRun(n, i, j)| + |IRun(n, i + 1)| <= |Lattice(n)|
    ensures var idx := |Lattice(n)| - |JRun(n, i, j)| - |IRun(n, i + 1)| + k;
      0 <= idx < |Lattice(n)| && Lattice(n)[idx] == Index(i, j, k, n - i - j - k)
  {
    JRunSuffix(n, i, j);
    var t := JRun(n, i, j) + IRun(n, i + 1);
    var s := Lattice(n);
    assert t[k] == KRun(n, i, j)[k];
    assert s[|s| - |t| + k] == s[|s| - |t|..][k];
  }

  /** The weights loop of `_newton_cotes`: `numpy.empty` filled through the
      running counter `idx` in the order (i, j, k) of the nested loops, the
      weight of index [i, j, k, n-i-j-k] coming from `weightOf`. */
  method FillWeights(n: nat, weightOf: Index -> real) returns (w: seq<real>)
    ensures w == MapIndices(weightOf, Lattice(n))
  {
    var lattice := Lattice(n);
    ghost var expected := MapIndices(weightOf, lattice);
    var weights := new real[|lattice|];
    var idx := 0;
    for i := 0 to n + 1
      invariant idx + |IRun(n, i)| == |lattice|
      invariant forall q :: 0 <= q < idx ==> weights[q] == expected[q]
    {
      for j := 0 to n + 1 - i
        invariant idx + |JRun(n, i, j)| + |IRun(n, i + 1)| == |lattice|
        invariant forall q :: 0 <= q < idx ==> weights[q] == expected[q]
      {
        for k := 0 to n + 1 - i - j
          invariant idx + |JRun(n, i, j)| + |IRun(n, i + 1)| == |lattice| + k
          invariant forall q :: 0 <= q < idx ==> weights[q] == expected[q]
        {
          var l := n - i - j - k;
          assert weightOf(Index(i, j, k, l)) == expected[idx] by {
            LatticeAt(n, i, j, k);
            MapIndicesAt(weightOf, lattice, idx);
          }
          weights[idx] := weightOf(Index(i, j, k, l));
          idx := idx + 1;
        }
      }
    }
    w := weights[..];
  }

  /** `_newton_cotes(n, point_fun)`: the points of the lattice, the weight of
      each index in the same order, and the degree n. */
  method NewtonCotesScheme(rule: Rule, n: nat) returns (s: TetScheme)
    requires Defined(rule, n)
    ensures s.points == Points(rule, n)
    ensures s.weights == Weights(rule, n)
    ensures s.degree == n
  {
    var points := Points(rule, n);
    if n == 0 {
      return TetScheme(DegreeZeroWeights(), points, n);
    }
    var weights := FillWeights(n, WeightOf(rule, n));
    s := TetScheme(weights, points, n);
  }

  /** NewtonCotesClosed(n): the closed rule, whose nodes k / n divide by zero
      at n = 0. That case is refused here (see ClosedNodeAsWritten). */
  method NewtonCotesClosed(n: nat) returns (r: Result<TetScheme>)
    ensures r.Err? <==> n == 0
    ensures r.Ok? ==> r.value.points == Points(Closed, n) && r.value.weights == Weights(Closed, n)
    ensures r.Ok? ==> r.value.degree == n
  {
    if n == 0 {
      return Err(ValueError("Closed Newton-Cotes schemes need n >= 1"));
    }
    var s := NewtonCotesScheme(Closed, n);
    r := Ok(s);
  }

  /** NewtonCotesOpen(n): the open rule, defined for every n. */
  method NewtonCotesOpen(n: nat) returns (s: TetScheme)
    ensures s.points == Points(Open, n) && s.weights == Weights(Open, n)
    ensures s.degree == n
  {
    s := NewtonCotesScheme(Open, n);
  }

  /** The closed `point_fun` as written: `k / float(n)`, which is NaN (None
      here) when n is 0. */
  function ClosedNodeAsWritten(k: nat, n: nat): (x: Option<real>)
    ensures x.None? <==> n == 0
    ensures x.Some? ==> x.value * n as real == k as real
  {
    if n == 0 then None else Some(k as real / n as real)
  }

  /** NewtonCotesClosed(0) as written: its single lattice index [0, 0, 0, 0]
      gives a point none of whose coordinates is a number, while its weight,
      which never consults a node, is 1. */
  lemma ClosedDegreeZeroAsWritten()
    ensures Lattice(0) == [Index(0, 0, 0, 0)]
    ensures ClosedNodeAsWritten(Lattice(0)[0].i, 0).None?
    ensures DegreeZeroWeights() == [1.0]
  {
    assert JRun(0, 0, 1) == [] && IRun(0, 1) == [];
  }

  /** The exponents of the constant monomial in m variables. */
  function Zeros(m: nat): (z: seq<nat>)
    ensures |z| == m
  {
    seq(m, q => 0)
  }

  /** The exponents of t_pos alone, among m variables. */
  function Unit(m: nat, pos: nat): (u: seq<nat>)
    ensures |u| == m
  {
    seq(m, q => if q == pos then 1 else 0)
  }

  lemma ZerosShift(exps: seq<nat>, m: nat)
    requires m > 0
    ensures exps + [0] + Zeros(m - 1) == exps + Zeros(m)
  {
  }

  lemma UnitHead(exps: seq<nat>, m: nat)
    requires m > 0
    ensures exps + [1] + Zeros(m - 1) == exps + Unit(m, 0)
  {
  }

  lemma UnitShift(exps: seq<nat>, m: nat, pos: nat)
    requires m > 0 && pos > 0
    ensures exps + [0] + Unit(m - 1, pos - 1) == exps + Unit(m, pos)
  {
  }

  /** One step of the expansion through a constant factor 1. */
  lemma ExpandConstant(ps: seq<seq<real>>, exps: seq<nat>, coef: real)
    requires ps != [] && ps[0] == [1.0]
    ensures Expand(ps, exps, coef) == Expand(ps[1..], exps + [0], coef)
  {
    assert ExpandFrom(ps, exps, coef, 1) == [];
    assert MulCoef(coef, ps[0][0]) == coef;
  }

  /** One step of the expansion through a linear factor a + b t. */
  lemma ExpandLinear(ps: seq<seq<real>>, exps: seq<nat>, coef: real)
    requires ps != [] && |ps[0]| == 2
    ensures Expand(ps, exps, coef)
         == Expand(ps[1..], exps + [0], MulCoef(coef, ps[0][0])) + Expand(ps[1..], exps + [1], MulCoef(coef, ps[0][1]))
  {
    var second := Expand(ps[1..], exps + [1], MulCoef(coef, ps[0][1]));
    assert ExpandFrom(ps, exps, coef, 2) == [];
    assert ExpandFrom(ps, exps, coef, 1) == second + ExpandFrom(ps, exps, coef, 2);
    assert second + [] == second;
  }

  /** A product of constant factors 1 is the single monomial 1. */
  lemma {:induction false} ExpandConstants(ps: seq<seq<real>>, exps: seq<nat>, coef: real)
    requires forall q :: 0 <= q < |ps| ==> ps[q] == [1.0]
    ensures Expand(ps, exps, coef) == [Term(exps + Zeros(|ps|), coef)]
  {
    if ps == [] {
      assert exps + Zeros(0) == exps;
    } else {
      ExpandConstant(ps, exps, coef);
      ExpandConstants(ps[1..], exps + [0], coef);
      ZerosShift(exps, |ps|);
    }
  }

  /** A product of constant factors 1 and one linear factor a + b t_pos is
      the constant a plus the monomial b t_pos. */
  lemma {:induction false} ExpandOneLinear(ps: seq<seq<real>>, exps: seq<nat>, coef: real, pos: nat)
    requires pos < |ps| && |ps[pos]| == 2
    requires forall q :: 0 <= q < |ps| && q != pos ==> ps[q] == [1.0]
    ensures Expand(ps, exps, coef)
         == [Term(exps + Zeros(|ps|), MulCoef(coef, ps[pos][0])), Term(exps + Unit(|ps|, pos), MulCoef(coef, ps[pos][1]))]
  {
    var m := |ps|;
    if pos == 0 {
      ExpandLinear(ps, exps, coef);
      ExpandConstants(ps[1..], exps + [0], MulCoef(coef, ps[0][0]));
      ExpandConstants(ps[1..], exps + [1], MulCoef(coef, ps[0][1]));
      ZerosShift(exps, m);
      UnitHead(exps, m);
    } else {
      ExpandConstant(ps, exps, coef);
      ExpandOneLinear(ps[1..], exps + [0], coef, pos - 1);
      ZerosShift(exps, m);
      UnitShift(exps, m, pos);
    }
  }

  lemma {:induction false} ZerosFacts(m: nat)
    ensures FactProduct(Zeros(m)) == 1 && ExpSum(Zeros(m)) == 0
  {
    if m > 0 {
      assert Zeros(m)[1..] == Zeros(m - 1);
      ZerosFacts(m - 1);
    }
  }

  lemma {:induction false} UnitFacts(m: nat, pos: nat)
    requires pos < m
    ensures FactProduct(Unit(m, pos)) == 1 && ExpSum(Unit(m, pos)) == 1
  {
    if pos == 0 {
      assert Unit(m, 0)[1..] == Zeros(m - 1);
      ZerosFacts(m - 1);
    } else {
      assert Unit(m, pos)[1..] == Unit(m - 1, pos - 1);
      UnitFacts(m - 1, pos - 1);
    }
  }

  /** The constant monomial integrates to the reference volume, normalised to
      one, and each linear monomial to a quarter of it. */
  lemma LinearMonomials(pos: nat)
    requires pos < 4
    ensures MonomialIntegral(Zeros(4)) == 1.0
    ensures MonomialIntegral(Unit(4, pos)) == 0.25
  {
    ZerosFacts(4);
    UnitFacts(4, pos);
    assert Fact(3) == 6 && Fact(4) == 24;
  }

  lemma IntegrateTwo(t0: Term, t1: Term, integral: seq<nat> -> real)
    ensures IntegrateTerms([t0, t1], integral) == MulCoef(t0.coef, integral(t0.exps)) + MulCoef(t1.coef, integral(t1.exps))
  {
    assert [t0, t1][1..] == [t1] && [t1][1..] == [];
    assert IntegrateTerms([t1], integral) == MulCoef(t1.coef, integral(t1.exps)) + IntegrateTerms([], integral);
  }

  /** get_poly(t, 1, 1) is a + b t with a + b / 4 = 1 / 4, for both rules. */
  lemma LinearFactorAtDegreeOne(rule: Rule)
    ensures |GetPoly(rule, 1, 1)| == 2
    ensures GetPoly(rule, 1, 1)[0] + GetPoly(rule, 1, 1)[1] * 0.25 == 0.25
  {
    NodesIncreasing(rule, 1, 2);
    var xs := Nodes(rule, 1, 2);
    var x0, x1 := xs[0], xs[1];
    var c0, c1 := -x0 / (x1 - x0), 1.0 / (x1 - x0);
    assert GetPoly(rule, 1, 1) == MulLinear([1.0], c0, c1);
    assert MulLinearFrom([], c0, c1, 1.0) == [c1];
    assert MulLinear([1.0], c0, c1) == [c0, c1];
    match rule
    case Closed =>
      assert x0 == 0.0 && x1 == 1.0;
    case Open =>
      assert x0 == 0.2 && x1 == 0.4;
      assert c0 == -1.0 && c1 == 5.0;
  }

  /** The lattice index at n = 1 whose 1 sits at position pos. */
  function UnitIndex(pos: nat): (x: Index)
    requires pos < 4
    ensures [x.i, x.j, x.k, x.l] == Unit(4, pos)
  {
    if pos == 0 then Index(1, 0, 0, 0)
    else if pos == 1 then Index(0, 1, 0, 0)
    else if pos == 2 then Index(0, 0, 1, 0)
    else Index(0, 0, 0, 1)
  }

  /** At n = 1, the factor product of the index with its 1 at pos expands to
      a + b t_pos, where get_poly(t, 1, 1) = a + b t. */
  lemma UnitIndexExpansion(rule: Rule, pos: nat)
    requires pos < 4
    ensures |GetPoly(rule, 1, 1)| == 2
    ensures Expand(WeightFactors(rule, 1, UnitIndex(pos)), [], 1.0)
         == [Term(Zeros(4), MulCoef(1.0, GetPoly(rule, 1, 1)[0])), Term(Unit(4, pos), MulCoef(1.0, GetPoly(rule, 1, 1)[1]))]
  {
    var lin := GetPoly(rule, 1, 1);
    var one := GetPoly(rule, 1, 0);
    assert one == [1.0] by {
      GetPolyValues(rule, 1, 0);
    }
    assert |lin| == 2 by {
      LinearFactorAtDegreeOne(rule);
    }
    var ps := WeightFactors(rule, 1, UnitIndex(pos));
    if pos == 0 {
      assert ps == [lin, one, one, one];
    } else if pos == 1 {
      assert ps == [one, lin, one, one];
    } else if pos == 2 {
      assert ps == [one, one, lin, one];
    } else {
      assert ps == [one, one, one, lin];
    }
    ExpandOneLinear(ps, [], 1.0, pos);
    assert [] + Zeros(4) == Zeros(4) && [] + Unit(4, pos) == Unit(4, pos);
  }

  /** At n = 1, the lattice index with a single 1 gets the weight 1/4. */
  lemma UnitIndexWeight(rule: Rule, pos: nat)
    requires pos < 4
    ensures Weight(rule, 1, UnitIndex(pos)) == 0.25
  {
    var x := UnitIndex(pos);
    var g := Expand(WeightFactors(rule, 1, x), [], 1.0);
    assert Weight(rule, 1, x) == IntegrateTerms(g, MonomialIntegral);
    var lin := GetPoly(rule, 1, 1);
    UnitIndexExpansion(rule, pos);
    var t0, t1 := Term(Zeros(4), MulCoef(1.0, lin[0])), Term(Unit(4, pos), MulCoef(1.0, lin[1]));
    assert g == [t0, t1];
    IntegrateTwo(t0, t1, MonomialIntegral);
    assert MonomialIntegral(t0.exps) == 1.0 && MonomialIntegral(t1.exps) == 0.25 by {
      LinearMonomials(pos);
    }
    assert lin[0] + lin[1] * 0.25 == 0.25 by {
      LinearFactorAtDegreeOne(rule);
    }
    LinearCombination(lin[0], lin[1]);
  }

  lemma LinearCombination(a: real, b: real)
    requires a + b * 0.25 == 0.25
    ensures MulCoef(MulCoef(1.0, a), 1.0) + MulCoef(MulCoef(1.0, b), 0.25) == 0.25
  {
  }

  /** The degree-one lattice, in the order the loops visit it. */
  lemma LatticeOne()
    ensures Lattice(1) == [Index(0, 0, 0, 1), Index(0, 0, 1, 0), Index(0, 1, 0, 0), Index(1, 0, 0, 0)]
  {
    assert KRun(1, 0, 0) == [Index(0, 0, 0, 1), Index(0, 0, 1, 0)];
    assert KRun(1, 0, 1) == [Index(0, 1, 0, 0)];
    assert KRun(1, 1, 0) == [Index(1, 0, 0, 0)];
    assert JRun(1, 0, 2) == [] && JRun(1, 1, 1) == [] && IRun(1, 2) == [];
  }

  lemma MapIndicesFour(weightOf: Index -> real, a: Index, b: Index, c: Index, d: Index)
    ensures MapIndices(weightOf, [a, b, c, d]) == [weightOf(a), weightOf(b), weightOf(c), weightOf(d)]
  {
    assert [a, b, c, d][1..] == [b, c, d] && [b, c, d][1..] == [c, d] && [c, d][1..] == [d] && [d][1..] == [];
    assert MapIndices(weightOf, [d]) == [weightOf(d)];
    assert MapIndices(weightOf, [c, d]) == [weightOf(c), weightOf(d)];
    assert MapIndices(weightOf, [b, c, d]) == [weightOf(b), weightOf(c), weightOf(d)];
  }

  /** The degree-one rules, closed and open, give each of the four lattice
      points the weight 1/4. */
  lemma DegreeOneWeights(rule: Rule)
    ensures Lattice(1) == [UnitIndex(3), UnitIndex(2), UnitIndex(1), UnitIndex(0)]
    ensures Weights(rule, 1) == [0.25, 0.25, 0.25, 0.25]
  {
    LatticeOne();
    var f := WeightOf(rule, 1);
    assert Weights(rule, 1) == MapIndices(f, Lattice(1));
    MapIndicesFour(f, UnitIndex(3), UnitIndex(2), UnitIndex(1), UnitIndex(0));
    assert f(UnitIndex(3)) == 0.25 by { UnitIndexWeight(rule, 3); }
    assert f(UnitIndex(2)) == 0.25 by { UnitIndexWeight(rule, 2); }
    assert f(UnitIndex(1)) == 0.25 by { UnitIndexWeight(rule, 1); }
    assert f(UnitIndex(0)) == 0.25 by { UnitIndexWeight(rule, 0); }
  }
}
