/** The symmetry orbits of the tetrahedron (quadrature/tetrahedron.py,
    `_s4`, `_s31`, `_s22`, `_s211`, `_s1111` and the `_r*` helpers of the
    Hammer-Marlowe-Stroud and Liu-Vinokur schemes). Each expands one to three
    free scalars into every arrangement of a repetition pattern; no parameter
    range is ever checked, so any reals are accepted. */
module Orbits {
  import opened Simplex

  /** How many coordinates of a four-coordinate row equal x. */
  function Count(row: seq<real>, x: real): nat
    requires |row| == 4
  {
    (if row[0] == x then 1 else 0) + (if row[1] == x then 1 else 0)
    + (if row[2] == x then 1 else 0) + (if row[3] == x then 1 else 0)
  }

  /** `row` is a rearrangement of `pattern`: every value occurs as often in both. */
  ghost predicate Rearranges(row: seq<real>, pattern: seq<real>)
  {
    |row| == 4 && |pattern| == 4 && forall x :: Count(row, x) == Count(pattern, x)
  }

  /** Every row is a rearrangement of `pattern`. */
  ghost predicate Arrangements(rows: seq<seq<real>>, pattern: seq<real>)
  {
    forall i :: 0 <= i < |rows| ==> Rearranges(rows[i], pattern)
  }

  /** No row is listed twice. */
  predicate NoRepeats(rows: seq<seq<real>>)
  {
    forall i, j :: 0 <= i < j < |rows| ==> rows[i] != rows[j]
  }

  /** Every rearrangement of `pattern` is listed. */
  ghost predicate Complete(rows: seq<seq<real>>, pattern: seq<real>)
  {
    forall p :: Rearranges(p, pattern) ==> p in rows
  }

  /** The full orbit of `pattern` under the 24 permutations of the vertices,
      each point exactly once. */
  ghost predicate IsOrbit(rows: seq<seq<real>>, pattern: seq<real>)
  {
    Arrangements(rows, pattern) && NoRepeats(rows) && Complete(rows, pattern)
  }

  // ---------------------------------------------------------------------
  // Layouts: the literal arrays, shared where two helpers list the same one.

  /** [a,a,a,b], [a,a,b,a], [a,b,a,a], [b,a,a,a], the layout of `_s31`. */
  function ThreeOne(a: real, b: real): (rows: seq<seq<real>>)
    ensures |rows| == 4 && Arrangements(rows, [a, a, a, b])
  {
    [[a, a, a, b],
     [a, a, b, a],
     [a, b, a, a],
     [b, a, a, a]]
  }

  /** [a,b,b,b], [b,a,b,b], [b,b,a,b], [b,b,b,a], the layout of
      `HammerMarloweStroud._r` and `LiuVinokur._r_alpha`. */
  function OneThree(a: real, b: real): (rows: seq<seq<real>>)
    ensures |rows| == 4 && Arrangements(rows, [a, b, b, b])
  {
    [[a, b, b, b],
     [b, a, b, b],
     [b, b, a, b],
     [b, b, b, a]]
  }

  /** The six arrangements of [a,a,b,b], the layout of `_s22` and `_r_beta`. */
  function TwoTwo(a: real, b: real): (rows: seq<seq<real>>)
    ensures |rows| == 6 && Arrangements(rows, [a, a, b, b])
  {
    [[a, a, b, b],
     [a, b, a, b],
     [b, a, a, b],
     [a, b, b, a],
     [b, a, b, a],
     [b, b, a, a]]
  }

  /** The twelve arrangements of [a,a,b,c], the layout of `_s211` and
      `_r_gamma_delta`. */
  function TwoOneOne(a: real, b: real, c: real): (rows: seq<seq<real>>)
    ensures |rows| == 12 && Arrangements(rows, [a, a, b, c])
  {
    [[a, a, b, c],
     [a, b, a, c],
     [b, a, a, c],
     [a, b, c, a],
     [b, a, c, a],
     [b, c, a, a],
     [a, a, c, b],
     [a, c, a, b],
     [c, a, a, b],
     [a, c, b, a],
     [c, a, b, a],
     [c, b, a, a]]
  }

  /** The 24 orderings of [a,b,c,d] in lexicographic order of positions,
      the layout of `_s1111`. */
  function OneOneOneOne(a: real, b: real, c: real, d: real): (rows: seq<seq<real>>)
    ensures |rows| == 24 && Arrangements(rows, [a, b, c, d])
  {
    [[a, b, c, d], [a, b, d, c], [a, c, b, d], [a, c, d, b], [a, d, b, c], [a, d, c, b],
     [b, a, c, d], [b, a, d, c], [b, c, a, d], [b, c, d, a], [b, d, a, c], [b, d, c, a],
     [c, a, b, d], [c, a, d, b], [c, b, a, d], [c, b, d, a], [c, d, a, b], [c, d, b, a],
     [d, a, b, c], [d, a, c, b], [d, b, a, c], [d, b, c, a], [d, c, a, b], [d, c, b, a]]
  }

  // ---------------------------------------------------------------------
  // The orbit generators of the source.

  /** `_s4`: the centroid. */
  function S4(): (rows: seq<seq<real>>)
    ensures |rows| == 1 && AllBary(rows) && IsOrbit(rows, [0.25, 0.25, 0.25, 0.25])
  {
    var rows := [[0.25, 0.25, 0.25, 0.25]];
    assert Complete(rows, [0.25, 0.25, 0.25, 0.25]) by {
      forall p | Rearranges(p, [0.25, 0.25, 0.25, 0.25])
        ensures p in rows
      {
        CoordinatesFromPattern(p, [0.25, 0.25, 0.25, 0.25]);
      }
    }
    rows
  }

  /** `_s31(a)`: pattern [a,a,a,b] with b = 1 - 3a. */
  function S31(a: real): (rows: seq<seq<real>>)
    ensures |rows| == 4 && AllBary(rows) && Arrangements(rows, [a, a, a, 1.0 - 3.0 * a])
  {
    ThreeOne(a, 1.0 - 3.0 * a)
  }

  /** `_s22(a)`: pattern [a,a,b,b] with b = 1/2 - a. */
  function S22(a: real): (rows: seq<seq<real>>)
    ensures |rows| == 6 && AllBary(rows) && Arrangements(rows, [a, a, 0.5 - a, 0.5 - a])
  {
    TwoTwo(a, 0.5 - a)
  }

  /** `_s211(a, b)`: pattern [a,a,b,c] with c = 1 - 2a - b. */
  function S211(a: real, b: real): (rows: seq<seq<real>>)
    ensures |rows| == 12 && AllBary(rows) && Arrangements(rows, [a, a, b, 1.0 - 2.0 * a - b])
  {
    TwoOneOne(a, b, 1.0 - 2.0 * a - b)
  }

  /** `_s1111(a, b, c)`: pattern [a,b,c,d] with d = 1 - a - b - c. */
  function S1111(a: real, b: real, c: real): (rows: seq<seq<real>>)
    ensures |rows| == 24 && AllBary(rows) && Arrangements(rows, [a, b, c, 1.0 - a - b - c])
  {
    OneOneOneOne(a, b, c, 1.0 - a - b - c)
  }

  /** The lone coordinate of `HammerMarloweStroud._r(r)`. */
  function HmsA(r: real): real
  {
    r + (1.0 - r) / 4.0
  }

  /** `HammerMarloweStroud._r(r)`: pattern [a,b,b,b] with a = r + (1-r)/4 and
      b = (1-a)/3, so that a + 3b = 1. */
  function HammerMarloweStroudR(r: real): (rows: seq<seq<real>>)
    ensures |rows| == 4 && AllBary(rows)
    ensures Arrangements(rows, [HmsA(r), (1.0 - HmsA(r)) / 3.0, (1.0 - HmsA(r)) / 3.0, (1.0 - HmsA(r)) / 3.0])
  {
    var a := r + (1.0 - r) / 4.0;
    var b := (1.0 - a) / 3.0;
    OneThree(a, b)
  }

  /** `LiuVinokur._r_alpha(alpha)`: pattern [a,b,b,b] with a = (1+3 alpha)/4 and
      b = (1-alpha)/4. */
  function RAlpha(alpha: real): (rows: seq<seq<real>>)
    ensures |rows| == 4 && AllBary(rows)
    ensures Arrangements(rows, [(1.0 + 3.0 * alpha) / 4.0, (1.0 - alpha) / 4.0, (1.0 - alpha) / 4.0, (1.0 - alpha) / 4.0])
  {
    var a := (1.0 + 3.0 * alpha) / 4.0;
    var b := (1.0 - alpha) / 4.0;
    OneThree(a, b)
  }

  /** `LiuVinokur._r_beta(beta)`: pattern [a,a,b,b] with a = (1+2 beta)/4 and
      b = (1-2 beta)/4. */
  function RBeta(beta: real): (rows: seq<seq<real>>)
    ensures |rows| == 6 && AllBary(rows)
    ensures Arrangements(rows, [(1.0 + 2.0 * beta) / 4.0, (1.0 + 2.0 * beta) / 4.0, (1.0 - 2.0 * beta) / 4.0, (1.0 - 2.0 * beta) / 4.0])
  {
    var a := (1.0 + 2.0 * beta) / 4.0;
    var b := (1.0 - 2.0 * beta) / 4.0;
    TwoTwo(a, b)
  }

  /** `LiuVinokur._r_gamma_delta(gamma, delta)`: pattern [a,a,b,c] with
      a = (1-gamma-delta)/4, b = (1+3 gamma-delta)/4, c = (1+3 delta-gamma)/4. */
  function RGammaDelta(gamma: real, delta: real): (rows: seq<seq<real>>)
    ensures |rows| == 12 && AllBary(rows)
    ensures Arrangements(rows, [(1.0 - gamma - delta) / 4.0, (1.0 - gamma - delta) / 4.0,
                                (1.0 + 3.0 * gamma - delta) / 4.0, (1.0 + 3.0 * delta - gamma) / 4.0])
  {
    var b := (1.0 + 3.0 * gamma - delta) / 4.0;
    var c := (1.0 + 3.0 * delta - gamma) / 4.0;
    var a := (1.0 - gamma - delta) / 4.0;
    TwoOneOne(a, b, c)
  }

  // ---------------------------------------------------------------------
  // Each layout is the whole orbit, without repeats, once its values differ.

  lemma MultisetCount(row: seq<real>, x: real)
    requires |row| == 4
    ensures multiset(row)[x] == Count(row, x)
  {
    assert row == [row[0]] + [row[1]] + [row[2]] + [row[3]];
    assert multiset(row) == multiset{row[0]} + multiset{row[1]} + multiset{row[2]} + multiset{row[3]};
  }

  /** Rearranges is the usual notion of permutation: equal multisets. */
  lemma RearrangesIsPermutation(row: seq<real>, pattern: seq<real>)
    requires |row| == 4 && |pattern| == 4
    ensures Rearranges(row, pattern) <==> multiset(row) == multiset(pattern)
  {
    forall x
      ensures multiset(row)[x] == Count(row, x) && multiset(pattern)[x] == Count(pattern, x)
    {
      MultisetCount(row, x);
      MultisetCount(pattern, x);
    }
    if Rearranges(row, pattern) {
      assert forall x :: multiset(row)[x] == multiset(pattern)[x];
    }
    if multiset(row) == multiset(pattern) {
      assert forall x :: Count(row, x) == Count(pattern, x);
    }
  }

  /** A rearrangement of `pattern` is determined by which value sits where:
      each of its coordinates is one of the pattern's values. */
  lemma CoordinatesFromPattern(p: seq<real>, pattern: seq<real>)
    requires Rearranges(p, pattern)
    ensures p == [p[0], p[1], p[2], p[3]]
    ensures forall i :: 0 <= i < 4 ==> Count(pattern, p[i]) == Count(p, p[i]) >= 1
  {
    assert p == [p[0], p[1], p[2], p[3]];
  }

  lemma ThreeOneOrbit(a: real, b: real)
    requires a != b
    ensures IsOrbit(ThreeOne(a, b), [a, a, a, b])
  {
    forall p | Rearranges(p, [a, a, a, b])
      ensures p in ThreeOne(a, b)
    {
      CoordinatesFromPattern(p, [a, a, a, b]);
    }
  }

  lemma OneThreeOrbit(a: real, b: real)
    requires a != b
    ensures IsOrbit(OneThree(a, b), [a, b, b, b])
  {
    forall p | Rearranges(p, [a, b, b, b])
      ensures p in OneThree(a, b)
    {
      CoordinatesFromPattern(p, [a, b, b, b]);
    }
  }

  lemma TwoTwoOrbit(a: real, b: real)
    requires a != b
    ensures IsOrbit(TwoTwo(a, b), [a, a, b, b])
  {
    forall p | Rearranges(p, [a, a, b, b])
      ensures p in TwoTwo(a, b)
    {
      CoordinatesFromPattern(p, [a, a, b, b]);
    }
  }

  lemma TwoOneOneOrbit(a: real, b: real, c: real)
    requires a != b && a != c && b != c
    ensures IsOrbit(TwoOneOne(a, b, c), [a, a, b, c])
  {
    forall p | Rearranges(p, [a, a, b, c])
      ensures p in TwoOneOne(a, b, c)
    {
      CoordinatesFromPattern(p, [a, a, b, c]);
    }
  }

  /** A rearrangement of four distinct values is one of the 24 listed rows:
      the first three coordinates pick it out. */
  lemma OneOneOneOneCovers(a: real, b: real, c: real, d: real, p: seq<real>)
    requires a != b && a != c && a != d && b != c && b != d && c != d
    requires Rearranges(p, [a, b, c, d])
    ensures p in OneOneOneOne(a, b, c, d)
  {
    var rows := OneOneOneOne(a, b, c, d);
    CoordinatesFromPattern(p, [a, b, c, d]);
    if p[0] == a {
      if p[1] == b {
        if p[2] == c {
          assert p == rows[0];
        } else {
          assert p == rows[1];
        }
      } else if p[1] == c {
        if p[2] == b {
          assert p == rows[2];
        } else {
          assert p == rows[3];
        }
      } else {
        if p[2] == b {
          assert p == rows[4];
        } else {
          assert p == rows[5];
        }
      }
    } else if p[0] == b {
      if p[1] == a {
        if p[2] == c {
          assert p == rows[6];
        } else {
          assert p == rows[7];
        }
      } else if p[1] == c {
        if p[2] == a {
          assert p == rows[8];
        } else {
          assert p == rows[9];
        }
      } else {
        if p[2] == a {
          assert p == rows[10];
        } else {
          assert p == rows[11];
        }
      }
    } else if p[0] == c {
      if p[1] == a {
        if p[2] == b {
          assert p == rows[12];
        } else {
          assert p == rows[13];
        }
      } else if p[1] == b {
        if p[2] == a {
          assert p == rows[14];
        } else {
          assert p == rows[15];
        }
      } else {
        if p[2] == a {
          assert p == rows[16];
        } else {
          assert p == rows[17];
        }
      }
    } else {
      if p[1] == a {
        if p[2] == b {
          assert p == rows[18];
        } else {
          assert p == rows[19];
        }
      } else if p[1] == b {
        if p[2] == a {
          assert p == rows[20];
        } else {
          assert p == rows[21];
        }
      } else {
        if p[2] == a {
          assert p == rows[22];
        } else {
          assert p == rows[23];
        }
      }
    }
  }

  lemma OneOneOneOneOrbit(a: real, b: real, c: real, d: real)
    requires a != b && a != c && a != d && b != c && b != d && c != d
    ensures IsOrbit(OneOneOneOne(a, b, c, d), [a, b, c, d])
  {
    forall p | Rearranges(p, [a, b, c, d])
      ensures p in OneOneOneOne(a, b, c, d)
    {
      OneOneOneOneCovers(a, b, c, d, p);
    }
  }

  // ---------------------------------------------------------------------
  // The generators' orbits, under conditions on the source's own parameters.

  /** `_s31(a)` is the whole 4-point orbit unless a = 1/4 (the centroid). */
  lemma S31Orbit(a: real)
    requires a != 0.25
    ensures IsOrbit(S31(a), [a, a, a, 1.0 - 3.0 * a])
  {
    ThreeOneOrbit(a, 1.0 - 3.0 * a);
  }

  /** `_s22(a)` is the whole 6-point orbit unless a = 1/4. */
  lemma S22Orbit(a: real)
    requires a != 0.25
    ensures IsOrbit(S22(a), [a, a, 0.5 - a, 0.5 - a])
  {
    TwoTwoOrbit(a, 0.5 - a);
  }

  /** `_s211(a, b)` is the whole 12-point orbit when a, b and 1 - 2a - b differ. */
  lemma S211Orbit(a: real, b: real)
    requires a != b && 3.0 * a + b != 1.0 && 2.0 * a + 2.0 * b != 1.0
    ensures IsOrbit(S211(a, b), [a, a, b, 1.0 - 2.0 * a - b])
  {
    TwoOneOneOrbit(a, b, 1.0 - 2.0 * a - b);
  }

  /** `_s1111(a, b, c)` lists all 24 permutations, none twice, when a, b, c and
      d = 1 - a - b - c are pairwise distinct. */
  lemma S1111Orbit(a: real, b: real, c: real)
    requires a != b && a != c && b != c
    requires 2.0 * a + b + c != 1.0 && a + 2.0 * b + c != 1.0 && a + b + 2.0 * c != 1.0
    ensures IsOrbit(S1111(a, b, c), [a, b, c, 1.0 - a - b - c])
  {
    OneOneOneOneOrbit(a, b, c, 1.0 - a - b - c);
  }

  /** `HammerMarloweStroud._r(r)` is the whole 4-point orbit unless r = 0. */
  lemma HammerMarloweStroudROrbit(r: real)
    requires r != 0.0
    ensures IsOrbit(HammerMarloweStroudR(r), [HmsA(r), (1.0 - HmsA(r)) / 3.0, (1.0 - HmsA(r)) / 3.0, (1.0 - HmsA(r)) / 3.0])
  {
    OneThreeOrbit(HmsA(r), (1.0 - HmsA(r)) / 3.0);
  }

  /** `_r_alpha(alpha)` is the whole 4-point orbit unless alpha = 0. */
  lemma RAlphaOrbit(alpha: real)
    requires alpha != 0.0
    ensures IsOrbit(RAlpha(alpha), [(1.0 + 3.0 * alpha) / 4.0, (1.0 - alpha) / 4.0, (1.0 - alpha) / 4.0, (1.0 - alpha) / 4.0])
  {
    OneThreeOrbit((1.0 + 3.0 * alpha) / 4.0, (1.0 - alpha) / 4.0);
  }

  /** `_r_beta(beta)` is the whole 6-point orbit unless beta = 0. */
  lemma RBetaOrbit(beta: real)
    requires beta != 0.0
    ensures IsOrbit(RBeta(beta), [(1.0 + 2.0 * beta) / 4.0, (1.0 + 2.0 * beta) / 4.0, (1.0 - 2.0 * beta) / 4.0, (1.0 - 2.0 * beta) / 4.0])
  {
    TwoTwoOrbit((1.0 + 2.0 * beta) / 4.0, (1.0 - 2.0 * beta) / 4.0);
  }

  /** `_r_gamma_delta(gamma, delta)` is the whole 12-point orbit when gamma and
      delta are nonzero and differ. */
  lemma RGammaDeltaOrbit(gamma: real, delta: real)
    requires gamma != 0.0 && delta != 0.0 && gamma != delta
    ensures IsOrbit(RGammaDelta(gamma, delta), [(1.0 - gamma - delta) / 4.0, (1.0 - gamma - delta) / 4.0,
                                                (1.0 + 3.0 * gamma - delta) / 4.0, (1.0 + 3.0 * delta - gamma) / 4.0])
  {
    TwoOneOneOrbit((1.0 - gamma - delta) / 4.0, (1.0 + 3.0 * gamma - delta) / 4.0, (1.0 + 3.0 * delta - gamma) / 4.0);
  }
}
