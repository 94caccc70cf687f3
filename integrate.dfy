/** `integrate`: a scheme on the reference tetrahedron applied to an arbitrary
    tetrahedron, through the affine map of its vertices and the absolute value
    of its signed volume. */
module Integration {
  import opened Basics
  import opened Simplex

  /** The four vertices `tetrahedron[0..3]`. */
  datatype Tetrahedron = Tetrahedron(v0: Vec3, v1: Vec3, v2: Vec3, v3: Vec3)

  /** The reference tetrahedron the schemes are given on. */
  const Reference := Tetrahedron(Vec3(0.0, 0.0, 0.0), Vec3(1.0, 0.0, 0.0), Vec3(0.0, 1.0, 0.0), Vec3(0.0, 0.0, 1.0))

  function Vertex(t: Tetrahedron, p: nat): Vec3
    requires p < 4
  {
    if p == 0 then t.v0 else if p == 1 then t.v1 else if p == 2 then t.v2 else t.v3
  }

  /** `x = v0 (1 - xi0 - xi1 - xi2) + v1 xi0 + v2 xi1 + v3 xi2`. */
  function MapPoint(t: Tetrahedron, xi: Vec3): Vec3
  {
    var b := 1.0 - xi.x - xi.y - xi.z;
    Vec3(t.v0.x * b + t.v1.x * xi.x + t.v2.x * xi.y + t.v3.x * xi.z,
         t.v0.y * b + t.v1.y * xi.x + t.v2.y * xi.y + t.v3.y * xi.z,
         t.v0.z * b + t.v1.z * xi.x + t.v2.z * xi.y + t.v3.z * xi.z)
  }

  /** The affine map sends the reference vertices to the given vertices. */
  lemma MapVertices(t: Tetrahedron)
    ensures forall p :: 0 <= p < 4 ==> MapPoint(t, Vertex(Reference, p)) == Vertex(t, p)
  {
    forall p | 0 <= p < 4
      ensures MapPoint(t, Vertex(Reference, p)) == Vertex(t, p)
    {
    }
  }

  /** A reference point with barycentric row `row` is sent to the same
      combination of the vertices. */
  lemma MapPointBarycentric(t: Tetrahedron, xi: Vec3)
    ensures var row := Lift(xi);
      && MapPoint(t, xi).x == row[0] * t.v0.x + row[1] * t.v1.x + row[2] * t.v2.x + row[3] * t.v3.x
      && MapPoint(t, xi).y == row[0] * t.v0.y + row[1] * t.v1.y + row[2] * t.v2.y + row[3] * t.v3.y
      && MapPoint(t, xi).z == row[0] * t.v0.z + row[1] * t.v1.z + row[2] * t.v2.z + row[3] * t.v3.z
  {
  }

  /** The edge vector from vertex 0, `J = -v0 + v`. */
  function Edge(v0: Vec3, v: Vec3): Vec3
  {
    Vec3(v.x - v0.x, v.y - v0.y, v.z - v0.z)
  }

  /** The six-term determinant of the columns J0, J1, J2. */
  function Det3(j0: Vec3, j1: Vec3, j2: Vec3): real
  {
    j0.x * j1.y * j2.z + j1.x * j2.y * j0.z + j2.x * j0.y * j1.z
    - j0.z * j1.y * j2.x - j1.z * j2.y * j0.x - j2.z * j0.y * j1.x
  }

  /** `det`: the determinant of the edge vectors times 1/6, the signed volume. */
  function SignedVolume(t: Tetrahedron): real
  {
    Det3(Edge(t.v0, t.v1), Edge(t.v0, t.v2), Edge(t.v0, t.v3)) * (1.0 / 6.0)
  }

  /** The reference tetrahedron has signed volume 1/6. */
  lemma ReferenceVolume()
    ensures SignedVolume(Reference) == 1.0 / 6.0
  {
  }

  /** The tetrahedron with vertices p and q exchanged. */
  function Swap(t: Tetrahedron, p: nat, q: nat): (s: Tetrahedron)
    requires p < q < 4
    ensures Vertex(s, p) == Vertex(t, q) && Vertex(s, q) == Vertex(t, p)
    ensures forall o :: 0 <= o < 4 && o != p && o != q ==> Vertex(s, o) == Vertex(t, o)
  {
    var w := seq(4, o requires 0 <= o < 4 => if o == p then Vertex(t, q) else if o == q then Vertex(t, p) else Vertex(t, o));
    Tetrahedron(w[0], w[1], w[2], w[3])
  }

  lemma SwapEdgeColumns(a: Vec3, b: Vec3, c: Vec3)
    ensures Det3(b, a, c) == -Det3(a, b, c)
    ensures Det3(a, c, b) == -Det3(a, b, c)
    ensures Det3(c, b, a) == -Det3(a, b, c)
  {
  }

  /** Exchanging vertex 0 with vertex p replaces the edges from vertex 0 by
      the edges from vertex p, which negates the determinant. */
  lemma SwapApex(v0: Vec3, v1: Vec3, v2: Vec3, v3: Vec3)
    ensures Det3(Edge(v1, v0), Edge(v1, v2), Edge(v1, v3)) == -Det3(Edge(v0, v1), Edge(v0, v2), Edge(v0, v3))
  {
  }

  /** Exchanging any two vertices negates the signed volume. */
  lemma SwapNegatesVolume(t: Tetrahedron, p: nat, q: nat)
    requires p < q < 4
    ensures SignedVolume(Swap(t, p, q)) == -SignedVolume(t)
  {
    var s := Swap(t, p, q);
    var d := Det3(Edge(t.v0, t.v1), Edge(t.v0, t.v2), Edge(t.v0, t.v3));
    var e := Det3(Edge(s.v0, s.v1), Edge(s.v0, s.v2), Edge(s.v0, s.v3));
    assert e == -d by {
      if p == 0 {
        if q == 1 {
          SwapApex(t.v0, t.v1, t.v2, t.v3);
        } else if q == 2 {
          SwapApex(t.v0, t.v2, t.v1, t.v3);
          SwapEdgeColumns(Edge(t.v2, t.v0), Edge(t.v2, t.v1), Edge(t.v2, t.v3));
          SwapEdgeColumns(Edge(t.v0, t.v1), Edge(t.v0, t.v2), Edge(t.v0, t.v3));
        } else {
          SwapApex(t.v0, t.v3, t.v2, t.v1);
          SwapEdgeColumns(Edge(t.v3, t.v1), Edge(t.v3, t.v2), Edge(t.v3, t.v0));
          SwapEdgeColumns(Edge(t.v0, t.v1), Edge(t.v0, t.v2), Edge(t.v0, t.v3));
        }
      } else {
        SwapEdgeColumns(Edge(t.v0, t.v1), Edge(t.v0, t.v2), Edge(t.v0, t.v3));
      }
    }
  }

  /** `f(x)`: the integrand at the mapped points. */
  function Values(f: Vec3 -> real, t: Tetrahedron, points: seq<Vec3>): (v: seq<real>)
    ensures |v| == |points|
    ensures forall i :: 0 <= i < |points| ==> v[i] == f(MapPoint(t, points[i]))
  {
    if points == [] then [] else [f(MapPoint(t, points[0]))] + Values(f, t, points[1..])
  }

  /** `weights * values * scale`, elementwise. */
  function Terms(weights: seq<real>, values: seq<real>, scale: real): (r: seq<real>)
    requires |weights| == |values|
    ensures |r| == |weights|
    ensures forall q :: 0 <= q < |r| ==> r[q] == weights[q] * values[q] * scale
  {
    if weights == [] then []
    else [weights[0] * values[0] * scale] + Terms(weights[1..], values[1..], scale)
  }

  /** `integrate(f, tetrahedron, scheme)`: the exact sum of
      `weights * f(x).T * abs(det)`. */
  function Integrate(f: Vec3 -> real, t: Tetrahedron, s: TetScheme): real
    requires WellFormed(s)
  {
    Sum(Terms(s.weights, Values(f, t, s.points), Abs(SignedVolume(t))))
  }

  lemma ConstantStep(w: real, c: real, d: real, rest: real)
    ensures w * c * d + c * d * rest == c * d * (w + rest)
  {
  }

  /** Terms whose values are all c sum to c times the scale times the weight
      total. */
  lemma {:induction false} SumConstantTerms(weights: seq<real>, values: seq<real>, c: real, d: real)
    requires |weights| == |values|
    requires forall i :: 0 <= i < |values| ==> values[i] == c
    ensures Sum(Terms(weights, values, d)) == c * d * Sum(weights)
  {
    if weights != [] {
      SumConstantTerms(weights[1..], values[1..], c, d);
      ConstantStep(weights[0], c, d, Sum(weights[1..]));
    }
  }

  /** A constant integrand c yields c times the absolute volume times the
      weight total; for a scheme whose weights sum to 1 that is c |det|. */
  lemma IntegrateConstant(f: Vec3 -> real, c: real, t: Tetrahedron, s: TetScheme)
    requires WellFormed(s)
    requires forall x :: f(x) == c
    ensures Integrate(f, t, s) == c * Abs(SignedVolume(t)) * Sum(s.weights)
    ensures Sum(s.weights) == 1.0 ==> Integrate(f, t, s) == c * Abs(SignedVolume(t))
  {
    SumConstantTerms(s.weights, Values(f, t, s.points), c, Abs(SignedVolume(t)));
  }

  lemma AddStep(w: real, a: real, b: real, d: real, ra: real, rb: real)
    ensures w * (a + b) * d + (ra + rb) == (w * a * d + ra) + (w * b * d + rb)
  {
  }

  /** The terms are additive in the values. */
  lemma {:induction false} SumTermsAdd(weights: seq<real>, a: seq<real>, b: seq<real>, sum: seq<real>, d: real)
    requires |weights| == |a| == |b| == |sum|
    requires forall i :: 0 <= i < |sum| ==> sum[i] == a[i] + b[i]
    ensures Sum(Terms(weights, sum, d)) == Sum(Terms(weights, a, d)) + Sum(Terms(weights, b, d))
  {
    if weights != [] {
      SumTermsAdd(weights[1..], a[1..], b[1..], sum[1..], d);
      AddStep(weights[0], a[0], b[0], d, Sum(Terms(weights[1..], a[1..], d)), Sum(Terms(weights[1..], b[1..], d)));
    }
  }

  /** `integrate` is linear in the integrand. */
  lemma IntegrateAdd(f: Vec3 -> real, g: Vec3 -> real, t: Tetrahedron, s: TetScheme)
    requires WellFormed(s)
    ensures Integrate(x => f(x) + g(x), t, s) == Integrate(f, t, s) + Integrate(g, t, s)
  {
    var h: Vec3 -> real := x => f(x) + g(x);
    SumTermsAdd(s.weights, Values(f, t, s.points), Values(g, t, s.points), Values(h, t, s.points), Abs(SignedVolume(t)));
  }

  /** The result does not depend on the orientation: exchanging two vertices
      leaves the volume factor |det| unchanged. */
  lemma SwapKeepsVolumeFactor(t: Tetrahedron, p: nat, q: nat)
    requires p < q < 4
    ensures Abs(SignedVolume(Swap(t, p, q))) == Abs(SignedVolume(t))
  {
    SwapNegatesVolume(t, p, q);
  }
}
