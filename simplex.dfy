/** Points, barycentric rows and schemes on the reference tetrahedron with
    vertices (0,0,0), (1,0,0), (0,1,0), (0,0,1). */
module Simplex {
  import opened Basics

  datatype Vec3 = Vec3(x: real, y: real, z: real)

  /** A barycentric row: four coordinates that sum to 1. */
  predicate IsBary(row: seq<real>)
  {
    |row| == 4 && row[0] + row[1] + row[2] + row[3] == 1.0
  }

  predicate AllBary(rows: seq<seq<real>>)
  {
    forall i :: 0 <= i < |rows| ==> IsBary(rows[i])
  }

  /** What every scheme class exposes: `weights`, `points` and `degree`. */
  datatype TetScheme = TetScheme(weights: seq<real>, points: seq<Vec3>, degree: nat)

  /** A scheme whose weights and points are parallel arrays. */
  predicate WellFormed(s: TetScheme)
  {
    |s.weights| == |s.points|
  }

  /** `bary[:, 1:]` for one row: the first barycentric coordinate is dropped. */
  function DropFirst(row: seq<real>): Vec3
    requires |row| == 4
  {
    Vec3(row[1], row[2], row[3])
  }

  /** The barycentric row of a reference point; the dropped coordinate is
      1 - x - y - z, as `integrate` reconstructs it. */
  function Lift(p: Vec3): (row: seq<real>)
    ensures IsBary(row)
  {
    [1.0 - p.x - p.y - p.z, p.x, p.y, p.z]
  }

  /** Dropping the first coordinate loses nothing: Lift restores the row. */
  lemma LiftDropFirst(row: seq<real>)
    requires IsBary(row)
    ensures Lift(DropFirst(row)) == row
  {
  }

  /** `bary[:, 1:]` for a whole table. */
  function DropFirstColumn(rows: seq<seq<real>>): (points: seq<Vec3>)
    requires AllBary(rows)
    ensures |points| == |rows|
    ensures forall i :: 0 <= i < |rows| ==> Lift(points[i]) == rows[i]
  {
    if rows == [] then []
    else
      LiftDropFirst(rows[0]);
      [DropFirst(rows[0])] + DropFirstColumn(rows[1..])
  }

  lemma AllBaryAppend(a: seq<seq<real>>, b: seq<seq<real>>)
    requires AllBary(a) && AllBary(b)
    ensures AllBary(a + b)
  {
    forall i | |a| <= i < |a + b|
      ensures IsBary((a + b)[i])
    {
      assert (a + b)[i] == b[i - |a|];
    }
  }
}
