/**
 * Planar polygon area by the shoelace formula, over exact reals.
 * Coordinates are taken as raw (x, y) units: no map projection is applied.
 */
module Geometry {

  /** One vertex `[x, y]` of a ring. */
  datatype Vertex = Vertex(x: real, y: real)

  function Abs(v: real): (r: real)
    ensures r >= 0.0 && (r == v || r == -v)
  {
    if v < 0.0 then -v else v
  }

  /** The cross product of two position vectors, one edge's contribution to the sum. */
  function Cross(a: Vertex, b: Vertex): real
  {
    a.x * b.y - b.x * a.y
  }

  /** The term of vertex i: its edge to the next vertex, the last one wrapping to the first. */
  function Term(ring: seq<Vertex>, i: nat): real
    requires i < |ring|
  {
    Cross(ring[i], ring[(i + 1) % |ring|])
  }

  /** The sum of the terms of vertices 0 .. k-1. */
  function SumUpTo(ring: seq<Vertex>, k: nat): real
    requires k <= |ring|
  {
    if k == 0 then 0.0 else SumUpTo(ring, k - 1) + Term(ring, k - 1)
  }

  /** The shoelace sum over every edge of the closed ring. */
  function Shoelace(ring: seq<Vertex>): real
  {
    SumUpTo(ring, |ring|)
  }

  /** The sum over the edges of the open path, without the closing edge. */
  function PathSum(s: seq<Vertex>): real
  {
    if |s| < 2 then 0.0 else Cross(s[0], s[1]) + PathSum(s[1..])
  }

  /** The area as the source defines it: 0 below three vertices, else half the absolute sum. */
  function Area(ring: seq<Vertex>): (r: real)
    ensures r >= 0.0
    ensures |ring| < 3 ==> r == 0.0
  {
    if |ring| < 3 then 0.0 else Abs(Shoelace(ring) / 2.0)
  }

  /** The loop of `calculateArea`: accumulate the terms, then halve the absolute value. */
  method CalculateArea(ring: seq<Vertex>) returns (area: real)
    ensures area == Area(ring)
    ensures area >= 0.0
  {
    if |ring| < 3 {
      return 0.0;
    }
    var sum := 0.0;
    var n := |ring|;
    for i := 0 to n
      invariant sum == SumUpTo(ring, i)
    {
      var j := (i + 1) % n;
      sum := sum + ring[i].x * ring[j].y;
      sum := sum - ring[j].x * ring[i].y;
    }
    area := Abs(sum / 2.0);
  }

  // ---------------------------------------------------------------------------
  // The closed sum is the open path plus the closing edge

  lemma {:induction false} PathSumSnoc(s: seq<Vertex>, v: Vertex)
    requires |s| >= 1
    ensures PathSum(s + [v]) == PathSum(s) + Cross(s[|s| - 1], v)
  {
    if |s| >= 2 {
      assert (s + [v])[1..] == s[1..] + [v];
      PathSumSnoc(s[1..], v);
    }
  }

  /** Before the last vertex, the running sum is the open path through vertices 0 .. k. */
  lemma {:induction false} SumUpToIsPath(ring: seq<Vertex>, k: nat)
    requires k < |ring|
    ensures SumUpTo(ring, k) == PathSum(ring[..k + 1])
  {
    if k > 0 {
      SumUpToIsPath(ring, k - 1);
      var prefix := ring[..k];
      assert ring[..k + 1] == prefix + [ring[k]];
      PathSumSnoc(prefix, ring[k]);
      assert prefix[|prefix| - 1] == ring[k - 1];
      assert Term(ring, k - 1) == Cross(ring[k - 1], ring[k]) by {
        assert (k - 1 + 1) % |ring| == k;
      }
    } else {
      assert ring[..1] == [ring[0]];
    }
  }

  lemma ShoelaceIsClosedPath(ring: seq<Vertex>)
    requires |ring| >= 1
    ensures Shoelace(ring) == PathSum(ring) + Cross(ring[|ring| - 1], ring[0])
  {
    var n := |ring|;
    SumUpToIsPath(ring, n - 1);
    assert ring[..n] == ring;
    assert (n - 1 + 1) % n == 0;
  }

  /** Rings of fewer than three vertices have a zero sum anyway, so the early return agrees with the formula. */
  lemma ShortRingSumIsZero(ring: seq<Vertex>)
    requires |ring| < 3
    ensures Shoelace(ring) == 0.0
  {
    if |ring| >= 1 {
      ShoelaceIsClosedPath(ring);
    }
  }

  /** Hence the area is half the absolute shoelace sum for every ring. */
  lemma AreaIsHalfAbsoluteSum(ring: seq<Vertex>)
    ensures Area(ring) == Abs(Shoelace(ring)) / 2.0
  {
    if |ring| < 3 {
      ShortRingSumIsZero(ring);
    }
  }

  // ---------------------------------------------------------------------------
  // Rotation

  function Rotated(ring: seq<Vertex>, k: nat): seq<Vertex>
    requires k <= |ring|
  {
    ring[k..] + ring[..k]
  }

  /** Moving the first vertex to the end does not change the sum. */
  lemma RotateOnce(ring: seq<Vertex>)
    requires |ring| >= 1
    ensures Shoelace(ring[1..] + [ring[0]]) == Shoelace(ring)
  {
    var n, rest := |ring|, ring[1..];
    var r := rest + [ring[0]];
    ShoelaceIsClosedPath(ring);
    ShoelaceIsClosedPath(r);
    if n >= 2 {
      PathSumSnoc(rest, ring[0]);
      assert r[|r| - 1] == ring[0] && r[0] == ring[1];
    }
  }

  /** Starting the ring at any vertex gives the same sum. */
  lemma {:induction false} RotationKeepsSum(ring: seq<Vertex>, k: nat)
    requires k <= |ring|
    ensures Shoelace(Rotated(ring, k)) == Shoelace(ring)
  {
    if k > 0 {
      RotationKeepsSum(ring, k - 1);
      var prev := Rotated(ring, k - 1);
      RotateOnce(prev);
      assert prev[1..] + [prev[0]] == Rotated(ring, k);
    } else {
      assert Rotated(ring, 0) == ring;
    }
  }

  lemma RotationKeepsArea(ring: seq<Vertex>, k: nat)
    requires k <= |ring|
    ensures Area(Rotated(ring, k)) == Area(ring)
  {
    RotationKeepsSum(ring, k);
  }

  // ---------------------------------------------------------------------------
  // Reversal

  function Reversed(s: seq<Vertex>): (r: seq<Vertex>)
    ensures |r| == |s|
  {
    if s == [] then [] else Reversed(s[1..]) + [s[0]]
  }

  lemma {:induction false} ReversedEnds(s: seq<Vertex>)
    requires |s| >= 1
    ensures Reversed(s)[0] == s[|s| - 1] && Reversed(s)[|s| - 1] == s[0]
  {
    if |s| >= 2 {
      ReversedEnds(s[1..]);
    }
  }

  lemma {:induction false} ReversePathSum(s: seq<Vertex>)
    ensures PathSum(Reversed(s)) == -PathSum(s)
  {
    if |s| >= 2 {
      ReversePathSum(s[1..]);
      ReversedEnds(s[1..]);
      PathSumSnoc(Reversed(s[1..]), s[0]);
    }
  }

  /** Walking the ring the other way negates the sum. */
  lemma ReverseNegatesSum(ring: seq<Vertex>)
    ensures Shoelace(Reversed(ring)) == -Shoelace(ring)
  {
    if |ring| >= 1 {
      ShoelaceIsClosedPath(ring);
      ShoelaceIsClosedPath(Reversed(ring));
      ReversePathSum(ring);
      ReversedEnds(ring);
    }
  }

  /** ... so the area does not depend on the orientation. */
  lemma ReverseKeepsArea(ring: seq<Vertex>)
    ensures Area(Reversed(ring)) == Area(ring)
  {
    ReverseNegatesSum(ring);
  }

  // ---------------------------------------------------------------------------
  // A worked value

  /** The shoelace sum of the right triangle with legs 4 and 3 is twice its area. */
  lemma TriangleSum()
    ensures Shoelace([Vertex(0.0, 0.0), Vertex(4.0, 0.0), Vertex(0.0, 3.0)]) == 12.0
  {
    var a, b, c := Vertex(0.0, 0.0), Vertex(4.0, 0.0), Vertex(0.0, 3.0);
    var triangle := [a, b, c];
    ShoelaceIsClosedPath(triangle);
    assert PathSum([c]) == 0.0;
    assert PathSum([b, c]) == Cross(b, c) by { assert [b, c][1..] == [c]; }
    assert PathSum(triangle) == Cross(a, b) + Cross(b, c) by { assert triangle[1..] == [b, c]; }
    assert Cross(a, b) == 0.0 && Cross(b, c) == 12.0 && Cross(c, a) == 0.0;
  }

  /** The right triangle with legs 4 and 3 has area 6. */
  method TriangleArea() returns (area: real)
    ensures area == 6.0
  {
    TriangleSum();
    area := CalculateArea([Vertex(0.0, 0.0), Vertex(4.0, 0.0), Vertex(0.0, 3.0)]);
  }
}
