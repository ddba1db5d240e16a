/**
 * Polygon triangulation by ear clipping, the shoelace area and the
 * point-in-triangle sign test (geometry/triangulation.py). The model follows
 * the path taken when the `mapbox_earcut` library is not installed.
 */
module Triangulation {
  import opened Common

  /** A 2-D point `(x, z)` or `(lon, lat)`. */
  type Point2 = (real, real)

  /** Three indices into the (possibly reversed) point list. */
  type Triangle = (int, int, int)

  /** One shoelace term: the cross product of vertex `i` and its cyclic successor. */
  function Term(p: seq<Point2>, i: nat): real
    requires i < |p|
  {
    var q := p[(i + 1) % |p|];
    p[i].0 * q.1 - q.0 * p[i].1
  }

  /** The sum of the first `k` shoelace terms, added left to right. */
  function PartialArea(p: seq<Point2>, k: nat): real
    requires k <= |p|
  {
    if k == 0 then 0.0 else PartialArea(p, k - 1) + Term(p, k - 1)
  }

  /** `_polygon_signed_area`: twice the signed area; positive for counter-clockwise order. */
  function SignedArea(p: seq<Point2>): (a: real)
    ensures |p| < 3 ==> a == 0.0
  {
    assert |p| < 3 ==> PartialArea(p, |p|) == 0.0 by {
      if |p| == 2 {
        assert PartialArea(p, 1) == Term(p, 0);
        assert PartialArea(p, 2) == Term(p, 0) + Term(p, 1);
      } else if |p| == 1 {
        assert PartialArea(p, 1) == Term(p, 0);
      }
    }
    PartialArea(p, |p|)
  }

  function Reverse<T>(s: seq<T>): (r: seq<T>)
    ensures |r| == |s| && forall i :: 0 <= i < |s| ==> r[i] == s[|s| - 1 - i]
  {
    seq(|s|, i requires 0 <= i < |s| => s[|s| - 1 - i])
  }

  /** Term `k` of the reversed list is minus term `n-2-k` of the original. */
  lemma ReverseTerm(p: seq<Point2>, k: nat)
    requires k + 1 < |p|
    ensures Term(Reverse(p), k) == -Term(p, |p| - 2 - k)
  {
    var n := |p|;
    var r := Reverse(p);
    assert (k + 1) % n == k + 1;
    assert (n - 2 - k + 1) % n == n - 1 - k;
    assert r[k] == p[n - 1 - k] && r[k + 1] == p[n - 2 - k];
  }

  /** The reversed list's first `k` terms cancel the original's terms `n-1-k .. n-2`. */
  lemma {:induction false} ReversedPartialArea(p: seq<Point2>, k: nat)
    requires |p| >= 1 && k <= |p| - 1
    ensures PartialArea(Reverse(p), k) == -(PartialArea(p, |p| - 1) - PartialArea(p, |p| - 1 - k))
  {
    if k > 0 {
      ReversedPartialArea(p, k - 1);
      ReverseTerm(p, k - 1);
    }
  }

  /** Reversing the vertex order changes the sign of the signed area. */
  lemma ReverseNegatesArea(p: seq<Point2>)
    ensures SignedArea(Reverse(p)) == -SignedArea(p)
  {
    var n := |p|;
    if n > 0 {
      var r := Reverse(p);
      ReversedPartialArea(p, n - 1);
      assert Term(r, n - 1) == -Term(p, n - 1) by {
        assert r[n - 1] == p[0] && r[0] == p[n - 1];
        assert (n - 1 + 1) % n == 0;
      }
    }
  }

  /** The point list ear clipping works on: reversed when the signed area is negative. */
  function Oriented(v: seq<Point2>): (pts: seq<Point2>)
    ensures |pts| == |v|
    ensures SignedArea(v) < 0.0 ==> forall i :: 0 <= i < |v| ==> pts[i] == v[|v| - 1 - i]
    ensures SignedArea(v) >= 0.0 ==> pts == v
    ensures SignedArea(pts) >= 0.0
  {
    ReverseNegatesArea(v);
    if SignedArea(v) < 0.0 then Reverse(v) else v
  }

  /** The sign test `sign(p1, p2, p3)`: which side of the line p2-p3 the point p1 lies on. */
  function Sign(p1: Point2, p2: Point2, p3: Point2): real
  {
    (p1.0 - p3.0) * (p2.1 - p3.1) - (p2.0 - p3.0) * (p1.1 - p3.1)
  }

  /**
   * `_point_in_triangle`: inside unless the three signs are mixed, so points
   * on an edge or at a vertex count as inside.
   */
  function PointInTriangle(p: Point2, a: Point2, b: Point2, c: Point2): (r: bool)
    ensures p == a || p == b || p == c ==> r
  {
    var d1 := Sign(p, a, b);
    var d2 := Sign(p, b, c);
    var d3 := Sign(p, c, a);
    var hasNeg := d1 < 0.0 || d2 < 0.0 || d3 < 0.0;
    var hasPos := d1 > 0.0 || d2 > 0.0 || d3 > 0.0;
    !(hasNeg && hasPos)
  }

  /** The sign test is affine in its first point. */
  lemma SignAffine(a: Point2, b: Point2, q: Point2, r: Point2, t: real)
    ensures Sign((a.0 + t * (b.0 - a.0), a.1 + t * (b.1 - a.1)), q, r) ==
            (1.0 - t) * Sign(a, q, r) + t * Sign(b, q, r)
  {
  }

  /** A point on the edge from `a` to `b` counts as inside the triangle. */
  lemma EdgePointInside(a: Point2, b: Point2, c: Point2, t: real)
    requires 0.0 <= t <= 1.0
    ensures PointInTriangle((a.0 + t * (b.0 - a.0), a.1 + t * (b.1 - a.1)), a, b, c)
  {
    var p := (a.0 + t * (b.0 - a.0), a.1 + t * (b.1 - a.1));
    var s := Sign(a, b, c);
    SignAffine(a, b, a, b, t);
    SignAffine(a, b, b, c, t);
    SignAffine(a, b, c, a, t);
    assert Sign(a, a, b) == 0.0 && Sign(b, a, b) == 0.0;
    assert Sign(b, b, c) == 0.0 && Sign(a, c, a) == 0.0;
    assert Sign(b, c, a) == s;
    var d2 := (1.0 - t) * s;
    var d3 := t * s;
    assert Sign(p, a, b) == 0.0;
    assert Sign(p, b, c) == d2 && Sign(p, c, a) == d3;
    if s > 0.0 {
      assert d2 >= 0.0 && d3 >= 0.0;
    } else if s < 0.0 {
      assert d2 <= 0.0 && d3 <= 0.0;
    }
  }

  /** A triangle of three distinct indices into a list of `n` points. */
  predicate TriangleOk(t: Triangle, n: nat)
  {
    0 <= t.0 < n && 0 <= t.1 < n && 0 <= t.2 < n && t.0 != t.1 && t.1 != t.2 && t.0 != t.2
  }

  /** No two triangles share their middle (clipped) vertex. */
  predicate DistinctMiddles(ts: seq<Triangle>)
  {
    forall a, b :: 0 <= a < b < |ts| ==> ts[a].1 != ts[b].1
  }

  /** Indices of active vertices: distinct and within the point list. */
  predicate ActiveOk(indices: seq<int>, n: nat)
  {
    Distinct(indices) && forall k :: 0 <= k < |indices| ==> 0 <= indices[k] < n
  }

  /** The ear test's inner loop: no other active vertex lies in the triangle a-b-c. */
  method NoVertexInside(pts: seq<Point2>, indices: seq<int>, prevI: int, currI: int, nextI: int)
    returns (isEar: bool)
    requires ActiveOk(indices, |pts|)
    requires 0 <= prevI < |pts| && 0 <= currI < |pts| && 0 <= nextI < |pts|
    ensures isEar <==> forall k :: 0 <= k < |indices| && indices[k] != prevI && indices[k] != currI && indices[k] != nextI ==>
                         !PointInTriangle(pts[indices[k]], pts[prevI], pts[currI], pts[nextI])
  {
    var a, b, c := pts[prevI], pts[currI], pts[nextI];
    isEar := true;
    var k := 0;
    while k < |indices|
      invariant 0 <= k <= |indices|
      invariant forall m :: 0 <= m < k && indices[m] != prevI && indices[m] != currI && indices[m] != nextI ==>
                  !PointInTriangle(pts[indices[m]], a, b, c)
    {
      var j := indices[k];
      if j != prevI && j != currI && j != nextI {
        if PointInTriangle(pts[j], a, b, c) {
          isEar := false;
          return;
        }
      }
      k := k + 1;
    }
  }

  /** Removing the entry at position `i` keeps the rest active and distinct from it. */
  lemma PopKeeps(indices: seq<int>, n: nat, i: nat)
    requires ActiveOk(indices, n) && i < |indices|
    ensures ActiveOk(indices[..i] + indices[i + 1..], n)
    ensures indices[i] !in indices[..i] + indices[i + 1..]
    ensures forall x :: x in indices[..i] + indices[i + 1..] ==> x in indices
  {
    var rest := indices[..i] + indices[i + 1..];
    forall a, b | 0 <= a < b < |rest| ensures rest[a] != rest[b] {
      var a' := if a < i then a else a + 1;
      var b' := if b < i then b else b + 1;
      assert rest[a] == indices[a'] && rest[b] == indices[b'];
    }
    forall k | 0 <= k < |rest| ensures rest[k] != indices[i] && rest[k] in indices {
      var k' := if k < i then k else k + 1;
      assert rest[k] == indices[k'];
    }
  }

  /** The ear at position `i`: its predecessor, itself and its successor in cyclic order. */
  lemma EarTriangleOk(indices: seq<int>, n: nat, i: nat)
    requires ActiveOk(indices, n) && |indices| > 3 && i < |indices|
    ensures TriangleOk((indices[(i - 1) % |indices|], indices[i], indices[(i + 1) % |indices|]), n)
  {
    var len := |indices|;
    if i == 0 {
      assert (i - 1) % len == len - 1;
    } else {
      assert (i - 1) % len == i - 1;
    }
    if i == len - 1 {
      assert (i + 1) % len == 0;
    } else {
      assert (i + 1) % len == i + 1;
    }
  }

  /** The corner triangle at position `i` of the active list: predecessor, vertex, successor in cyclic order. */
  function Corner(indices: seq<int>, i: nat): Triangle
    requires i < |indices|
  {
    (indices[(i - 1) % |indices|], indices[i], indices[(i + 1) % |indices|])
  }

  /** The convexity test: the corner turns counter-clockwise. */
  function Cross(a: Point2, b: Point2, c: Point2): real
  {
    (b.0 - a.0) * (c.1 - a.1) - (b.1 - a.1) * (c.0 - a.0)
  }

  /** The corner at position `i` is an ear: convex, and no other active vertex lies in it. */
  predicate IsEar(pts: seq<Point2>, indices: seq<int>, i: nat)
    requires ActiveOk(indices, |pts|) && i < |indices|
  {
    var t := Corner(indices, i);
    Cross(pts[t.0], pts[t.1], pts[t.2]) > 0.0 &&
    forall k :: 0 <= k < |indices| && indices[k] != t.0 && indices[k] != t.1 && indices[k] != t.2 ==>
      !PointInTriangle(pts[indices[k]], pts[t.0], pts[t.1], pts[t.2])
  }

  /** The `for i in range(len(indices))` scan of one ear-clipping round: the first ear, if there is one. */
  method FindEar(pts: seq<Point2>, indices: seq<int>) returns (found: bool, i: nat)
    requires ActiveOk(indices, |pts|) && |indices| >= 1
    ensures found ==> i < |indices| && IsEar(pts, indices, i) && forall j :: 0 <= j < i ==> !IsEar(pts, indices, j)
    ensures !found ==> forall j :: 0 <= j < |indices| ==> !IsEar(pts, indices, j)
  {
    i := 0;
    while i < |indices|
      invariant 0 <= i <= |indices|
      invariant forall j :: 0 <= j < i ==> !IsEar(pts, indices, j)
    {
      var prevI := indices[(i - 1) % |indices|];
      var currI := indices[i];
      var nextI := indices[(i + 1) % |indices|];
      var a, b, c := pts[prevI], pts[currI], pts[nextI];
      var cross := (b.0 - a.0) * (c.1 - a.1) - (b.1 - a.1) * (c.0 - a.0);
      if cross <= 0.0 {
        i := i + 1;
        continue;
      }
      var isEar := NoVertexInside(pts, indices, prevI, currI, nextI);
      if isEar {
        return true, i;
      }
      i := i + 1;
    }
    return false, 0;
  }

  /** The first position at or after `j` whose corner is an ear, if there is one. */
  function FirstEarFrom(pts: seq<Point2>, indices: seq<int>, j: nat): (r: Option<nat>)
    requires ActiveOk(indices, |pts|) && j <= |indices|
    ensures r.Some? ==> j <= r.value < |indices| && IsEar(pts, indices, r.value) &&
                        forall k :: j <= k < r.value ==> !IsEar(pts, indices, k)
    ensures r.None? ==> forall k :: j <= k < |indices| ==> !IsEar(pts, indices, k)
    decreases |indices| - j
  {
    if j == |indices| then None
    else if IsEar(pts, indices, j) then Some(j)
    else FirstEarFrom(pts, indices, j + 1)
  }

  /** The fan `(i0, ik, ik+1)` for `k` from 1 to `len - 2` over the active vertices. */
  function FanOf(indices: seq<int>): (r: seq<Triangle>)
    requires |indices| >= 2
    ensures |r| == |indices| - 2
    ensures forall k :: 0 <= k < |r| ==> r[k] == (indices[0], indices[k + 1], indices[k + 2])
  {
    seq(|indices| - 2, k requires 0 <= k < |indices| - 2 => (indices[0], indices[k + 1], indices[k + 2]))
  }

  /**
   * What the ear-clipping loop appends from a given active list on: the first
   * ear and then the triangles of the list without its middle vertex; the fan
   * when no corner is an ear; the remaining triangle once three vertices are left.
   */
  function ClipFrom(pts: seq<Point2>, indices: seq<int>): seq<Triangle>
    requires ActiveOk(indices, |pts|) && |indices| >= 3
    decreases |indices|
  {
    if |indices| == 3 then [(indices[0], indices[1], indices[2])]
    else
      match FirstEarFrom(pts, indices, 0)
      case None => FanOf(indices)
      case Some(i) =>
        PopKeeps(indices, |pts|, i);
        [Corner(indices, i)] + ClipFrom(pts, indices[..i] + indices[i + 1..])
  }

  /** `list(range(n))`: the initial active list. */
  function AllIndices(n: nat): (r: seq<int>)
    ensures |r| == n && forall k :: 0 <= k < n ==> r[k] == k
  {
    seq(n, i requires 0 <= i < n => i)
  }

  /** The triangles of ear clipping on points already in counter-clockwise order. */
  function EarClipping(pts: seq<Point2>): seq<Triangle>
    requires |pts| >= 3
  {
    ClipFrom(pts, AllIndices(|pts|))
  }

  /** The shape `ClipFrom` promises: `len - 2` valid triangles whose middles are distinct active vertices. */
  predicate ClipShape(r: seq<Triangle>, indices: seq<int>, n: nat)
  {
    |r| == |indices| - 2 &&
    (forall k :: 0 <= k < |r| ==> TriangleOk(r[k], n) && r[k].1 in indices) &&
    DistinctMiddles(r)
  }

  /** The fan over distinct active vertices has that shape. */
  lemma FanShape(indices: seq<int>, n: nat)
    requires ActiveOk(indices, n) && |indices| >= 3
    ensures ClipShape(FanOf(indices), indices, n)
  {
    var r := FanOf(indices);
    forall a, b | 0 <= a < b < |r| ensures r[a].1 != r[b].1 {
      assert r[a].1 == indices[a + 1] && r[b].1 == indices[b + 1];
    }
  }

  /** An ear in front of the triangles of the remaining list keeps that shape. */
  lemma EarShape(indices: seq<int>, n: nat, i: nat, tail: seq<Triangle>)
    requires ActiveOk(indices, n) && |indices| > 3 && i < |indices|
    requires ClipShape(tail, indices[..i] + indices[i + 1..], n)
    ensures ClipShape([Corner(indices, i)] + tail, indices, n)
  {
    var rest := indices[..i] + indices[i + 1..];
    var r := [Corner(indices, i)] + tail;
    PopKeeps(indices, n, i);
    EarTriangleOk(indices, n, i);
    forall k | 0 <= k < |r| ensures TriangleOk(r[k], n) && r[k].1 in indices {
      if k > 0 {
        assert r[k] == tail[k - 1];
      }
    }
    forall a, b | 0 <= a < b < |r| ensures r[a].1 != r[b].1 {
      assert r[b] == tail[b - 1];
      if a > 0 {
        assert r[a] == tail[a - 1];
      } else {
        assert r[b].1 in rest;
      }
    }
  }

  /**
   * Clipping from an active list gives `len - 2` triangles of distinct
   * in-range indices whose middle vertices are distinct active vertices.
   */
  lemma {:induction false} ClipFromShape(pts: seq<Point2>, indices: seq<int>)
    requires ActiveOk(indices, |pts|) && |indices| >= 3
    ensures ClipShape(ClipFrom(pts, indices), indices, |pts|)
    decreases |indices|
  {
    if |indices| == 3 {
      assert ClipFrom(pts, indices) == [(indices[0], indices[1], indices[2])];
    } else {
      match FirstEarFrom(pts, indices, 0)
      case None =>
        FanShape(indices, |pts|);
      case Some(i) =>
        var rest := indices[..i] + indices[i + 1..];
        PopKeeps(indices, |pts|, i);
        ClipFromShape(pts, rest);
        EarShape(indices, |pts|, i, ClipFrom(pts, rest));
    }
  }

  /** The ear-clipping triangulation has `n - 2` valid triangles with distinct middle vertices. */
  lemma EarClippingShape(pts: seq<Point2>)
    requires |pts| >= 3
    ensures |EarClipping(pts)| == |pts| - 2
    ensures forall k :: 0 <= k < |EarClipping(pts)| ==> TriangleOk(EarClipping(pts)[k], |pts|)
    ensures DistinctMiddles(EarClipping(pts))
  {
    var all := AllIndices(|pts|);
    assert ActiveOk(all, |pts|);
    ClipFromShape(pts, all);
    assert ClipShape(EarClipping(pts), all, |pts|);
  }

  /**
   * The ear-clipping loop of `triangulate_polygon` on points already in
   * counter-clockwise order: it appends the ears `FindEar` picks, the fan when
   * none is found, and the last triangle.
   */
  method EarClip(pts: seq<Point2>) returns (triangles: seq<Triangle>)
    requires |pts| >= 3
    ensures triangles == EarClipping(pts)
  {
    var n := |pts|;
    var indices := AllIndices(n);
    triangles := [];
    while |indices| > 3
      invariant 3 <= |indices| && ActiveOk(indices, n)
      invariant triangles + ClipFrom(pts, indices) == EarClipping(pts)
      decreases |indices|
    {
      var earFound, i := FindEar(pts, indices);
      if earFound {
        var t := Corner(indices, i);
        var rest := indices[..i] + indices[i + 1..];
        PopKeeps(indices, n, i);
        assert ClipFrom(pts, indices) == [t] + ClipFrom(pts, rest);
        triangles := triangles + [t];
        indices := rest;
      } else {
        triangles := Fan(triangles, indices);
        return;
      }
    }
    triangles := triangles + [(indices[0], indices[1], indices[2])];
  }

  /** The fan fallback when no ear is found: `(i0, ik, ik+1)` for every inner `k`, after the ears so far. */
  method Fan(ears: seq<Triangle>, indices: seq<int>) returns (triangles: seq<Triangle>)
    requires |indices| >= 3
    ensures triangles == ears + FanOf(indices)
  {
    triangles := ears;
    var k := 1;
    while k < |indices| - 1
      invariant 1 <= k <= |indices| - 1
      invariant triangles == ears + FanOf(indices)[..k - 1]
    {
      assert FanOf(indices)[..k] == FanOf(indices)[..k - 1] + [(indices[0], indices[k], indices[k + 1])];
      triangles := triangles + [(indices[0], indices[k], indices[k + 1])];
      k := k + 1;
    }
    assert FanOf(indices)[..k - 1] == FanOf(indices);
  }

  /**
   * `triangulate_polygon` without the earcut library: no triangles for fewer
   * than three vertices, otherwise ear clipping on `Oriented(v)`, so an index
   * `i` denotes `v[n-1-i]` when the signed area is negative.
   */
  function Triangles(v: seq<Point2>): seq<Triangle>
  {
    if |v| < 3 then [] else EarClipping(Oriented(v))
  }

  /**
   * The same triangles for the reversed vertex list, read back through the
   * reversal: on a clockwise polygon, index `i` names `v[n-1-i]`.
   */
  lemma TrianglesOfClockwise(v: seq<Point2>)
    requires |v| >= 3 && SignedArea(v) < 0.0
    ensures Triangles(v) == EarClipping(Reverse(v))
  {
    assert Oriented(v) == Reverse(v);
  }

  /** The implementation of `triangulate_polygon`: reverse a clockwise list, then clip ears. */
  method Triangulate(v: seq<Point2>) returns (triangles: seq<Triangle>)
    ensures triangles == Triangles(v)
    ensures |v| < 3 ==> triangles == []
    ensures |v| >= 3 ==> |triangles| == |v| - 2
    ensures forall k :: 0 <= k < |triangles| ==> TriangleOk(triangles[k], |v|)
    ensures DistinctMiddles(triangles)
  {
    var n := |v|;
    if n < 3 {
      return [];
    }
    var pts := v;
    var area := SignedArea(pts);
    if area < 0.0 {
      pts := Reverse(pts);
    }
    assert pts == Oriented(v);
    triangles := EarClip(pts);
    EarClippingShape(pts);
  }

  /** `triangulate_polygon_with_holes` without earcut: the holes are ignored. */
  method TriangulateWithHoles(outer: seq<Point2>, holes: seq<seq<Point2>>) returns (triangles: seq<Triangle>)
    ensures triangles == Triangles(outer)
    ensures |outer| < 3 ==> triangles == []
    ensures |outer| >= 3 ==> |triangles| == |outer| - 2
    ensures forall k :: 0 <= k < |triangles| ==> TriangleOk(triangles[k], |outer|)
    ensures DistinctMiddles(triangles)
  {
    triangles := Triangulate(outer);
  }

  /** Half the absolute shoelace sum: the enclosed area. */
  function Area(polygon: seq<Point2>): real
  {
    (if SignedArea(polygon) < 0.0 then -SignedArea(polygon) else SignedArea(polygon)) / 2.0
  }

  /** `polygon_area`: the shoelace sum accumulated term by term, made non-negative and halved. */
  method PolygonArea(polygon: seq<Point2>) returns (area: real)
    ensures area == Area(polygon)
    ensures area >= 0.0
  {
    var n := |polygon|;
    var sum := 0.0;
    var i := 0;
    while i < n
      invariant 0 <= i <= n
      invariant sum == PartialArea(polygon, i)
    {
      var j := (i + 1) % n;
      sum := sum + polygon[i].0 * polygon[j].1;
      sum := sum - polygon[j].0 * polygon[i].1;
      i := i + 1;
    }
    area := (if sum < 0.0 then -sum else sum) / 2.0;
  }

  /** The area does not depend on the orientation of the vertex list. */
  lemma AreaOfReverse(p: seq<Point2>)
    ensures var a := SignedArea(p); var r := SignedArea(Reverse(p));
      (if r < 0.0 then -r else r) == (if a < 0.0 then -a else a)
  {
    ReverseNegatesArea(p);
  }
}
