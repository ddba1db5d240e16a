/** Ray-casting point-in-polygon test on the x/z plane (data/point_in_polygon.py). */
module PointInPolygon {
  import opened Common
  import opened BundeslandGeometry

  /** The vertex before `i` on the closed ring: `j` starts at `n - 1` and then trails `i`. */
  function Prev(n: nat, i: nat): (j: nat)
    requires i < n
    ensures j < n
  {
    if i == 0 then n - 1 else i - 1
  }

  /** One endpoint of the edge lies above the horizontal line through `z` and the other does not. */
  predicate Straddles(vi: Vertex3, vj: Vertex3, z: real)
  {
    (vi.2 > z) != (vj.2 > z)
  }

  /** The x where the edge from `vi` to `vj` meets the line through `z`. */
  function CrossingX(vi: Vertex3, vj: Vertex3, z: real): real
    requires vi.2 != vj.2
  {
    (vj.0 - vi.0) * (z - vi.2) / (vj.2 - vi.2) + vi.0
  }

  /**
   * The toggle condition: the edge straddles the line and the point lies
   * strictly left of the crossing. The division is guarded: a straddling
   * edge has two different z values.
   */
  predicate Crosses(vi: Vertex3, vj: Vertex3, x: real, z: real)
  {
    Straddles(vi, vj, z) && x < CrossingX(vi, vj, z)
  }

  /** Number of toggling edges among the edges `(Prev(i), i)` with `i < k`. */
  function Crossings(vs: seq<Vertex3>, x: real, z: real, k: nat): nat
    requires k <= |vs|
  {
    if k == 0 then 0
    else Crossings(vs, x, z, k - 1) + (if Crosses(vs[k - 1], vs[Prev(|vs|, k - 1)], x, z) then 1 else 0)
  }

  /** `point_in_polygon`: at least three vertices and an odd number of crossings. */
  predicate Inside(vs: seq<Vertex3>, x: real, z: real)
  {
    |vs| >= 3 && Crossings(vs, x, z, |vs|) % 2 == 1
  }

  /** The edge loop of `point_in_polygon`, toggling `inside` once per crossing. */
  method PointInPolygon(x: real, z: real, vs: seq<Vertex3>) returns (inside: bool)
    ensures inside == Inside(vs, x, z)
    ensures |vs| < 3 ==> !inside
  {
    var n := |vs|;
    if n < 3 {
      return false;
    }
    inside := false;
    var j := n - 1;
    for i := 0 to n
      invariant j == (if i == 0 then n - 1 else i - 1)
      invariant inside == (Crossings(vs, x, z, i) % 2 == 1)
    {
      var toggles := (vs[i].2 > z) != (vs[j].2 > z) && x < CrossingX(vs[i], vs[j], z);
      if toggles {
        inside := !inside;
      }
      j := i;
    }
  }

  /** One edge's toggle reads only x and z of its endpoints. */
  lemma CrossesIgnoresY(vi: Vertex3, vj: Vertex3, wi: Vertex3, wj: Vertex3, x: real, z: real)
    requires vi.0 == wi.0 && vi.2 == wi.2 && vj.0 == wj.0 && vj.2 == wj.2
    ensures Crosses(vi, vj, x, z) == Crosses(wi, wj, x, z)
  {
    if Straddles(vi, vj, z) {
      assert CrossingX(vi, vj, z) == CrossingX(wi, wj, z);
    }
  }

  /** Only x and z of the vertices matter: changing every y leaves the count alone. */
  lemma {:induction false} CrossingsIgnoreY(vs: seq<Vertex3>, ws: seq<Vertex3>, x: real, z: real, k: nat)
    requires |vs| == |ws| && k <= |vs|
    requires forall i :: 0 <= i < |vs| ==> vs[i].0 == ws[i].0 && vs[i].2 == ws[i].2
    ensures Crossings(vs, x, z, k) == Crossings(ws, x, z, k)
  {
    if k > 0 {
      CrossingsIgnoreY(vs, ws, x, z, k - 1);
      var p := Prev(|vs|, k - 1);
      CrossesIgnoresY(vs[k - 1], vs[p], ws[k - 1], ws[p], x, z);
    }
  }

  /** The test reads only the x and z of each vertex. */
  lemma InsideIgnoresY(vs: seq<Vertex3>, ws: seq<Vertex3>, x: real, z: real)
    requires |vs| == |ws|
    requires forall i :: 0 <= i < |vs| ==> vs[i].0 == ws[i].0 && vs[i].2 == ws[i].2
    ensures Inside(vs, x, z) <==> Inside(ws, x, z)
  {
    CrossingsIgnoreY(vs, ws, x, z, |vs|);
  }

  /** Smallest and largest x and z over the vertices (`min(xs)`, `max(xs)`, ...). */
  function MinX(vs: seq<Vertex3>): (m: real)
    requires |vs| > 0
    ensures forall i :: 0 <= i < |vs| ==> m <= vs[i].0
    ensures exists i :: 0 <= i < |vs| && m == vs[i].0
  {
    if |vs| == 1 then vs[0].0 else MinReal(vs[0].0, MinX(vs[1..]))
  }

  function MaxX(vs: seq<Vertex3>): (m: real)
    requires |vs| > 0
    ensures forall i :: 0 <= i < |vs| ==> vs[i].0 <= m
    ensures exists i :: 0 <= i < |vs| && m == vs[i].0
  {
    if |vs| == 1 then vs[0].0 else MaxReal(vs[0].0, MaxX(vs[1..]))
  }

  function MinZ(vs: seq<Vertex3>): (m: real)
    requires |vs| > 0
    ensures forall i :: 0 <= i < |vs| ==> m <= vs[i].2
    ensures exists i :: 0 <= i < |vs| && m == vs[i].2
  {
    if |vs| == 1 then vs[0].2 else MinReal(vs[0].2, MinZ(vs[1..]))
  }

  function MaxZ(vs: seq<Vertex3>): (m: real)
    requires |vs| > 0
    ensures forall i :: 0 <= i < |vs| ==> vs[i].2 <= m
    ensures exists i :: 0 <= i < |vs| && m == vs[i].2
  {
    if |vs| == 1 then vs[0].2 else MaxReal(vs[0].2, MaxZ(vs[1..]))
  }

  /** A straddling edge meets the line between the x values of its endpoints. */
  lemma CrossingBetween(vi: Vertex3, vj: Vertex3, z: real)
    requires Straddles(vi, vj, z)
    ensures MinReal(vi.0, vj.0) <= CrossingX(vi, vj, z) <= MaxReal(vi.0, vj.0)
  {
    var num := z - vi.2;
    var den := vj.2 - vi.2;
    var t := num / den;
    assert 0.0 <= t <= 1.0 by {
      if vi.2 > z {
        assert den < 0.0 && num < 0.0 && num >= den;
        assert t * den == num;
      } else {
        assert den > 0.0 && num >= 0.0 && num < den;
        assert t * den == num;
      }
    }
    var d := vj.0 - vi.0;
    assert CrossingX(vi, vj, z) == d * t + vi.0;
    if d >= 0.0 {
      assert 0.0 <= d * t <= d;
    } else {
      assert d <= d * t <= 0.0;
    }
  }

  /** Above, below or right of every vertex, no edge toggles. */
  lemma {:induction false} NoCrossings(vs: seq<Vertex3>, x: real, z: real, k: nat)
    requires 0 < |vs| && k <= |vs|
    requires z >= MaxZ(vs) || z < MinZ(vs) || x >= MaxX(vs)
    ensures Crossings(vs, x, z, k) == 0
  {
    if k > 0 {
      NoCrossings(vs, x, z, k - 1);
      var vi, vj := vs[k - 1], vs[Prev(|vs|, k - 1)];
      if Straddles(vi, vj, z) {
        CrossingBetween(vi, vj, z);
      }
    }
  }

  /**
   * Left of every vertex, each straddling edge toggles, and the number of
   * sign changes of `z > vz` along a prefix of the ring has the parity of
   * the change between its ends.
   */
  lemma {:induction false} CrossingsLeftParity(vs: seq<Vertex3>, x: real, z: real, k: nat)
    requires 1 <= k <= |vs|
    requires x < MinX(vs)
    ensures (Crossings(vs, x, z, k) % 2 == 1) ==
            (((vs[0].2 > z) != (vs[|vs| - 1].2 > z)) != ((vs[0].2 > z) != (vs[k - 1].2 > z)))
  {
    var p := Prev(|vs|, k - 1);
    LeftCrosses(vs[k - 1], vs[p], x, z);
    var s := Straddles(vs[k - 1], vs[p], z);
    assert Crossings(vs, x, z, k) == Crossings(vs, x, z, k - 1) + (if s then 1 else 0);
    if k > 1 {
      CrossingsLeftParity(vs, x, z, k - 1);
      assert p == k - 2;
    }
  }

  /** Left of both endpoints, an edge toggles exactly when it straddles the line. */
  lemma LeftCrosses(vi: Vertex3, vj: Vertex3, x: real, z: real)
    requires x < vi.0 && x < vj.0
    ensures Crosses(vi, vj, x, z) == Straddles(vi, vj, z)
  {
    if Straddles(vi, vj, z) {
      CrossingBetween(vi, vj, z);
    }
  }

  /** A point outside the vertices' bounding box is never inside. */
  lemma OutsideBoxNotInside(vs: seq<Vertex3>, x: real, z: real)
    requires |vs| > 0
    requires x < MinX(vs) || x > MaxX(vs) || z < MinZ(vs) || z > MaxZ(vs)
    ensures !Inside(vs, x, z)
  {
    if x < MinX(vs) {
      CrossingsLeftParity(vs, x, z, |vs|);
    } else {
      NoCrossings(vs, x, z, |vs|);
    }
  }

  /** Index of the first state at or after `k` whose top vertices contain the point. */
  function FirstFrom(bls: seq<Bundesland>, x: real, z: real, k: nat): (r: Option<nat>)
    reads bls
    ensures r.Some? ==> k <= r.value < |bls| && Inside(bls[r.value].verticesTop, x, z)
    ensures r.Some? ==> forall j :: k <= j < r.value ==> !Inside(bls[j].verticesTop, x, z)
    ensures r.None? ==> forall j :: k <= j < |bls| ==> !Inside(bls[j].verticesTop, x, z)
    decreases |bls| - k
  {
    if k >= |bls| then None
    else if Inside(bls[k].verticesTop, x, z) then Some(k)
    else FirstFrom(bls, x, z, k + 1)
  }

  /** `find_bundesland_for_point`: the first state in list order whose top vertices contain the point. */
  method FindBundeslandForPoint(x: real, z: real, bls: seq<Bundesland>) returns (r: Option<Bundesland>)
    ensures r.Some? <==> FirstFrom(bls, x, z, 0).Some?
    ensures r.Some? ==> r.value == bls[FirstFrom(bls, x, z, 0).value]
  {
    for i := 0 to |bls|
      invariant FirstFrom(bls, x, z, 0) == FirstFrom(bls, x, z, i)
    {
      var inside := PointInPolygon(x, z, bls[i].verticesTop);
      if inside {
        return Some(bls[i]);
      }
    }
    return None;
  }
}
