/**
 * Two-dimensional point quadtree over the turbines' (x, z) positions
 * (windturbine/quadtree.py).
 *
 * A node is modelled as a value: `Insert` returns the updated subtree instead
 * of appending to a node's list in place. The depth of a node is passed down
 * from the root (depth 0) rather than stored, and `cap` is the `max_turbines`
 * every node inherits from the root.
 */
module Quadtree {
  import opened Turbine

  /** Axis-aligned box in the x/z plane with closed bounds. */
  datatype Box = Box(xMin: real, xMax: real, zMin: real, zMax: real)
  {
    predicate Contains(x: real, z: real)
    {
      xMin <= x <= xMax && zMin <= z <= zMax
    }

    predicate Intersects(o: Box)
    {
      xMin <= o.xMax && xMax >= o.xMin && zMin <= o.zMax && zMax >= o.zMin
    }

    function CenterX(): real { (xMin + xMax) / 2.0 }
    function CenterZ(): real { (zMin + zMax) / 2.0 }

    /** The quadrants `split` creates, in the order NW, NE, SW, SE. */
    function Quadrant(k: nat): (q: Box)
      requires k < 4
      ensures q.xMin == if k % 2 == 0 then xMin else CenterX()
      ensures q.xMax == if k % 2 == 0 then CenterX() else xMax
      ensures q.zMin == if k < 2 then zMin else CenterZ()
      ensures q.zMax == if k < 2 then CenterZ() else zMax
    {
      if k == 0 then Box(xMin, CenterX(), zMin, CenterZ())
      else if k == 1 then Box(CenterX(), xMax, zMin, CenterZ())
      else if k == 2 then Box(xMin, CenterX(), CenterZ(), zMax)
      else Box(CenterX(), xMax, CenterZ(), zMax)
    }
  }

  /** A point that lies in two boxes proves that they intersect; this is why pruning is sound. */
  lemma SharedPointIntersects(b: Box, q: Box, x: real, z: real)
    requires b.Contains(x, z) && q.Contains(x, z)
    ensures b.Intersects(q) && q.Intersects(b)
  {
  }

  /** The four quadrants cover exactly the parent box (closed edges are shared). */
  lemma QuadrantsCover(b: Box, x: real, z: real)
    ensures b.Contains(x, z) <==>
      (b.Quadrant(0).Contains(x, z) || b.Quadrant(1).Contains(x, z) ||
       b.Quadrant(2).Contains(x, z) || b.Quadrant(3).Contains(x, z))
  {
  }

  /** Index of the first quadrant (NW, NE, SW, SE) containing the point, 4 if none does. */
  function FirstQuadrant(b: Box, x: real, z: real): (k: nat)
    ensures k <= 4
    ensures k < 4 ==> b.Quadrant(k).Contains(x, z)
    ensures forall j :: 0 <= j < k && j < 4 ==> !b.Quadrant(j).Contains(x, z)
    ensures k == 4 <==> !b.Contains(x, z)
  {
    QuadrantsCover(b, x, z);
    if b.Quadrant(0).Contains(x, z) then 0
    else if b.Quadrant(1).Contains(x, z) then 1
    else if b.Quadrant(2).Contains(x, z) then 2
    else if b.Quadrant(3).Contains(x, z) then 3
    else 4
  }

  datatype Node =
    | Leaf(bounds: Box, items: seq<WindTurbine>)
    | Inner(bounds: Box, nw: Node, ne: Node, sw: Node, se: Node)
  {
    function Child(k: nat): Node
      requires Inner? && k < 4
    {
      if k == 0 then nw else if k == 1 then ne else if k == 2 then sw else se
    }

    function WithChild(k: nat, c: Node): (r: Node)
      requires Inner? && k < 4
      ensures r.Inner? && r.bounds == bounds && r.Child(k) == c
      ensures forall j :: 0 <= j < 4 && j != k ==> r.Child(j) == Child(j)
    {
      if k == 0 then this.(nw := c)
      else if k == 1 then this.(ne := c)
      else if k == 2 then this.(sw := c)
      else this.(se := c)
    }
  }

  /** Depth beyond which `split` refuses to split (`if self.depth > 10: return`). */
  const SplitDepthLimit: nat := 10

  /** Termination measure: the depth budget left before splitting stops for good. */
  function Room(d: nat): nat
  {
    if d <= 12 then 12 - d else 0
  }

  /** `QuadtreeNode.insert`: a point outside the node's box is silently dropped. */
  function Insert(n: Node, d: nat, cap: int, t: WindTurbine): (r: Node)
    ensures r.bounds == n.bounds
    ensures !n.bounds.Contains(t.x, t.z) ==> r == n
    decreases Room(d), 1, n
  {
    if !n.bounds.Contains(t.x, t.z) then n
    else match n
      case Leaf(b, items) =>
        if |items + [t]| > cap then Split(b, items + [t], d, cap)
        else Leaf(b, items + [t])
      case Inner(_, _, _, _, _) => Route(n, d, cap, t)
  }

  /** Hands a turbine to the first child whose box contains it, as the loop over `self.children` does. */
  function Route(n: Node, d: nat, cap: int, t: WindTurbine): (r: Node)
    requires n.Inner?
    ensures r.Inner? && r.bounds == n.bounds
    decreases Room(d + 1), 1, n, 0
  {
    if n.nw.bounds.Contains(t.x, t.z) then n.(nw := Insert(n.nw, d + 1, cap, t))
    else if n.ne.bounds.Contains(t.x, t.z) then n.(ne := Insert(n.ne, d + 1, cap, t))
    else if n.sw.bounds.Contains(t.x, t.z) then n.(sw := Insert(n.sw, d + 1, cap, t))
    else if n.se.bounds.Contains(t.x, t.z) then n.(se := Insert(n.se, d + 1, cap, t))
    else n
  }

  /** `QuadtreeNode.split` applied to a leaf holding `items`. */
  function Split(b: Box, items: seq<WindTurbine>, d: nat, cap: int): (r: Node)
    ensures r.bounds == b
    decreases Room(d), 0
  {
    if d > SplitDepthLimit then Leaf(b, items)
    else
      var empty := Inner(b, Leaf(b.Quadrant(0), []), Leaf(b.Quadrant(1), []),
                            Leaf(b.Quadrant(2), []), Leaf(b.Quadrant(3), []));
      Distribute(empty, items, d, cap)
  }

  /** The redistribution loop of `split`: route each held turbine in list order. */
  function Distribute(n: Node, items: seq<WindTurbine>, d: nat, cap: int): (r: Node)
    requires n.Inner?
    ensures r.Inner? && r.bounds == n.bounds
    decreases Room(d + 1), 2, |items|
  {
    if items == [] then n
    else Distribute(Route(n, d, cap, items[0]), items[1..], d, cap)
  }

  /** All stored turbines, leaves in NW, NE, SW, SE order. Inner nodes hold none. */
  function Items(n: Node): seq<WindTurbine>
  {
    match n
      case Leaf(_, items) => items
      case Inner(_, nw, ne, sw, se) => Items(nw) + Items(ne) + Items(sw) + Items(se)
  }

  function InBox(q: Box, s: seq<WindTurbine>): (r: seq<WindTurbine>)
    ensures |r| <= |s|
    ensures forall i :: 0 <= i < |r| ==> r[i] in s && q.Contains(r[i].x, r[i].z)
    ensures forall i :: 0 <= i < |s| && q.Contains(s[i].x, s[i].z) ==> s[i] in r
    ensures multiset(r) <= multiset(s)
  {
    if s == [] then []
    else
      assert s == [s[0]] + s[1..];
      if q.Contains(s[0].x, s[0].z) then [s[0]] + InBox(q, s[1..])
      else InBox(q, s[1..])
  }

  lemma {:induction false} InBoxConcat(q: Box, a: seq<WindTurbine>, b: seq<WindTurbine>)
    ensures InBox(q, a + b) == InBox(q, a) + InBox(q, b)
  {
    if a != [] {
      assert (a + b)[0] == a[0] && (a + b)[1..] == a[1..] + b;
      InBoxConcat(q, a[1..], b);
      if q.Contains(a[0].x, a[0].z) {
        calc {
          InBox(q, a + b);
          [a[0]] + InBox(q, a[1..] + b);
          [a[0]] + (InBox(q, a[1..]) + InBox(q, b));
          ([a[0]] + InBox(q, a[1..])) + InBox(q, b);
        }
      } else {
        calc {
          InBox(q, a + b);
          InBox(q, a[1..] + b);
          InBox(q, a[1..]) + InBox(q, b);
        }
      }
    } else {
      assert a + b == b;
    }
  }

  lemma InBoxSnoc(q: Box, s: seq<WindTurbine>, t: WindTurbine)
    ensures InBox(q, s + [t]) == InBox(q, s) + (if q.Contains(t.x, t.z) then [t] else [])
  {
    InBoxConcat(q, s, [t]);
    assert InBox(q, [t]) == if q.Contains(t.x, t.z) then [t] else [];
  }

  /**
   * Structural invariant: every inner node's children are the four quadrants of
   * its box, and every leaf stores only turbines inside its own box.
   */
  ghost predicate WellFormed(n: Node)
  {
    match n
      case Leaf(b, items) => forall i :: 0 <= i < |items| ==> b.Contains(items[i].x, items[i].z)
      case Inner(b, nw, ne, sw, se) =>
        nw.bounds == b.Quadrant(0) && ne.bounds == b.Quadrant(1) &&
        sw.bounds == b.Quadrant(2) && se.bounds == b.Quadrant(3) &&
        WellFormed(nw) && WellFormed(ne) && WellFormed(sw) && WellFormed(se)
  }

  /** In a valid tree every stored turbine lies inside the box of every node above it. */
  lemma {:induction false} ItemsInBounds(n: Node)
    requires WellFormed(n)
    ensures forall t :: t in Items(n) ==> n.bounds.Contains(t.x, t.z)
  {
    match n
      case Leaf(b, items) =>
        forall t | t in items ensures b.Contains(t.x, t.z) {
          var i :| 0 <= i < |items| && items[i] == t;
        }
      case Inner(b, nw, ne, sw, se) =>
        ItemsInBounds(nw); ItemsInBounds(ne); ItemsInBounds(sw); ItemsInBounds(se);
        forall t | t in Items(n) ensures b.Contains(t.x, t.z) {
          QuadrantsCover(b, t.x, t.z);
        }
  }

  /**
   * Depth and capacity invariant at depth `d`: inner nodes occur only at depth
   * at most 10 (so no node is deeper than 11), and a leaf at depth at most 10
   * holds at most `cap` turbines. A depth-11 leaf may hold more.
   */
  ghost predicate Capacity(n: Node, d: nat, cap: int)
  {
    match n
      case Leaf(_, items) => d <= SplitDepthLimit ==> |items| <= cap
      case Inner(_, nw, ne, sw, se) =>
        d <= SplitDepthLimit &&
        Capacity(nw, d + 1, cap) && Capacity(ne, d + 1, cap) &&
        Capacity(sw, d + 1, cap) && Capacity(se, d + 1, cap)
  }

  /** Greatest depth of any node of the subtree rooted at depth `d`. */
  function MaxDepth(n: Node, d: nat): (m: nat)
    ensures m >= d
  {
    match n
      case Leaf(_, _) => d
      case Inner(_, nw, ne, sw, se) =>
        var a := MaxDepth(nw, d + 1);
        var b := MaxDepth(ne, d + 1);
        var c := MaxDepth(sw, d + 1);
        var e := MaxDepth(se, d + 1);
        var ab := if a >= b then a else b;
        var ce := if c >= e then c else e;
        if ab >= ce then ab else ce
  }

  lemma {:induction false} CapacityBoundsDepth(n: Node, d: nat, cap: int)
    requires Capacity(n, d, cap) && d <= SplitDepthLimit + 1
    ensures MaxDepth(n, d) <= SplitDepthLimit + 1
  {
    match n
      case Leaf(_, _) =>
      case Inner(_, nw, ne, sw, se) =>
        CapacityBoundsDepth(nw, d + 1, cap);
        CapacityBoundsDepth(ne, d + 1, cap);
        CapacityBoundsDepth(sw, d + 1, cap);
        CapacityBoundsDepth(se, d + 1, cap);
  }

  /** What `Insert` does to a valid subtree: it keeps the invariants and adds the turbine iff it is inside. */
  lemma {:induction false} InsertKeeps(n: Node, d: nat, cap: int, t: WindTurbine)
    requires WellFormed(n)
    ensures WellFormed(Insert(n, d, cap, t))
    ensures multiset(Items(Insert(n, d, cap, t))) ==
      multiset(Items(n)) + (if n.bounds.Contains(t.x, t.z) then multiset{t} else multiset{})
    ensures cap >= 0 && Capacity(n, d, cap) ==> Capacity(Insert(n, d, cap, t), d, cap)
    decreases Room(d), 1, n
  {
    if n.bounds.Contains(t.x, t.z) {
      match n
        case Leaf(b, items) =>
          var more := items + [t];
          assert forall i :: 0 <= i < |more| ==> b.Contains(more[i].x, more[i].z) by {
            forall i | 0 <= i < |more| ensures b.Contains(more[i].x, more[i].z) {
              if i < |items| { assert more[i] == items[i]; }
            }
          }
          if |more| > cap {
            SplitKeeps(b, more, d, cap);
          }
        case Inner(_, _, _, _, _) =>
          RouteKeeps(n, d, cap, t);
          QuadrantsCover(n.bounds, t.x, t.z);
    }
  }

  lemma ChildItems(n: Node)
    requires n.Inner?
    ensures multiset(Items(n)) == multiset(Items(n.Child(0))) + multiset(Items(n.Child(1)))
                                + multiset(Items(n.Child(2))) + multiset(Items(n.Child(3)))
  {
  }

  /** In a well-formed inner node, `Route` replaces exactly the first quadrant containing the point. */
  lemma RouteShape(n: Node, d: nat, cap: int, t: WindTurbine)
    requires n.Inner? && WellFormed(n)
    ensures var k := FirstQuadrant(n.bounds, t.x, t.z);
      Route(n, d, cap, t) == if k < 4 then n.WithChild(k, Insert(n.Child(k), d + 1, cap, t)) else n
  {
  }

  /** Replacing a child by a well-formed node with the same box keeps the parent well-formed. */
  lemma WithChildWellFormed(n: Node, k: nat, c: Node)
    requires n.Inner? && k < 4 && WellFormed(n)
    requires WellFormed(c) && c.bounds == n.Child(k).bounds
    ensures WellFormed(n.WithChild(k, c))
  {
  }

  /** Replacing a child by one holding `extra` more turbines adds `extra` to the parent. */
  lemma WithChildItems(n: Node, k: nat, c: Node, extra: multiset<WindTurbine>)
    requires n.Inner? && k < 4
    requires multiset(Items(c)) == multiset(Items(n.Child(k))) + extra
    ensures multiset(Items(n.WithChild(k, c))) == multiset(Items(n)) + extra
  {
    ChildItems(n);
    ChildItems(n.WithChild(k, c));
  }

  /** Replacing a child by one that meets the capacity invariant one level down keeps it for the parent. */
  lemma WithChildCapacity(n: Node, k: nat, c: Node, d: nat, cap: int)
    requires n.Inner? && k < 4 && Capacity(n, d, cap) && Capacity(c, d + 1, cap)
    ensures Capacity(n.WithChild(k, c), d, cap)
  {
  }

  /** Routing a turbine keeps the invariants and adds it to the node iff it lies inside the node's box. */
  lemma {:induction false} RouteKeeps(n: Node, d: nat, cap: int, t: WindTurbine)
    requires n.Inner? && WellFormed(n)
    ensures WellFormed(Route(n, d, cap, t))
    ensures multiset(Items(Route(n, d, cap, t))) ==
      multiset(Items(n)) + (if n.bounds.Contains(t.x, t.z) then multiset{t} else multiset{})
    ensures cap >= 0 && Capacity(n, d, cap) ==> Capacity(Route(n, d, cap, t), d, cap)
    decreases Room(d + 1), 1, n, 0
  {
    var k := FirstQuadrant(n.bounds, t.x, t.z);
    RouteShape(n, d, cap, t);
    if k < 4 {
      var child := n.Child(k);
      var c := Insert(child, d + 1, cap, t);
      InsertKeeps(child, d + 1, cap, t);
      WithChildWellFormed(n, k, c);
      WithChildItems(n, k, c, multiset{t});
      if cap >= 0 && Capacity(n, d, cap) {
        WithChildCapacity(n, k, c, d, cap);
      }
    }
  }

  /** Routing adds the turbine to exactly the first quadrant containing it and leaves the other three as they were. */
  lemma RouteChildren(n: Node, d: nat, cap: int, t: WindTurbine)
    requires n.Inner? && WellFormed(n)
    ensures var k := FirstQuadrant(n.bounds, t.x, t.z);
      forall j :: 0 <= j < 4 ==>
        multiset(Items(Route(n, d, cap, t).Child(j))) ==
        multiset(Items(n.Child(j))) + (if j == k then multiset{t} else multiset{})
  {
    var k := FirstQuadrant(n.bounds, t.x, t.z);
    RouteShape(n, d, cap, t);
    if k < 4 {
      InsertKeeps(n.Child(k), d + 1, cap, t);
    }
  }

  /** An empty split node: the four quadrant leaves, holding nothing. */
  function EmptySplit(b: Box): (r: Node)
    ensures r.Inner? && r.bounds == b && WellFormed(r)
    ensures forall j :: 0 <= j < 4 ==> r.Child(j).bounds == b.Quadrant(j) && Items(r.Child(j)) == []
    ensures Items(r) == []
  {
    Inner(b, Leaf(b.Quadrant(0), []), Leaf(b.Quadrant(1), []), Leaf(b.Quadrant(2), []), Leaf(b.Quadrant(3), []))
  }

  /** Splitting keeps every turbine, creates the four quadrant children and meets the capacity invariant. */
  lemma {:induction false} SplitKeeps(b: Box, items: seq<WindTurbine>, d: nat, cap: int)
    requires forall i :: 0 <= i < |items| ==> b.Contains(items[i].x, items[i].z)
    ensures WellFormed(Split(b, items, d, cap))
    ensures multiset(Items(Split(b, items, d, cap))) == multiset(items)
    ensures cap >= 0 ==> Capacity(Split(b, items, d, cap), d, cap)
    decreases Room(d), 0
  {
    if d <= SplitDepthLimit {
      var empty := Inner(b, Leaf(b.Quadrant(0), []), Leaf(b.Quadrant(1), []),
                            Leaf(b.Quadrant(2), []), Leaf(b.Quadrant(3), []));
      assert Items(empty) == [];
      if cap >= 0 {
        assert Capacity(empty.nw, d + 1, cap) && Capacity(empty.ne, d + 1, cap);
        assert Capacity(empty.sw, d + 1, cap) && Capacity(empty.se, d + 1, cap);
      }
      DistributeKeeps(empty, items, d, cap);
    }
  }

  /** Below the depth limit, each quadrant of a split receives the turbines whose first containing quadrant it is. */
  lemma SplitRoutes(b: Box, items: seq<WindTurbine>, d: nat, cap: int)
    requires d <= SplitDepthLimit
    ensures var r := Split(b, items, d, cap);
      r.Inner? && forall j :: 0 <= j < 4 ==>
        r.Child(j).bounds == b.Quadrant(j) &&
        multiset(Items(r.Child(j))) == multiset(Routed(b, items, j))
  {
    var empty := EmptySplit(b);
    assert Split(b, items, d, cap) == Distribute(empty, items, d, cap);
    DistributeRoutes(empty, items, d, cap);
    DistributeBounds(empty, items, d, cap);
  }

  /** The turbines of `items` whose first containing quadrant of `b` is `k`, in list order. */
  function Routed(b: Box, items: seq<WindTurbine>, k: nat): seq<WindTurbine>
  {
    if items == [] then []
    else (if FirstQuadrant(b, items[0].x, items[0].z) == k then [items[0]] else [])
         + Routed(b, items[1..], k)
  }

  lemma {:induction false} DistributeKeeps(n: Node, items: seq<WindTurbine>, d: nat, cap: int)
    requires n.Inner? && WellFormed(n)
    requires forall i :: 0 <= i < |items| ==> n.bounds.Contains(items[i].x, items[i].z)
    ensures WellFormed(Distribute(n, items, d, cap))
    ensures multiset(Items(Distribute(n, items, d, cap))) == multiset(Items(n)) + multiset(items)
    ensures cap >= 0 && Capacity(n, d, cap) ==> Capacity(Distribute(n, items, d, cap), d, cap)
    decreases Room(d + 1), 2, |items|
  {
    if items != [] {
      var t := items[0];
      var rest := items[1..];
      RouteKeeps(n, d, cap, t);
      assert items == [t] + rest;
      assert multiset(items) == multiset{t} + multiset(rest);
      DistributeKeeps(Route(n, d, cap, t), rest, d, cap);
    }
  }

  /** Each quadrant receives, in list order, the turbines whose first containing quadrant it is. */
  lemma {:induction false} DistributeRoutes(n: Node, items: seq<WindTurbine>, d: nat, cap: int)
    requires n.Inner? && WellFormed(n)
    ensures forall j :: 0 <= j < 4 ==>
      multiset(Items(Distribute(n, items, d, cap).Child(j))) ==
      multiset(Items(n.Child(j))) + multiset(Routed(n.bounds, items, j))
    decreases Room(d + 1), 2, |items|
  {
    if items != [] {
      var t := items[0];
      var rest := items[1..];
      var m := Route(n, d, cap, t);
      var k := FirstQuadrant(n.bounds, t.x, t.z);
      assert m.Inner? && WellFormed(m) && m.bounds == n.bounds by {
        RouteKeeps(n, d, cap, t);
        RouteShape(n, d, cap, t);
      }
      assert forall j :: 0 <= j < 4 ==>
        multiset(Items(m.Child(j))) == multiset(Items(n.Child(j))) + (if j == k then multiset{t} else multiset{}) by {
        RouteChildren(n, d, cap, t);
      }
      DistributeRoutes(m, rest, d, cap);
      assert Distribute(m, rest, d, cap) == Distribute(n, items, d, cap);
      forall j | 0 <= j < 4
        ensures Routed(n.bounds, items, j) == (if k == j then [t] else []) + Routed(n.bounds, rest, j)
      {
      }
    }
  }

  /** Distributing never changes the boxes of the four children. */
  lemma {:induction false} DistributeBounds(n: Node, items: seq<WindTurbine>, d: nat, cap: int)
    requires n.Inner? && WellFormed(n)
    ensures var r := Distribute(n, items, d, cap);
      forall j :: 0 <= j < 4 ==> r.Child(j).bounds == n.Child(j).bounds
    decreases |items|
  {
    if items != [] {
      var m := Route(n, d, cap, items[0]);
      RouteKeeps(n, d, cap, items[0]);
      RouteShape(n, d, cap, items[0]);
      DistributeBounds(m, items[1..], d, cap);
    }
  }

  /** `build_from_list`: reset the root to an empty leaf, then insert every turbine in order. */
  function BuildFrom(b: Box, cap: int, ts: seq<WindTurbine>): Node
    decreases |ts|
  {
    if ts == [] then Leaf(b, [])
    else Insert(BuildFrom(b, cap, ts[..|ts| - 1]), 0, cap, ts[|ts| - 1])
  }

  /** A build yields a well-formed tree over the root box that meets the capacity invariant for any non-negative `max_turbines`. */
  lemma {:induction false} BuildShape(b: Box, cap: int, ts: seq<WindTurbine>)
    ensures WellFormed(BuildFrom(b, cap, ts)) && BuildFrom(b, cap, ts).bounds == b
    ensures cap >= 0 ==> Capacity(BuildFrom(b, cap, ts), 0, cap)
    decreases |ts|
  {
    if ts != [] {
      var m := BuildFrom(b, cap, ts[..|ts| - 1]);
      BuildShape(b, cap, ts[..|ts| - 1]);
      InsertKeeps(m, 0, cap, ts[|ts| - 1]);
    }
  }

  /**
   * After a build the leaves hold exactly the input turbines inside the root
   * box, each as often as it occurs in the input.
   */
  lemma {:induction false} BuildContents(b: Box, cap: int, ts: seq<WindTurbine>)
    ensures multiset(Items(BuildFrom(b, cap, ts))) == multiset(InBox(b, ts))
    decreases |ts|
  {
    if ts != [] {
      var init := ts[..|ts| - 1];
      var t := ts[|ts| - 1];
      var extra := if b.Contains(t.x, t.z) then multiset{t} else multiset{};
      assert multiset(Items(BuildFrom(b, cap, ts))) == multiset(Items(BuildFrom(b, cap, init))) + extra by {
        BuildShape(b, cap, init);
        InsertKeeps(BuildFrom(b, cap, init), 0, cap, t);
      }
      assert multiset(InBox(b, ts)) == multiset(InBox(b, init)) + extra by {
        assert ts == init + [t];
        InBoxSnoc(b, init, t);
      }
      BuildContents(b, cap, init);
    }
  }

  /** `get_visible`: prunes every subtree whose box misses the query box. */
  function Query(n: Node, q: Box): seq<WindTurbine>
  {
    if !n.bounds.Intersects(q) then []
    else match n
      case Leaf(_, items) => InBox(q, items)
      case Inner(_, nw, ne, sw, se) => Query(nw, q) + Query(ne, q) + Query(sw, q) + Query(se, q)
  }

  /** Pruning loses nothing: the query equals a brute-force filter of all stored turbines. */
  lemma {:induction false} QueryIsFilter(n: Node, q: Box)
    requires WellFormed(n)
    ensures Query(n, q) == InBox(q, Items(n))
  {
    if !n.bounds.Intersects(q) {
      ItemsInBounds(n);
      NoneInBox(q, n.bounds, Items(n));
    } else {
      match n
        case Leaf(_, _) =>
        case Inner(_, nw, ne, sw, se) =>
          QueryIsFilter(nw, q); QueryIsFilter(ne, q); QueryIsFilter(sw, q); QueryIsFilter(se, q);
          InBoxConcat(q, Items(nw) + Items(ne) + Items(sw), Items(se));
          InBoxConcat(q, Items(nw) + Items(ne), Items(sw));
          InBoxConcat(q, Items(nw), Items(ne));
    }
  }

  lemma {:induction false} NoneInBox(q: Box, b: Box, s: seq<WindTurbine>)
    requires !b.Intersects(q)
    requires forall t :: t in s ==> b.Contains(t.x, t.z)
    ensures InBox(q, s) == []
  {
    if s != [] {
      if q.Contains(s[0].x, s[0].z) {
        SharedPointIntersects(b, q, s[0].x, s[0].z);
      }
      NoneInBox(q, b, s[1..]);
    }
  }

  /** The leaf loop of `count_visible`. */
  function CountInBox(q: Box, s: seq<WindTurbine>): (c: nat)
    ensures c == |InBox(q, s)|
  {
    if s == [] then 0
    else (if q.Contains(s[0].x, s[0].z) then 1 else 0) + CountInBox(q, s[1..])
  }

  /** `count_visible` agrees with the length of `get_visible` for every query box. */
  function CountVisible(n: Node, q: Box): (c: nat)
    ensures c == |Query(n, q)|
  {
    if !n.bounds.Intersects(q) then 0
    else match n
      case Leaf(_, items) => CountInBox(q, items)
      case Inner(_, nw, ne, sw, se) =>
        CountVisible(nw, q) + CountVisible(ne, q) + CountVisible(sw, q) + CountVisible(se, q)
  }

  datatype TreeStats = TreeStats(nodes: nat, leaves: nat, turbines: nat, maxDepth: nat, avgPerLeaf: real)

  /** `get_stats` of a node at depth `d`. */
  function Stats(n: Node, d: nat): (s: TreeStats)
    ensures s.turbines == |Items(n)|
    ensures 1 <= s.leaves <= s.nodes
    ensures s.maxDepth == MaxDepth(n, d)
    ensures n.Leaf? ==> s.nodes == 1 && s.avgPerLeaf == |Items(n)| as real
    ensures n.Inner? ==> s.avgPerLeaf == s.turbines as real / s.leaves as real
  {
    match n
      case Leaf(_, items) => TreeStats(1, 1, |items|, d, |items| as real)
      case Inner(_, nw, ne, sw, se) =>
        var a := Stats(nw, d + 1);
        var b := Stats(ne, d + 1);
        var c := Stats(sw, d + 1);
        var e := Stats(se, d + 1);
        var ab := if a.maxDepth >= b.maxDepth then a.maxDepth else b.maxDepth;
        var ce := if c.maxDepth >= e.maxDepth then c.maxDepth else e.maxDepth;
        var leaves := a.leaves + b.leaves + c.leaves + e.leaves;
        var turbines := a.turbines + b.turbines + c.turbines + e.turbines;
        TreeStats(1 + a.nodes + b.nodes + c.nodes + e.nodes, leaves, turbines,
                  if ab >= ce then ab else ce,
                  turbines as real / (if leaves >= 1 then leaves else 1) as real)
  }

  /** The insertion loop of `build_from_list`, starting from an empty leaf over `b`. */
  method InsertAll(b: Box, cap: int, ts: seq<WindTurbine>) returns (n: Node)
    ensures n == BuildFrom(b, cap, ts)
  {
    n := Leaf(b, []);
    var i := 0;
    while i < |ts|
      invariant 0 <= i <= |ts|
      invariant n == BuildFrom(b, cap, ts[..i])
    {
      assert ts[..i + 1][..i] == ts[..i];
      n := Insert(n, 0, cap, ts[i]);
      i := i + 1;
    }
    assert ts[..i] == ts;
  }

  /** `QuadtreeManager`: the root node of an index over the turbines plus a query counter. */
  class QuadtreeManager {
    const bounds: Box
    var root: Node
    var queryCount: nat

    /** Root leaf over `bounds` with `max_turbines = 8`. */
    static const RootCapacity: int := 8

    /** The manager's default bounds: roughly Germany in model coordinates. */
    static const DefaultBounds: Box := Box(-1.6, 1.6, -1.9, 1.9)

    ghost predicate Valid()
      reads this`root
    {
      root.bounds == bounds && WellFormed(root) && Capacity(root, 0, RootCapacity)
    }

    constructor (b: Box)
      ensures bounds == b && root == Leaf(b, []) && queryCount == 0
      ensures Valid()
    {
      bounds := b;
      root := Leaf(b, []);
      queryCount := 0;
    }

    /** `build`: rebuilds the tree from scratch over `ts`. */
    method Build(ts: seq<WindTurbine>)
      modifies this`root
      ensures root == BuildFrom(bounds, RootCapacity, ts)
      ensures Valid()
      ensures multiset(Items(root)) == multiset(InBox(bounds, ts))
    {
      var n := InsertAll(bounds, RootCapacity, ts);
      BuildShape(bounds, RootCapacity, ts);
      BuildContents(bounds, RootCapacity, ts);
      root := n;
    }

    /** `get_visible`: counts the query and returns the stored turbines inside `q`. */
    method GetVisible(q: Box) returns (r: seq<WindTurbine>)
      requires Valid()
      modifies this`queryCount
      ensures queryCount == old(queryCount) + 1
      ensures r == Query(root, q)
      ensures r == InBox(q, Items(root))
    {
      queryCount := queryCount + 1;
      r := Query(root, q);
      QueryIsFilter(root, q);
    }
  }
}
