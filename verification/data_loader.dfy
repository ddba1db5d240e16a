/** Position lookups, feature processing and city-state holes of the loader (data/data_loader.py). */
module DataLoader {
  import opened Common
  import opened Triangulation
  import opened BundeslandGeometry
  import opened PointInPolygon
  import TC = TriangulationCache

  /** Height of a position outside every state, and of a state missing from `Heights`. */
  const DefaultHeight: real := 0.14

  /** `HEIGHTS` of the configuration: the extrusion of each state. */
  const Heights: map<string, real> := map[
    "Bayern" := 0.22, "Baden-W\U{fc}rttemberg" := 0.20, "Nordrhein-Westfalen" := 0.19,
    "Niedersachsen" := 0.18, "Hessen" := 0.18, "Sachsen" := 0.17, "Brandenburg" := 0.17,
    "Rheinland-Pfalz" := 0.17, "Schleswig-Holstein" := 0.16, "Mecklenburg-Vorpommern" := 0.16,
    "Th\U{fc}ringen" := 0.17, "Sachsen-Anhalt" := 0.17, "Berlin" := 0.19, "Hamburg" := 0.18,
    "Bremen" := 0.15, "Saarland" := 0.15]

  /** `HEIGHTS.get(name, DEFAULT_HEIGHT)`. */
  function HeightOf(name: string): real
  {
    if name in Heights then Heights[name] else DefaultHeight
  }

  // ---------------------------------------------------------------- lookups

  /** The `_bbox` precheck rejects the point: a box is stored and the point lies outside it. */
  predicate OutsideBox(box: Option<(real, real, real, real)>, x: real, z: real)
  {
    box.Some? && (x < box.value.0 || x > box.value.1 || z < box.value.2 || z > box.value.3)
  }

  /** A state passes the lookup: the precheck lets the point through and the ray casting contains it. */
  predicate Hit(bl: Bundesland, x: real, z: real)
    reads bl
  {
    !OutsideBox(bl.bbox, x, z) && Inside(bl.verticesTop, x, z)
  }

  /** Index of the first state at or after `k`, among city states (`city`) or the others, that passes the lookup. */
  function FirstHit(bls: seq<Bundesland>, x: real, z: real, city: bool, k: nat): (r: Option<nat>)
    reads bls
    ensures r.Some? ==> k <= r.value < |bls| && (bls[r.value].name in CityStates) == city && Hit(bls[r.value], x, z)
    ensures r.Some? ==> forall j :: k <= j < r.value && (bls[j].name in CityStates) == city ==> !Hit(bls[j], x, z)
    ensures r.None? ==> forall j :: k <= j < |bls| && (bls[j].name in CityStates) == city ==> !Hit(bls[j], x, z)
    decreases |bls| - k
  {
    if k >= |bls| then None
    else if (bls[k].name in CityStates) == city && Hit(bls[k], x, z) then Some(k)
    else FirstHit(bls, x, z, city, k + 1)
  }

  /** The state both position lookups settle on: city states first, then the others. */
  function Locate(bls: seq<Bundesland>, x: real, z: real): (r: Option<nat>)
    reads bls
    ensures r.Some? ==> r.value < |bls| && Hit(bls[r.value], x, z)
    ensures r.None? <==> forall j :: 0 <= j < |bls| ==> !Hit(bls[j], x, z)
    ensures (exists j :: 0 <= j < |bls| && bls[j].name in CityStates && Hit(bls[j], x, z)) ==>
      r.Some? && bls[r.value].name in CityStates
  {
    var c := FirstHit(bls, x, z, true, 0);
    if c.Some? then c else FirstHit(bls, x, z, false, 0)
  }

  /** One of the two state loops of the lookups, with its kind filter, box precheck and early return. */
  method FindHit(bls: seq<Bundesland>, x: real, z: real, city: bool) returns (r: Option<nat>)
    ensures r == FirstHit(bls, x, z, city, 0)
  {
    for i := 0 to |bls|
      invariant FirstHit(bls, x, z, city, 0) == FirstHit(bls, x, z, city, i)
    {
      var bl := bls[i];
      if (bl.name in CityStates) != city {
        continue;
      }
      if bl.bbox.Some? {
        var (minX, maxX, minZ, maxZ) := bl.bbox.value;
        if x < minX || x > maxX || z < minZ || z > maxZ {
          continue;
        }
      }
      var inside := PointInPolygon.PointInPolygon(x, z, bl.verticesTop);
      if inside {
        return Some(i);
      }
    }
    return None;
  }

  /** `get_height_for_position`: the extrusion of the located state, else the default height. */
  method GetHeightForPosition(x: real, z: real, bls: seq<Bundesland>) returns (h: real)
    ensures Locate(bls, x, z).Some? ==> h == bls[Locate(bls, x, z).value].extrusion
    ensures Locate(bls, x, z).None? ==> h == DefaultHeight
  {
    var r := FindHit(bls, x, z, true);
    if r.None? {
      r := FindHit(bls, x, z, false);
    }
    if r.Some? {
      return bls[r.value].extrusion;
    }
    return DefaultHeight;
  }

  /** `get_bundesland_name_for_position`: the name of the same state, `None` outside every state. */
  method GetBundeslandNameForPosition(x: real, z: real, bls: seq<Bundesland>) returns (name: Option<string>)
    ensures Locate(bls, x, z).Some? ==> name == Some(bls[Locate(bls, x, z).value].name)
    ensures Locate(bls, x, z).None? ==> name == None
  {
    var r := FindHit(bls, x, z, true);
    if r.None? {
      r := FindHit(bls, x, z, false);
    }
    if r.Some? {
      return Some(bls[r.value].name);
    }
    return None;
  }

  // ---------------------------------------------------------------- bounding boxes

  /** (min x, max x, min z, max z) of the vertices. */
  function BoxOf(vs: seq<Vertex3>): (real, real, real, real)
    requires |vs| > 0
  {
    (MinX(vs), MaxX(vs), MinZ(vs), MaxZ(vs))
  }

  /** The stored box, if any, is the bounding box of the state's top vertices. */
  predicate BoxFits(bl: Bundesland)
    reads bl
  {
    bl.bbox.Some? ==> |bl.verticesTop| > 0 && bl.bbox.value == BoxOf(bl.verticesTop)
  }

  /** `_precompute_bboxes`: every state with vertices gets the bounding box of its top vertices. */
  method PrecomputeBboxes(bls: seq<Bundesland>)
    modifies set b | b in bls :: b`bbox
    ensures forall b :: b in bls && |b.verticesTop| > 0 ==> b.bbox == Some(BoxOf(b.verticesTop))
    ensures forall b :: b in bls && |b.verticesTop| == 0 ==> b.bbox == old(b.bbox)
  {
    for i := 0 to |bls|
      invariant forall b :: b in bls[..i] && |b.verticesTop| > 0 ==> b.bbox == Some(BoxOf(b.verticesTop))
      invariant forall b :: b in bls && (b !in bls[..i] || |b.verticesTop| == 0) ==> b.bbox == old(b.bbox)
    {
      var bl := bls[i];
      assert bl in bls;
      if |bl.verticesTop| > 0 {
        bl.bbox := Some(BoxOf(bl.verticesTop));
      }
      assert bls[..i + 1] == bls[..i] + [bl];
    }
    assert bls[..|bls|] == bls;
  }

  /** A fitting box never changes the answer for one state: ray casting is false outside the box. */
  lemma PrecheckIrrelevant(bl: Bundesland, x: real, z: real)
    requires BoxFits(bl)
    ensures Hit(bl, x, z) == Inside(bl.verticesTop, x, z)
  {
    if OutsideBox(bl.bbox, x, z) {
      OutsideBoxNotInside(bl.verticesTop, x, z);
    }
  }

  /** Reference lookup without the precheck: the first state of the kind whose top vertices contain the point. */
  ghost function FirstInside(bls: seq<Bundesland>, x: real, z: real, city: bool, k: nat): Option<nat>
    reads bls
    decreases |bls| - k
  {
    if k >= |bls| then None
    else if (bls[k].name in CityStates) == city && Inside(bls[k].verticesTop, x, z) then Some(k)
    else FirstInside(bls, x, z, city, k + 1)
  }

  /** With fitting boxes, the state loops find what they would find without the precheck. */
  lemma {:induction false} PrecheckNeverChangesLookup(bls: seq<Bundesland>, x: real, z: real, city: bool, k: nat)
    requires forall b :: b in bls ==> BoxFits(b)
    ensures FirstHit(bls, x, z, city, k) == FirstInside(bls, x, z, city, k)
    decreases |bls| - k
  {
    if k < |bls| {
      PrecheckIrrelevant(bls[k], x, z);
      PrecheckNeverChangesLookup(bls, x, z, city, k + 1);
    }
  }

  // ---------------------------------------------------------------- nearest state

  /** Squared distance from the point to the mean of the state's top vertices. */
  function CentroidDist(bl: Bundesland, x: real, z: real): real
    requires |bl.verticesTop| > 0
    reads bl
  {
    var n := |bl.verticesTop| as real;
    var cx := SumX(bl.verticesTop) / n;
    var cz := SumZ(bl.verticesTop) / n;
    (x - cx) * (x - cx) + (z - cz) * (z - cz)
  }

  /**
   * Among the first `k` states, the one with vertices whose centroid is
   * closest, the earliest one on ties; nothing when none has vertices.
   */
  function Nearest(bls: seq<Bundesland>, x: real, z: real, k: nat): (r: Option<nat>)
    requires k <= |bls|
    reads bls
    ensures r.None? <==> forall j :: 0 <= j < k ==> |bls[j].verticesTop| == 0
    ensures r.Some? ==> r.value < k && |bls[r.value].verticesTop| > 0
    ensures r.Some? ==> forall j :: 0 <= j < k && |bls[j].verticesTop| > 0 ==>
      CentroidDist(bls[r.value], x, z) <= CentroidDist(bls[j], x, z)
    ensures r.Some? ==> forall j :: 0 <= j < r.value && |bls[j].verticesTop| > 0 ==>
      CentroidDist(bls[r.value], x, z) < CentroidDist(bls[j], x, z)
  {
    if k == 0 then None
    else
      var prev := Nearest(bls, x, z, k - 1);
      if |bls[k - 1].verticesTop| == 0 then prev
      else if prev.None? || CentroidDist(bls[k - 1], x, z) < CentroidDist(bls[prev.value], x, z) then Some(k - 1)
      else prev
  }

  /** `_find_nearest_bundesland`: the nearest state's name, or "Unknown" when there is none or its name is empty. */
  method FindNearestBundesland(x: real, z: real, bls: seq<Bundesland>) returns (name: string)
    ensures var r := Nearest(bls, x, z, |bls|);
      name == (if r.Some? && bls[r.value].name != "" then bls[r.value].name else "Unknown")
  {
    var minDist: Option<real> := None;
    var nearest: Option<string> := None;
    for i := 0 to |bls|
      invariant var r := Nearest(bls, x, z, i);
        nearest == (if r.Some? then Some(bls[r.value].name) else None) &&
        minDist == (if r.Some? then Some(CentroidDist(bls[r.value], x, z)) else None)
    {
      var bl := bls[i];
      if |bl.verticesTop| > 0 {
        var dist := CentroidDist(bl, x, z);
        if minDist.None? || dist < minDist.value {
          minDist := Some(dist);
          nearest := Some(bl.name);
        }
      }
    }
    name := if nearest.Some? && nearest.value != "" then nearest.value else "Unknown";
  }

  // ---------------------------------------------------------------- features

  /** The geometry of a GeoJSON feature: rings of (longitude, latitude) points. */
  datatype Geometry =
    | Polygon(coordinates: seq<seq<(real, real)>>)
    | MultiPolygon(polygons: seq<seq<seq<(real, real)>>>)
    | OtherGeometry

  /** The geometries whose first rings exist (the source indexes `coords[0]` and `poly[0]`). */
  predicate Indexable(g: Geometry)
  {
    (g.Polygon? ==> |g.coordinates| > 0) &&
    (g.MultiPolygon? ==> forall i :: 0 <= i < |g.polygons| ==> |g.polygons[i]| > 0)
  }

  /** The candidate rings: a polygon's first ring, each part's first ring, nothing for other types. */
  function OuterRings(g: Geometry): seq<seq<(real, real)>>
    requires Indexable(g)
  {
    match g
    case Polygon(coordinates) => [coordinates[0]]
    case MultiPolygon(polygons) => seq(|polygons|, i requires 0 <= i < |polygons| => polygons[i][0])
    case OtherGeometry => []
  }

  /** Ring `i` has the largest area, and every earlier ring a smaller one (`max` keeps the first maximum). */
  predicate IsLargest(rings: seq<seq<Point2>>, i: nat)
  {
    i < |rings| &&
    (forall j :: 0 <= j < |rings| ==> Area(rings[j]) <= Area(rings[i])) &&
    (forall j :: 0 <= j < i ==> Area(rings[j]) < Area(rings[i]))
  }

  /** `max(polygons, key=polygon_area)`. */
  method LargestRing(rings: seq<seq<Point2>>) returns (best: nat)
    requires |rings| > 0
    ensures IsLargest(rings, best)
  {
    best := 0;
    var bestArea := PolygonArea(rings[0]);
    for i := 1 to |rings|
      invariant best < i
      invariant bestArea == Area(rings[best])
      invariant forall j :: 0 <= j < i ==> Area(rings[j]) <= bestArea
      invariant forall j :: 0 <= j < best ==> Area(rings[j]) < bestArea
    {
      var a := PolygonArea(rings[i]);
      if a > bestArea {
        best := i;
        bestArea := a;
      }
    }
  }

  /**
   * `_process_feature`: no state for other geometry types or no rings;
   * otherwise a state built from the largest ring at its configured
   * height, kept only when it has triangles, which it has whenever its
   * closed, simplified ring has at least three points. The source fails
   * with an index error when the largest ring is empty, so that ring must
   * have a point; any other ring may be empty.
   */
  method ProcessFeature(name: string, g: Geometry, colors: map<string, Color>,
                        cache: TC.TriangulationCache, fmt: real -> string, sha256Hex: string -> string)
    returns (bl: Option<Bundesland>)
    requires Indexable(g)
    requires forall i: nat :: IsLargest(OuterRings(g), i) ==> |OuterRings(g)[i]| > 0
    requires forall s :: |sha256Hex(s)| == 64
    modifies cache`entries, cache`modified
    ensures OuterRings(g) == [] ==> bl.None? && cache.entries == old(cache.entries)
    ensures OuterRings(g) != [] ==> exists i: nat :: (IsLargest(OuterRings(g), i) &&
      (|Ring(OuterRings(g)[i])| >= 3 ==> bl.Some?) &&
      (bl.Some? ==> bl.value.polygon == OuterRings(g)[i]))
    ensures bl.Some? ==> fresh(bl.value) && bl.value.name == name && bl.value.extrusion == HeightOf(name)
    ensures bl.Some? ==> bl.value.Valid() && bl.value.triangles != [] && bl.value.holes == []
  {
    var polygons := OuterRings(g);
    if polygons == [] {
      return None;
    }
    var largest := LargestRing(polygons);
    var height := HeightOf(name);
    var state := new Bundesland(name, polygons[largest], height, colors, cache, fmt, sha256Hex);
    if state.triangles != [] {
      bl := Some(state);
    } else {
      bl := None;
    }
    assert IsLargest(polygons, largest);
  }

  // ---------------------------------------------------------------- city-state holes

  /** `CITY_STATE_HOLES`: each surrounding state with the city states cut out of it. */
  const CityStateHoles: seq<(string, seq<string>)> :=
    [("Brandenburg", ["Berlin"]), ("Niedersachsen", ["Bremen"]), ("Schleswig-Holstein", ["Hamburg"])]

  /** `[(v[0], v[2]) for v in vertices_top]`: a state's outline on the x/z plane. */
  function Footprint(vs: seq<Vertex3>): seq<Point2>
  {
    seq(|vs|, i requires 0 <= i < |vs| => (vs[i].0, vs[i].2))
  }

  /** Top vertices of every state in a name map. */
  function TopsOf(m: map<string, Bundesland>): map<string, seq<Vertex3>>
    reads m.Values
  {
    map n | n in m :: m[n].verticesTop
  }

  /** The holes collected from a table of outlines: the outline of each listed city state that is present, in list order. */
  function HolesOf(tops: map<string, seq<Vertex3>>, names: seq<string>): seq<seq<Point2>>
  {
    if names == [] then []
    else
      var last := names[|names| - 1];
      HolesOf(tops, names[..|names| - 1]) + (if last in tops then [Footprint(tops[last])] else [])
  }

  /** Some holes are collected exactly when one of the listed city states is present. */
  lemma {:induction false} HolesOfEmpty(tops: map<string, seq<Vertex3>>, names: seq<string>)
    ensures HolesOf(tops, names) == [] <==> forall n :: n in names ==> n !in tops
  {
    if names != [] {
      var init := names[..|names| - 1];
      HolesOfEmpty(tops, init);
      assert forall n :: n in names <==> n in init || n == names[|names| - 1];
    }
  }

  /** The holes depend only on the outlines of the listed names. */
  lemma {:induction false} HolesOfAgree(t1: map<string, seq<Vertex3>>, t2: map<string, seq<Vertex3>>, names: seq<string>)
    requires forall n :: n in names ==> (n in t1 <==> n in t2) && (n in t1 ==> t1[n] == t2[n])
    ensures HolesOf(t1, names) == HolesOf(t2, names)
  {
    if names != [] {
      var init := names[..|names| - 1];
      assert forall n :: n in init ==> n in names;
      HolesOfAgree(t1, t2, init);
    }
  }

  /** The city states listed for a parent in a table, nothing for a name that is not a parent. */
  function HoleNames(table: seq<(string, seq<string>)>, parent: string): seq<string>
  {
    if table == [] then []
    else if table[|table| - 1].0 == parent then table[|table| - 1].1
    else HoleNames(table[..|table| - 1], parent)
  }

  /** The holes a state receives: those of its entry in `CityStateHoles`, taken from the outlines before punching. */
  function HolesFor(tops: map<string, seq<Vertex3>>, name: string): seq<seq<Point2>>
  {
    HolesOf(tops, HoleNames(CityStateHoles, name))
  }

  /** The object the name map keeps for the state's name (the last one in the list with that name). */
  predicate Chosen(bls: seq<Bundesland>, b: Bundesland)
  {
    b.name in NameMap(bls) && NameMap(bls)[b.name] == b
  }

  /** The inner loop of `_punch_holes_for_city_states`: the outline of each listed city state present in the map. */
  method CollectHoles(m: map<string, Bundesland>, names: seq<string>) returns (holes: seq<seq<Point2>>)
    ensures holes == HolesOf(TopsOf(m), names)
  {
    holes := [];
    for i := 0 to |names|
      invariant holes == HolesOf(TopsOf(m), names[..i])
    {
      var holeName := names[i];
      if holeName in m {
        holes := holes + [Footprint(m[holeName].verticesTop)];
      }
      assert names[..i + 1][..i] == names[..i];
    }
    assert names[..|names|] == names;
  }

  /** None of the fields hole punching may write has changed. */
  twostate predicate Untouched(b: Bundesland)
    reads b
  {
    b.holes == old(b.holes) && b.vertices2d == old(b.vertices2d) && b.verticesTop == old(b.verticesTop) &&
    b.verticesBottom == old(b.verticesBottom) && b.triangles == old(b.triangles)
  }

  /** The state has received `h` as its holes, and its outline has grown by them. */
  twostate predicate PunchedWith(b: Bundesland, new h: seq<seq<Point2>>)
    reads b
  {
    b.holes == h && b.vertices2d == old(b.vertices2d) + Flatten(h) && b.Valid()
  }

  /** The state holds holes `h` and the outline `outline` grown by them. */
  predicate Punched(b: Bundesland, h: seq<seq<Point2>>, outline: seq<Point2>)
    reads b
  {
    b.holes == h && b.vertices2d == outline + Flatten(h)
  }

  /** The holes handed out by the first `k` entries of `CityStateHoles`, by parent name. */
  ghost function DoneAfter(tops: map<string, seq<Vertex3>>, k: nat): map<string, seq<seq<Point2>>>
    requires k <= |CityStateHoles|
  {
    if k == 0 then map[]
    else
      var entry := CityStateHoles[k - 1];
      var d := DoneAfter(tops, k - 1);
      if entry.0 in tops && HolesOf(tops, entry.1) != [] then d[entry.0 := HolesOf(tops, entry.1)] else d
  }

  /** `DoneAfter` grows by one table entry at a time. */
  lemma DoneAfterStep(tops: map<string, seq<Vertex3>>, k: nat, parent: string, holeNames: seq<string>)
    requires k < |CityStateHoles| && CityStateHoles[k] == (parent, holeNames)
    ensures DoneAfter(tops, k + 1) ==
      if parent in tops && HolesOf(tops, holeNames) != [] then DoneAfter(tops, k)[parent := HolesOf(tops, holeNames)]
      else DoneAfter(tops, k)
  {
  }

  /** Entry `k` names a parent that is not a city state, not handled before, with only city states to cut out. */
  lemma TableEntry(tops: map<string, seq<Vertex3>>, k: nat)
    requires k < |CityStateHoles|
    ensures CityStateHoles[k].0 !in CityStates && CityStateHoles[k].0 !in DoneAfter(tops, k)
    ensures forall n :: n in CityStateHoles[k].1 ==> n in CityStates
  {
    assert DoneAfter(tops, 0) == map[];
    if k == 2 {
      assert DoneAfter(tops, 1).Keys <= {"Brandenburg"};
    }
  }

  /** After the whole table, exactly the present parents with some holes have received them: those of `HolesFor`. */
  lemma DoneAfterAll(tops: map<string, seq<Vertex3>>, n: string)
    ensures n in DoneAfter(tops, |CityStateHoles|) <==> n in tops && HolesFor(tops, n) != []
    ensures n in DoneAfter(tops, |CityStateHoles|) ==> DoneAfter(tops, |CityStateHoles|)[n] == HolesFor(tops, n)
  {
    var t := CityStateHoles;
    assert t[..2] == [t[0], t[1]] && t[..2][..1] == [t[0]] && t[..1][..0] == [];
    var d1, d2, d3 := DoneAfter(tops, 1), DoneAfter(tops, 2), DoneAfter(tops, 3);
    assert DoneAfter(tops, 0) == map[];
    assert d1 == if t[0].0 in tops && HolesOf(tops, t[0].1) != [] then map[t[0].0 := HolesOf(tops, t[0].1)] else map[];
    assert d2 == if t[1].0 in tops && HolesOf(tops, t[1].1) != [] then d1[t[1].0 := HolesOf(tops, t[1].1)] else d1;
    assert d3 == if t[2].0 in tops && HolesOf(tops, t[2].1) != [] then d2[t[2].0 := HolesOf(tops, t[2].1)] else d2;
    if n == t[2].0 {
      assert HoleNames(t, n) == t[2].1;
    } else if n == t[1].0 {
      assert HoleNames(t, n) == HoleNames(t[..2], n) == t[1].1;
    } else if n == t[0].0 {
      assert HoleNames(t, n) == HoleNames(t[..2], n) == HoleNames(t[..1], n) == t[0].1;
    } else {
      assert HoleNames(t, n) == HoleNames(t[..2], n) == HoleNames(t[..1], n) == HoleNames(t[..0], n) == [];
    }
  }

  /** The fields hole punching may write. */
  datatype Shape = Shape(holes: seq<seq<Point2>>, vertices2d: seq<Point2>, verticesTop: seq<Vertex3>,
                         verticesBottom: seq<Vertex3>, triangles: seq<Triangle>)

  function ShapeOf(b: Bundesland): Shape
    reads b
  {
    Shape(b.holes, b.vertices2d, b.verticesTop, b.verticesBottom, b.triangles)
  }

  /**
   * The shape `s` of state `b` against its shape `before` the loop: the
   * state the name map keeps for a parent in `done` holds that parent's
   * holes and the old outline grown by them; any other state still has
   * its old shape.
   */
  predicate ShapeMatches(s: Shape, b: Bundesland, m: map<string, Bundesland>, before: Shape, done: map<string, seq<seq<Point2>>>)
  {
    if b.name in done && b.name in m && m[b.name] == b then
      s.holes == done[b.name] && s.vertices2d == before.vertices2d + Flatten(done[b.name])
    else
      s == before
  }

  predicate Matches(b: Bundesland, m: map<string, Bundesland>, before: Shape, done: map<string, seq<seq<Point2>>>)
    reads b
  {
    ShapeMatches(ShapeOf(b), b, m, before, done)
  }

  /** Only parents of `CityStateHoles` ever receive holes, and city states are none of them. */
  lemma {:induction false} DoneAfterNoCity(tops: map<string, seq<Vertex3>>, k: nat)
    requires k <= |CityStateHoles|
    ensures forall n :: n in DoneAfter(tops, k) ==> n !in CityStates
  {
    if k > 0 {
      DoneAfterNoCity(tops, k - 1);
      TableEntry(tops, k - 1);
    }
  }

  /** While the table is processed, the city states keep the outlines they had before. */
  lemma CityOutlines(bls: seq<Bundesland>, m: map<string, Bundesland>, tops: map<string, seq<Vertex3>>,
                     before: map<Bundesland, Shape>, k: nat)
    requires k <= |CityStateHoles|
    requires forall n :: n in m ==> m[n].name == n && m[n] in bls
    requires forall b :: b in bls ==> b in before && Matches(b, m, before[b], DoneAfter(tops, k))
    requires forall n :: n in m && n in CityStates ==> n in tops && before[m[n]].verticesTop == tops[n]
    ensures forall n :: n in m && n in CityStates ==> m[n].verticesTop == tops[n]
  {
    DoneAfterNoCity(tops, k);
    forall n | n in m && n in CityStates
      ensures m[n].verticesTop == tops[n]
    {
      assert Matches(m[n], m, before[m[n]], DoneAfter(tops, k));
    }
  }

  /** One state keeps matching across one entry of the table. */
  lemma ShapeStep(s0: Shape, s1: Shape, b: Bundesland, m: map<string, Bundesland>, before: Shape,
                  done: map<string, seq<seq<Point2>>>, parent: string, holes: seq<seq<Point2>>, punched: bool)
    requires ShapeMatches(s0, b, m, before, done)
    requires punched ==> parent in m && parent !in done && b == m[parent] && b.name == parent
    requires punched ==> s1.holes == holes && s1.vertices2d == s0.vertices2d + Flatten(holes)
    requires !punched ==> s1 == s0
    ensures ShapeMatches(s1, b, m, before, if punched then done[parent := holes] else done)
  {
  }

  /**
   * One entry of `CityStateHoles`: when the parent is present and at least
   * one of its city states is, the parent's state receives their outlines
   * as holes; nothing else changes.
   */
  method PunchParent(bls: seq<Bundesland>, m: map<string, Bundesland>, parent: string, holeNames: seq<string>)
    returns (ghost holes: seq<seq<Point2>>)
    requires forall n :: n in m ==> m[n].name == n && m[n] in bls
    requires forall b :: b in bls ==> b.Valid()
    modifies bls`holes, bls`vertices2d, bls`verticesTop, bls`verticesBottom, bls`triangles
    ensures holes == old(HolesOf(TopsOf(m), holeNames))
    ensures forall b :: b in bls ==> b.Valid()
    ensures parent in m && holes != [] ==> Punched(m[parent], holes, old(m[parent].vertices2d))
    ensures forall b :: b in bls && !(parent in m && holes != [] && b == m[parent]) ==> ShapeOf(b) == old(ShapeOf(b))
  {
    holes := HolesOf(TopsOf(m), holeNames);
    if parent !in m {
      return;
    }
    var parentState := m[parent];
    var collected := CollectHoles(m, holeNames);
    if collected != [] {
      parentState.AddHoles(collected);
    }
  }

  /**
   * The first `k` entries of `CityStateHoles` are done: `done` records the
   * parents that received holes, and every state is valid and matches
   * its shape `before` the loop.
   */
  ghost predicate Progress(bls: seq<Bundesland>, m: map<string, Bundesland>, tops: map<string, seq<Vertex3>>,
                           before: map<Bundesland, Shape>, done: map<string, seq<seq<Point2>>>, k: nat)
    reads bls
  {
    k <= |CityStateHoles| && done == DoneAfter(tops, k) &&
    forall b :: b in bls ==> b in before && b.Valid() && Matches(b, m, before[b], done)
  }

  /** One iteration of the loop over `CityStateHoles`. */
  method PunchStep(bls: seq<Bundesland>, m: map<string, Bundesland>, k: nat, ghost tops: map<string, seq<Vertex3>>,
                   ghost before: map<Bundesland, Shape>, ghost done: map<string, seq<seq<Point2>>>)
    returns (ghost done': map<string, seq<seq<Point2>>>)
    requires k < |CityStateHoles|
    requires forall n :: n in m ==> m[n].name == n && m[n] in bls
    requires tops.Keys == m.Keys
    requires forall n :: n in m && n in CityStates ==> m[n] in before && before[m[n]].verticesTop == tops[n]
    requires Progress(bls, m, tops, before, done, k)
    modifies bls`holes, bls`vertices2d, bls`verticesTop, bls`verticesBottom, bls`triangles
    ensures Progress(bls, m, tops, before, done', k + 1)
  {
    var (parent, holeNames) := CityStateHoles[k];
    TableEntry(tops, k);
    CityOutlines(bls, m, tops, before, k);
    HolesOfAgree(TopsOf(m), tops, holeNames);
    ghost var holes := PunchParent(bls, m, parent, holeNames);
    DoneAfterStep(tops, k, parent, holeNames);
    done' := if parent in m && holes != [] then done[parent := holes] else done;
    forall b | b in bls
      ensures Matches(b, m, before[b], done')
    {
      ShapeStep(old(ShapeOf(b)), ShapeOf(b), b, m, before[b], done, parent, holes, parent in m && holes != [] && b == m[parent]);
    }
  }

  /**
   * The loop of `_punch_holes_for_city_states` over `CityStateHoles`, for the
   * name map `m` and the outlines `tops` of its states: the kept states
   * named in `DoneAfter` hold their holes, all others are left alone.
   */
  method PunchAll(bls: seq<Bundesland>, m: map<string, Bundesland>, ghost tops: map<string, seq<Vertex3>>)
    returns (ghost done: map<string, seq<seq<Point2>>>)
    requires forall n :: n in m ==> m[n].name == n && m[n] in bls
    requires tops == TopsOf(m)
    requires forall b :: b in bls ==> b.Valid()
    modifies bls`holes, bls`vertices2d, bls`verticesTop, bls`verticesBottom, bls`triangles
    ensures done == DoneAfter(tops, |CityStateHoles|)
    ensures forall b :: b in bls ==> b.Valid() && Matches(b, m, old(ShapeOf(b)), done)
  {
    ghost var before := map b | b in bls :: ShapeOf(b);
    assert tops.Keys == m.Keys;
    done := map[];
    for k := 0 to |CityStateHoles|
      invariant Progress(bls, m, tops, before, done, k)
    {
      done := PunchStep(bls, m, k, tops, before, done);
    }
  }

  /**
   * `_punch_holes_for_city_states`: the state the name map keeps for a
   * parent of `CityStateHoles` gets the outlines of its present city
   * states as holes, and its outline grows by them, when there is at least
   * one; every other state is left alone.
   */
  method PunchHolesForCityStates(bls: seq<Bundesland>)
    requires forall b :: b in bls ==> b.Valid()
    modifies bls`holes, bls`vertices2d, bls`verticesTop, bls`verticesBottom, bls`triangles
    ensures forall b :: b in bls ==> b.Valid()
    ensures forall b :: b in bls && Chosen(bls, b) && HolesFor(old(TopsOf(NameMap(bls))), b.name) != [] ==>
      PunchedWith(b, HolesFor(old(TopsOf(NameMap(bls))), b.name))
    ensures forall b :: b in bls && !(Chosen(bls, b) && HolesFor(old(TopsOf(NameMap(bls))), b.name) != []) ==>
      Untouched(b)
  {
    var m := BuildNameMap(bls);
    ghost var tops := TopsOf(m);
    forall n | n in m
      ensures m[n].name == n && m[n] in bls
    {
      NameMapSpec(bls, n);
    }
    ghost var done := PunchAll(bls, m, tops);
    forall b | b in bls
      ensures b.name in done <==> b.name in m && HolesFor(tops, b.name) != []
      ensures b.name in done ==> done[b.name] == HolesFor(tops, b.name)
      ensures Chosen(bls, b) <==> b.name in m && m[b.name] == b
    {
      DoneAfterAll(tops, b.name);
    }
  }

  // ---------------------------------------------------------------- turbines

  /** Height of a turbine: `(0.04 + power / 10000 * 0.05) * scale`. */
  function TurbineHeight(powerKw: real, scale: real): real
  {
    (0.04 + powerKw / 10000.0 * 0.05) * scale
  }

  /** Rotor radius: 0.4 of the height. */
  function RotorRadius(height: real): real
  {
    height * 0.4
  }

  /** At a positive scale, stronger turbines are taller and every turbine of non-negative power is visible and taller than its rotor radius. */
  lemma TurbineSize(p1: real, p2: real, scale: real)
    requires scale > 0.0
    ensures p1 < p2 ==> TurbineHeight(p1, scale) < TurbineHeight(p2, scale)
    ensures p1 >= 0.0 ==> TurbineHeight(p1, scale) >= 0.04 * scale > 0.0
    ensures p1 >= 0.0 ==> 0.0 < RotorRadius(TurbineHeight(p1, scale)) < TurbineHeight(p1, scale)
  {
    if p1 < p2 {
      assert 0.04 + p1 / 10000.0 * 0.05 < 0.04 + p2 / 10000.0 * 0.05;
    }
  }

  /** A row of turbine data after the state lookups. */
  datatype TurbineRecord = TurbineRecord(x: real, z: real, power: real, year: int, blName: Option<string>, blHeight: real)

  function YearKey(r: TurbineRecord): real
  {
    r.year as real
  }

  /** `turbine_data.sort(key=lambda t: t['year'])`. */
  function SortByYear(records: seq<TurbineRecord>): (r: seq<TurbineRecord>)
    ensures multiset(r) == multiset(records)
    ensures forall i, j :: 0 <= i < j < |r| ==> r[i].year <= r[j].year
  {
    var r := SortBy(records, YearKey);
    assert SortedBy(r, YearKey);
    r
  }

  /** Records already in year order are left as they are. */
  lemma SortByYearSorted(records: seq<TurbineRecord>)
    requires forall i, j :: 0 <= i < j < |records| ==> records[i].year <= records[j].year
    ensures SortByYear(records) == records
  {
    SortBySorted(records, YearKey);
  }

  /** The sort is stable: the records of each year keep their input order. */
  lemma SortByYearStable(records: seq<TurbineRecord>, year: int)
    ensures WithKey(SortByYear(records), YearKey, year as real) == WithKey(records, YearKey, year as real)
  {
    SortByStable(records, YearKey, year as real);
  }
}
