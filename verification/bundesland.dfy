/** A German state as an extruded block: colours, vertex lists, holes and height (geometry/bundesland.py). */
module BundeslandGeometry {
  import opened Common
  import opened Triangulation
  import TC = TriangulationCache

  type Color = (real, real, real)

  /** A vertex `(x, y, z)`; `y` is the height. */
  type Vertex3 = (real, real, real)

  /** The map bounds in degrees. */
  const LonMin: real := 5.87
  const LonMax: real := 15.04
  const LatMin: real := 47.27
  const LatMax: real := 55.06

  /** Target vertex count of the polygon simplification. */
  const PolygonSimplification: nat := 1000

  /** The city states, which the lookups test before every other state. */
  const CityStates: set<string> := {"Berlin", "Hamburg", "Bremen"}

  /** Colour of a state without an entry in the colour table. */
  const DefaultBase: Color := (0.8, 0.8, 0.8)

  /** One channel darkened by `d`, clamped at 0. */
  function DarkenChannel(c: real, d: real): (r: real)
    ensures r >= 0.0
    ensures c >= d ==> r == c - d
    ensures c < d ==> r == 0.0
    ensures d >= 0.0 && c >= 0.0 ==> r <= c
  {
    MaxReal(0.0, c - d)
  }

  /** Every channel darkened by `d`. */
  function Darken(c: Color, d: real): Color
  {
    (DarkenChannel(c.0, d), DarkenChannel(c.1, d), DarkenChannel(c.2, d))
  }

  /** The table colour of `name`, or the default grey. */
  function BaseColor(name: string, colors: map<string, Color>): Color
  {
    if name in colors then colors[name] else DefaultBase
  }

  /** `_gps_to_3d`: longitude to x, latitude to z (north is negative z). */
  function GpsToXZ(lon: real, lat: real): (p: Point2)
    ensures lon == LonMin ==> p.0 == -1.1
    ensures lon == LonMax ==> p.0 == 1.1
    ensures lat == LatMin ==> p.1 == 1.3
    ensures lat == LatMax ==> p.1 == -1.3
  {
    var nx := (lon - LonMin) / (LonMax - LonMin);
    var nz := (lat - LatMin) / (LatMax - LatMin);
    ((nx - 0.5) * 2.2, -(nz - 0.5) * 2.6)
  }

  /** The map is affine: x grows with longitude and z falls with latitude, at constant rates. */
  lemma GpsToXZAffine(lon1: real, lat1: real, lon2: real, lat2: real)
    ensures GpsToXZ(lon2, lat2).0 - GpsToXZ(lon1, lat1).0 == (lon2 - lon1) * 2.2 / (LonMax - LonMin)
    ensures GpsToXZ(lon2, lat2).1 - GpsToXZ(lon1, lat1).1 == -(lat2 - lat1) * 2.6 / (LatMax - LatMin)
    ensures lon1 < lon2 ==> GpsToXZ(lon1, lat1).0 < GpsToXZ(lon2, lat2).0
    ensures lat1 < lat2 ==> GpsToXZ(lon1, lat1).1 > GpsToXZ(lon2, lat2).1
  {
  }

  /** `step = max(1, len // POLYGON_SIMPLIFICATION)`. */
  function Step(n: nat): (s: nat)
    ensures s >= 1
  {
    if n / PolygonSimplification >= 1 then n / PolygonSimplification else 1
  }

  /** `[polygon[i] for i in range(0, len, step)]`. */
  function Sample<T>(poly: seq<T>, step: nat): (r: seq<T>)
    requires step >= 1
    ensures |r| > 0 <==> |poly| > 0
    decreases |poly|
  {
    if |poly| == 0 then []
    else if |poly| <= step then [poly[0]]
    else [poly[0]] + Sample(poly[step..], step)
  }

  /** The sample holds exactly the elements at multiples of `step`, and reaches the end of the polygon. */
  lemma {:induction false} SampleSpec<T>(poly: seq<T>, step: nat)
    requires step >= 1
    ensures forall i :: 0 <= i < |Sample(poly, step)| ==> i * step < |poly| && Sample(poly, step)[i] == poly[i * step]
    ensures |poly| > 0 ==> (|Sample(poly, step)| - 1) * step < |poly| <= |Sample(poly, step)| * step
    decreases |poly|
  {
    if |poly| > step {
      var rest := Sample(poly[step..], step);
      SampleSpec(poly[step..], step);
      assert Sample(poly, step) == [poly[0]] + rest;
      forall i | 0 <= i < |Sample(poly, step)|
        ensures i * step < |poly| && Sample(poly, step)[i] == poly[i * step]
      {
        if i > 0 {
          assert (i - 1) * step < |poly[step..]| && rest[i - 1] == poly[step..][(i - 1) * step];
          assert i * step == (i - 1) * step + step;
        }
      }
      assert (|rest| - 1) * step + step == (|Sample(poly, step)| - 1) * step;
      assert |rest| * step + step == |Sample(poly, step)| * step;
    }
  }

  /** Closing the ring: the first point is appended when the last one differs. */
  function Closed<T(==)>(s: seq<T>): (r: seq<T>)
    requires |s| > 0
    ensures |r| == (if s[0] == s[|s| - 1] then |s| else |s| + 1)
    ensures r[0] == r[|r| - 1]
    ensures r[..|s|] == s
  {
    if s[0] != s[|s| - 1] then s + [s[0]] else s
  }

  /** The simplified, closed ring of a non-empty polygon in degrees. */
  function Ring(polygon: seq<(real, real)>): seq<(real, real)>
    requires |polygon| > 0
  {
    Closed(Sample(polygon, Step(|polygon|)))
  }

  /** Map coordinates of each point of a ring. */
  function Projected(ring: seq<(real, real)>): (r: seq<Point2>)
    ensures |r| == |ring|
  {
    seq(|ring|, i requires 0 <= i < |ring| => GpsToXZ(ring[i].0, ring[i].1))
  }

  /** The 2-D vertices lifted to height `y`. */
  function Lift(v: seq<Point2>, y: real): (r: seq<Vertex3>)
    ensures |r| == |v|
  {
    seq(|v|, i requires 0 <= i < |v| => (v[i].0, y, v[i].1))
  }

  /** All points of the holes, hole by hole. */
  function Flatten(holes: seq<seq<Point2>>): seq<Point2>
  {
    if holes == [] then [] else Flatten(holes[..|holes| - 1]) + holes[|holes| - 1]
  }

  /** The conversion loop of `_build_vertices`: one entry per ring point in each of the three lists. */
  method ProjectRing(ring: seq<(real, real)>, extrusion: real) returns (v2: seq<Point2>, top: seq<Vertex3>, bottom: seq<Vertex3>)
    ensures v2 == Projected(ring)
    ensures top == Lift(v2, extrusion) && bottom == Lift(v2, 0.0)
  {
    v2, top, bottom := [], [], [];
    for i := 0 to |ring|
      invariant v2 == Projected(ring[..i])
      invariant top == Lift(v2, extrusion) && bottom == Lift(v2, 0.0)
    {
      var p := GpsToXZ(ring[i].0, ring[i].1);
      v2 := v2 + [p];
      top := top + [(p.0, extrusion, p.1)];
      bottom := bottom + [(p.0, 0.0, p.1)];
    }
    assert ring[..|ring|] == ring;
  }

  /** The hole loop of `add_holes`: the hole points appended to the three lists, in order. */
  method AppendHoles(v2: seq<Point2>, extrusion: real, holes: seq<seq<Point2>>)
    returns (v2': seq<Point2>, top': seq<Vertex3>, bottom': seq<Vertex3>)
    ensures v2' == v2 + Flatten(holes)
    ensures top' == Lift(v2', extrusion) && bottom' == Lift(v2', 0.0)
  {
    v2', top', bottom' := v2, Lift(v2, extrusion), Lift(v2, 0.0);
    for h := 0 to |holes|
      invariant v2' == v2 + Flatten(holes[..h])
      invariant top' == Lift(v2', extrusion) && bottom' == Lift(v2', 0.0)
    {
      assert holes[..h + 1][..h] == holes[..h];
      for k := 0 to |holes[h]|
        invariant v2' == v2 + Flatten(holes[..h]) + holes[h][..k]
        invariant top' == Lift(v2', extrusion) && bottom' == Lift(v2', 0.0)
      {
        var p := holes[h][k];
        assert holes[h][..k + 1] == holes[h][..k] + [p];
        v2' := v2' + [p];
        top' := top' + [(p.0, extrusion, p.1)];
        bottom' := bottom' + [(p.0, 0.0, p.1)];
      }
      assert holes[h][..|holes[h]|] == holes[h];
    }
    assert holes[..|holes|] == holes;
  }

  /** `Bundesland`: name, height, source polygon, colours, vertex lists, triangles and holes. */
  class Bundesland {
    const name: string
    const polygon: seq<(real, real)>
    const topColor: Color
    const sideColor: Color
    const edgeColor: Color
    var extrusion: real
    var vertices2d: seq<Point2>
    var verticesTop: seq<Vertex3>
    var verticesBottom: seq<Vertex3>
    var triangles: seq<Triangle>
    var holes: seq<seq<Point2>>
    /** `_bbox`, set by the loader: (min x, max x, min z, max z) of the top vertices. */
    var bbox: Option<(real, real, real, real)>

    /** The three vertex lists agree: same x and z, top at the extrusion height, bottom at 0. */
    predicate Valid()
      reads this
    {
      verticesTop == Lift(vertices2d, extrusion) && verticesBottom == Lift(vertices2d, 0.0)
    }

    /**
     * `__init__`: colours, the simplified closed ring in map coordinates,
     * and the triangulation, taken from the cache when it holds a non-empty
     * one for this name and hash, and otherwise computed and stored there.
     * `fmt` and `sha256Hex` are the hash's formatting and digest.
     */
    constructor (name: string, polygon: seq<(real, real)>, extrusion: real, colors: map<string, Color>,
                 cache: TC.TriangulationCache, fmt: real -> string, sha256Hex: string -> string)
      requires |polygon| > 0
      requires forall s :: |sha256Hex(s)| == 64
      modifies cache`entries, cache`modified
      ensures this.name == name && this.polygon == polygon && this.extrusion == extrusion
      ensures topColor == BaseColor(name, colors)
      ensures sideColor == Darken(topColor, 0.2) && edgeColor == Darken(topColor, 0.4)
      ensures vertices2d == Projected(Ring(polygon)) && Valid()
      ensures holes == [] && bbox == None
      ensures
        var h := TC.HashPolygon(vertices2d, fmt, sha256Hex);
        var hit := TC.Lookup(old(cache.entries), name, h);
        if hit.Some? && hit.value != [] then
          triangles == hit.value && cache.entries == old(cache.entries) && cache.modified == old(cache.modified)
        else
          cache.entries == old(cache.entries)[name := TC.Entry(Some(h), triangles)] && cache.modified &&
          triangles == Triangles(vertices2d) &&
          (|vertices2d| >= 3 ==> |triangles| == |vertices2d| - 2) &&
          (|vertices2d| < 3 ==> triangles == []) &&
          forall k :: 0 <= k < |triangles| ==> TriangleOk(triangles[k], |vertices2d|)
    {
      var base := BaseColor(name, colors);
      var v2, top, bottom := ProjectRing(Ring(polygon), extrusion);
      var h := TC.HashPolygon(v2, fmt, sha256Hex);
      var cached := cache.Get(name, h);
      var tris: seq<Triangle>;
      if cached.Some? && cached.value != [] {
        tris := cached.value;
      } else {
        tris := Triangulate(v2);
        cache.Set(name, h, tris);
      }
      this.name := name;
      this.polygon := polygon;
      this.extrusion := extrusion;
      topColor := base;
      sideColor := Darken(base, 0.2);
      edgeColor := Darken(base, 0.4);
      vertices2d := v2;
      verticesTop := top;
      verticesBottom := bottom;
      triangles := tris;
      holes := [];
      bbox := None;
    }

    /**
     * `add_holes`: the hole points are appended after the outer ring, which
     * stays as it was, and the triangles are recomputed from the outer ring.
     */
    method AddHoles(newHoles: seq<seq<Point2>>)
      requires Valid()
      modifies this`holes, this`vertices2d, this`verticesTop, this`verticesBottom, this`triangles
      ensures holes == newHoles
      ensures vertices2d == old(vertices2d) + Flatten(newHoles) && Valid()
      ensures vertices2d[..|old(vertices2d)|] == old(vertices2d)
      ensures triangles == Triangles(old(vertices2d))
      ensures |old(vertices2d)| >= 3 ==> |triangles| == |old(vertices2d)| - 2
      ensures |old(vertices2d)| < 3 ==> triangles == []
      ensures forall k :: 0 <= k < |triangles| ==> TriangleOk(triangles[k], |old(vertices2d)|)
    {
      var outer := vertices2d;
      var v2, top, bottom := AppendHoles(outer, extrusion, newHoles);
      var tris := TriangulateWithHoles(outer, newHoles);
      holes := newHoles;
      vertices2d := v2;
      verticesTop := top;
      verticesBottom := bottom;
      triangles := tris;
    }

    /** `update_height`: every top vertex moves to the new height; x, z and the bottom stay. */
    method UpdateHeight(newHeight: real)
      modifies this`extrusion, this`verticesTop
      ensures extrusion == newHeight
      ensures |verticesTop| == |old(verticesTop)|
      ensures forall i :: 0 <= i < |verticesTop| ==>
        verticesTop[i] == (old(verticesTop)[i].0, newHeight, old(verticesTop)[i].2)
      ensures old(Valid()) ==> Valid()
    {
      extrusion := newHeight;
      verticesTop := seq(|verticesTop|, i requires 0 <= i < |verticesTop| reads this => (verticesTop[i].0, newHeight, verticesTop[i].2));
    }
  }

  /** `{bl.name: bl for bl in bundeslaender}`. */
  function NameMap(bls: seq<Bundesland>): map<string, Bundesland>
    decreases |bls|
  {
    if bls == [] then map[]
    else NameMap(bls[..|bls| - 1])[bls[|bls| - 1].name := bls[|bls| - 1]]
  }

  /** The keys are the names of the listed states, each mapped to a listed state of that name. */
  lemma {:induction false} NameMapSpec(bls: seq<Bundesland>, n: string)
    ensures n in NameMap(bls) <==> exists i :: 0 <= i < |bls| && bls[i].name == n
    ensures n in NameMap(bls) ==> NameMap(bls)[n].name == n && NameMap(bls)[n] in bls
    decreases |bls|
  {
    if bls != [] {
      var init := bls[..|bls| - 1];
      NameMapSpec(init, n);
      assert forall i :: 0 <= i < |init| ==> init[i] == bls[i];
      if n != bls[|bls| - 1].name && exists i :: 0 <= i < |bls| && bls[i].name == n {
        var i :| 0 <= i < |bls| && bls[i].name == n;
        assert init[i].name == n;
      }
    }
  }

  /** A later state with the same name wins: the last state of each name is the one kept. */
  lemma {:induction false} NameMapLastWins(bls: seq<Bundesland>, i: nat)
    requires i < |bls|
    requires forall j :: i < j < |bls| ==> bls[j].name != bls[i].name
    ensures bls[i].name in NameMap(bls) && NameMap(bls)[bls[i].name] == bls[i]
    decreases |bls|
  {
    if i < |bls| - 1 {
      var init := bls[..|bls| - 1];
      assert init[i] == bls[i];
      NameMapLastWins(init, i);
    }
  }

  /** The dictionary comprehension as a loop over the states. */
  method BuildNameMap(bls: seq<Bundesland>) returns (r: map<string, Bundesland>)
    ensures r == NameMap(bls)
  {
    r := map[];
    for i := 0 to |bls|
      invariant r == NameMap(bls[..i])
    {
      assert bls[..i + 1][..i] == bls[..i];
      r := r[bls[i].name := bls[i]];
    }
    assert bls[..|bls|] == bls;
  }

  /** `sum(v[0] for v in vs)` and `sum(v[2] for v in vs)`. */
  function SumX(vs: seq<Vertex3>): real
  {
    if vs == [] then 0.0 else SumX(vs[..|vs| - 1]) + vs[|vs| - 1].0
  }

  function SumZ(vs: seq<Vertex3>): real
  {
    if vs == [] then 0.0 else SumZ(vs[..|vs| - 1]) + vs[|vs| - 1].2
  }
}
