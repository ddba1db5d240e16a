/**
 * Six-plane view frustum and the culling filters built on it
 * (windturbine/frustum_culling.py). Square roots and trigonometric values
 * are inputs: `Normalize` receives the length of the plane normal, and the
 * camera extraction receives the four side planes it derives from sin, cos
 * and tan.
 */
module Frustum {
  import opened Common
  import opened Turbine

  /** A plane a*x + b*y + c*z + d = 0; points with non-negative distance are on the visible side. */
  datatype Plane = Plane(a: real, b: real, c: real, d: real)
  {
    function Distance(x: real, y: real, z: real): real
    {
      a * x + b * y + c * z + d
    }

    function NormSq(): real
    {
      a * a + b * b + c * c
    }
  }

  /** `Plane.normalize`; `length` is the square root of the squared normal length. */
  function Normalize(p: Plane, length: real): (r: Plane)
    requires length >= 0.0 && length * length == p.NormSq()
    ensures length == 0.0 ==> r == p
    ensures length > 0.0 ==> r.a * length == p.a && r.b * length == p.b && r.c * length == p.c && r.d * length == p.d
  {
    if length > 0.0 then
      Plane(p.a / length, p.b / length, p.c / length, p.d / length)
    else
      p
  }

  /** Multiplying by a positive factor keeps the sign. */
  lemma ScaledSign(u: real, length: real, v: real)
    requires length > 0.0 && u * length == v
    ensures u >= 0.0 <==> v >= 0.0
  {
    if u < 0.0 {
      assert (-u) * length > 0.0;
    }
  }

  lemma ScaledDistance(p: Plane, r: Plane, length: real, x: real, y: real, z: real)
    requires r.a * length == p.a && r.b * length == p.b && r.c * length == p.c && r.d * length == p.d
    ensures r.Distance(x, y, z) * length == p.Distance(x, y, z)
  {
    calc {
      r.Distance(x, y, z) * length;
      (r.a * x + r.b * y + r.c * z + r.d) * length;
      (r.a * length) * x + (r.b * length) * y + (r.c * length) * z + r.d * length;
      p.Distance(x, y, z);
    }
  }

  lemma PositiveSquare(u: real)
    requires u > 0.0
    ensures u * u > 0.0
  {
  }

  lemma UnitFactor(u: real, length: real)
    requires length > 0.0 && u * (length * length) == length * length
    ensures u == 1.0
  {
    PositiveSquare(length);
  }

  lemma ScaledNorm(p: Plane, r: Plane, length: real)
    requires length > 0.0 && length * length == p.NormSq()
    requires r.a * length == p.a && r.b * length == p.b && r.c * length == p.c
    ensures r.NormSq() == 1.0
  {
    assert (r.a * length) * (r.a * length) == (r.a * r.a) * (length * length);
    assert (r.b * length) * (r.b * length) == (r.b * r.b) * (length * length);
    assert (r.c * length) * (r.c * length) == (r.c * r.c) * (length * length);
    calc {
      r.NormSq() * (length * length);
      (r.a * r.a) * (length * length) + (r.b * r.b) * (length * length) + (r.c * r.c) * (length * length);
      (r.a * length) * (r.a * length) + (r.b * length) * (r.b * length) + (r.c * length) * (r.c * length);
      p.a * p.a + p.b * p.b + p.c * p.c;
      length * length;
    }
    UnitFactor(r.NormSq(), length);
  }

  /** Normalising yields a unit normal and leaves every point on the same side of the plane. */
  lemma NormalizeKeepsSide(p: Plane, length: real, x: real, y: real, z: real)
    requires length >= 0.0 && length * length == p.NormSq()
    ensures length > 0.0 ==> Normalize(p, length).NormSq() == 1.0
    ensures Normalize(p, length).Distance(x, y, z) >= 0.0 <==> p.Distance(x, y, z) >= 0.0
  {
    var r := Normalize(p, length);
    if length > 0.0 {
      ScaledDistance(p, r, length, x, y, z);
      ScaledSign(r.Distance(x, y, z), length, p.Distance(x, y, z));
      ScaledNorm(p, r, length);
    }
  }

  // Indices into the plane list.
  const NearIdx := 0
  const FarIdx := 1
  const LeftIdx := 2
  const RightIdx := 3
  const TopIdx := 4
  const BottomIdx := 5

  /** The fixed top and bottom planes of the camera extraction: everything with -10 <= y <= 10. */
  const CameraTop := Plane(0.0, -1.0, 0.0, 10.0)
  const CameraBottom := Plane(0.0, 1.0, 0.0, 10.0)

  /** Every plane has the point on its visible side. */
  predicate PointPasses(planes: seq<Plane>, x: real, y: real, z: real)
  {
    forall i :: 0 <= i < |planes| ==> planes[i].Distance(x, y, z) >= 0.0
  }

  /** No plane has the sphere entirely behind it. */
  predicate SpherePasses(planes: seq<Plane>, x: real, y: real, z: real, radius: real)
  {
    forall i :: 0 <= i < |planes| ==> planes[i].Distance(x, y, z) >= -radius
  }

  lemma SpherePassesSnoc(planes: seq<Plane>, p: Plane, x: real, y: real, z: real, radius: real)
    ensures SpherePasses(planes + [p], x, y, z, radius) <==>
            SpherePasses(planes, x, y, z, radius) && p.Distance(x, y, z) >= -radius
  {
    var s := planes + [p];
    assert s[|planes|] == p;
    assert forall i :: 0 <= i < |planes| ==> s[i] == planes[i];
  }

  /** An axis-aligned box in three dimensions. */
  datatype Box3 = Box3(xMin: real, xMax: real, yMin: real, yMax: real, zMin: real, zMax: real)
  {
    predicate WellFormed()
    {
      xMin <= xMax && yMin <= yMax && zMin <= zMax
    }

    predicate Contains(x: real, y: real, z: real)
    {
      xMin <= x <= xMax && yMin <= y <= yMax && zMin <= z <= zMax
    }
  }

  /** The corner of the box furthest along the plane normal (the "p-vertex"). */
  function PVertexDistance(p: Plane, box: Box3): real
  {
    var px := if p.a >= 0.0 then box.xMax else box.xMin;
    var py := if p.b >= 0.0 then box.yMax else box.yMin;
    var pz := if p.c >= 0.0 then box.zMax else box.zMin;
    p.Distance(px, py, pz)
  }

  predicate AabbPasses(planes: seq<Plane>, box: Box3)
  {
    forall i :: 0 <= i < |planes| ==> PVertexDistance(planes[i], box) >= 0.0
  }

  /** A point test that passes implies the sphere test passes for any non-negative radius. */
  lemma {:induction false} PointImpliesSphere(planes: seq<Plane>, x: real, y: real, z: real, radius: real)
    requires radius >= 0.0 && PointPasses(planes, x, y, z)
    ensures SpherePasses(planes, x, y, z, radius)
  {
    forall i | 0 <= i < |planes|
      ensures planes[i].Distance(x, y, z) >= -radius
    {
      assert planes[i].Distance(x, y, z) >= 0.0;
    }
  }

  /** The p-vertex maximises the signed distance over the box. */
  lemma PVertexMaximises(p: Plane, box: Box3, x: real, y: real, z: real)
    requires box.Contains(x, y, z)
    ensures PVertexDistance(p, box) >= p.Distance(x, y, z)
  {
    var px := if p.a >= 0.0 then box.xMax else box.xMin;
    var py := if p.b >= 0.0 then box.yMax else box.yMin;
    var pz := if p.c >= 0.0 then box.zMax else box.zMin;
    assert p.a * (px - x) >= 0.0;
    assert p.b * (py - y) >= 0.0;
    assert p.c * (pz - z) >= 0.0;
    assert p.Distance(px, py, pz) - p.Distance(x, y, z) == p.a * (px - x) + p.b * (py - y) + p.c * (pz - z);
  }

  /** The box test never culls a box that holds a point passing every plane. */
  lemma InsidePointKeepsBox(planes: seq<Plane>, box: Box3, x: real, y: real, z: real)
    requires box.Contains(x, y, z) && PointPasses(planes, x, y, z)
    ensures AabbPasses(planes, box)
  {
    forall i | 0 <= i < |planes|
      ensures PVertexDistance(planes[i], box) >= 0.0
    {
      PVertexMaximises(planes[i], box, x, y, z);
    }
  }

  /** Every height within [-10, 10] passes the fixed top and bottom planes. */
  lemma CameraTopBottomPass(x: real, y: real, z: real)
    ensures CameraTop.Distance(x, y, z) >= 0.0 && CameraBottom.Distance(x, y, z) >= 0.0 <==> -10.0 <= y <= 10.0
  {
  }

  // ---- Plane extraction from a projection and model-view matrix (Gribb and Hartmann) ----

  predicate IsMat4(m: seq<seq<real>>)
  {
    |m| == 4 && forall i :: 0 <= i < 4 ==> |m[i]| == 4
  }

  /** The matrix product `np.dot(p, m)` of two 4x4 matrices. */
  function MatMul(p: seq<seq<real>>, m: seq<seq<real>>): (r: seq<seq<real>>)
    requires IsMat4(p) && IsMat4(m)
    ensures IsMat4(r)
  {
    seq(4, i requires 0 <= i < 4 =>
      seq(4, j requires 0 <= j < 4 =>
        p[i][0] * m[0][j] + p[i][1] * m[1][j] + p[i][2] * m[2][j] + p[i][3] * m[3][j]))
  }

  /** Row `row` of `clip` applied to the homogeneous point (x, y, z, 1). */
  function ClipCoord(clip: seq<seq<real>>, row: nat, x: real, y: real, z: real): real
    requires IsMat4(clip) && row < 4
  {
    clip[row][0] * x + clip[row][1] * y + clip[row][2] * z + clip[row][3]
  }

  /** Row 3 plus (`sign` 1) or minus (`sign` -1) row `row` of the clip matrix. */
  function RowPlane(clip: seq<seq<real>>, row: nat, sign: real): (p: Plane)
    requires IsMat4(clip) && row < 3
  {
    Plane(clip[3][0] + sign * clip[row][0], clip[3][1] + sign * clip[row][1],
          clip[3][2] + sign * clip[row][2], clip[3][3] + sign * clip[row][3])
  }

  /** The six unnormalised planes in index order near, far, left, right, top, bottom. */
  function RawPlanes(clip: seq<seq<real>>): (r: seq<Plane>)
    requires IsMat4(clip)
    ensures |r| == 6
  {
    [RowPlane(clip, 2, 1.0), RowPlane(clip, 2, -1.0), RowPlane(clip, 0, 1.0),
     RowPlane(clip, 0, -1.0), RowPlane(clip, 1, -1.0), RowPlane(clip, 1, 1.0)]
  }

  /** `lengths[i]` is the length of the normal of `raw[i]` (the square root the source computes). */
  predicate NormLengths(raw: seq<Plane>, lengths: seq<real>)
  {
    |lengths| == |raw| && forall i :: 0 <= i < |raw| ==> lengths[i] >= 0.0 && lengths[i] * lengths[i] == raw[i].NormSq()
  }

  function NormalizeAll(raw: seq<Plane>, lengths: seq<real>): (r: seq<Plane>)
    requires NormLengths(raw, lengths)
    ensures |r| == |raw|
  {
    seq(|raw|, i requires 0 <= i < |raw| => Normalize(raw[i], lengths[i]))
  }

  /** The distance to each raw plane is w plus or minus one clip coordinate. */
  lemma RawPlaneDistance(clip: seq<seq<real>>, row: nat, sign: real, x: real, y: real, z: real)
    requires IsMat4(clip) && row < 3
    requires sign == 1.0 || sign == -1.0
    ensures sign == 1.0 ==> RowPlane(clip, row, sign).Distance(x, y, z) == ClipCoord(clip, 3, x, y, z) + ClipCoord(clip, row, x, y, z)
    ensures sign == -1.0 ==> RowPlane(clip, row, sign).Distance(x, y, z) == ClipCoord(clip, 3, x, y, z) - ClipCoord(clip, row, x, y, z)
  {
  }

  /** Normalising every plane accepts exactly the points the raw planes accept. */
  lemma NormalizeAllSameSides(raw: seq<Plane>, lengths: seq<real>, x: real, y: real, z: real)
    requires NormLengths(raw, lengths)
    ensures PointPasses(NormalizeAll(raw, lengths), x, y, z) <==> PointPasses(raw, x, y, z)
  {
    var planes := NormalizeAll(raw, lengths);
    forall i | 0 <= i < |raw|
      ensures planes[i].Distance(x, y, z) >= 0.0 <==> raw[i].Distance(x, y, z) >= 0.0
    {
      NormalizeKeepsSide(raw[i], lengths[i], x, y, z);
    }
  }

  /** Passing six planes is passing each of them. */
  lemma PassesSix(planes: seq<Plane>, x: real, y: real, z: real)
    requires |planes| == 6
    ensures PointPasses(planes, x, y, z) <==>
      planes[0].Distance(x, y, z) >= 0.0 && planes[1].Distance(x, y, z) >= 0.0 &&
      planes[2].Distance(x, y, z) >= 0.0 && planes[3].Distance(x, y, z) >= 0.0 &&
      planes[4].Distance(x, y, z) >= 0.0 && planes[5].Distance(x, y, z) >= 0.0
  {
    if PointPasses(planes, x, y, z) {
      assert planes[0].Distance(x, y, z) >= 0.0 && planes[1].Distance(x, y, z) >= 0.0;
      assert planes[2].Distance(x, y, z) >= 0.0 && planes[3].Distance(x, y, z) >= 0.0;
      assert planes[4].Distance(x, y, z) >= 0.0 && planes[5].Distance(x, y, z) >= 0.0;
    } else {
      var i :| 0 <= i < 6 && planes[i].Distance(x, y, z) < 0.0;
      assert i == 0 || i == 1 || i == 2 || i == 3 || i == 4 || i == 5;
    }
  }

  /** The raw Gribb-Hartmann planes accept exactly the canonical view volume -w <= x, y, z <= w. */
  lemma RawPlanesAreClipVolume(clip: seq<seq<real>>, x: real, y: real, z: real)
    requires IsMat4(clip)
    ensures PointPasses(RawPlanes(clip), x, y, z) <==>
      (var w := ClipCoord(clip, 3, x, y, z);
       -w <= ClipCoord(clip, 0, x, y, z) <= w &&
       -w <= ClipCoord(clip, 1, x, y, z) <= w &&
       -w <= ClipCoord(clip, 2, x, y, z) <= w)
  {
    var raw := RawPlanes(clip);
    var w := ClipCoord(clip, 3, x, y, z);
    var cx, cy, cz := ClipCoord(clip, 0, x, y, z), ClipCoord(clip, 1, x, y, z), ClipCoord(clip, 2, x, y, z);
    PassesSix(raw, x, y, z);
    assert raw == [RowPlane(clip, 2, 1.0), RowPlane(clip, 2, -1.0), RowPlane(clip, 0, 1.0),
                   RowPlane(clip, 0, -1.0), RowPlane(clip, 1, -1.0), RowPlane(clip, 1, 1.0)];
    assert raw[0].Distance(x, y, z) == w + cz by { RawPlaneDistance(clip, 2, 1.0, x, y, z); }
    assert raw[1].Distance(x, y, z) == w - cz by { RawPlaneDistance(clip, 2, -1.0, x, y, z); }
    assert raw[2].Distance(x, y, z) == w + cx by { RawPlaneDistance(clip, 0, 1.0, x, y, z); }
    assert raw[3].Distance(x, y, z) == w - cx by { RawPlaneDistance(clip, 0, -1.0, x, y, z); }
    assert raw[4].Distance(x, y, z) == w - cy by { RawPlaneDistance(clip, 1, -1.0, x, y, z); }
    assert raw[5].Distance(x, y, z) == w + cy by { RawPlaneDistance(clip, 1, 1.0, x, y, z); }
  }

  /**
   * A point passes all six extracted planes exactly when its clip coordinates
   * lie in the canonical view volume -w <= x, y, z <= w.
   */
  lemma ExtractedPlanesAreClipVolume(clip: seq<seq<real>>, lengths: seq<real>, x: real, y: real, z: real)
    requires IsMat4(clip) && NormLengths(RawPlanes(clip), lengths)
    ensures PointPasses(NormalizeAll(RawPlanes(clip), lengths), x, y, z) <==>
      (var w := ClipCoord(clip, 3, x, y, z);
       -w <= ClipCoord(clip, 0, x, y, z) <= w &&
       -w <= ClipCoord(clip, 1, x, y, z) <= w &&
       -w <= ClipCoord(clip, 2, x, y, z) <= w)
  {
    NormalizeAllSameSides(RawPlanes(clip), lengths, x, y, z);
    RawPlanesAreClipVolume(clip, x, y, z);
  }

  class ViewFrustum {
    var planes: seq<Plane>
    var extracted: bool

    ghost predicate Valid()
      reads this
    {
      |planes| == 6
    }

    /** Six zero planes, not yet extracted. */
    constructor ()
      ensures Valid() && !extracted
      ensures forall i :: 0 <= i < 6 ==> planes[i] == Plane(0.0, 0.0, 0.0, 0.0)
    {
      planes := seq(6, _ => Plane(0.0, 0.0, 0.0, 0.0));
      extracted := false;
    }

    /** `extract_from_matrices`: the six planes of `projection * modelview`, each normalised. */
    method ExtractFromMatrices(projection: seq<seq<real>>, modelview: seq<seq<real>>, lengths: seq<real>)
      requires Valid() && IsMat4(projection) && IsMat4(modelview)
      requires NormLengths(RawPlanes(MatMul(projection, modelview)), lengths)
      modifies this
      ensures Valid() && extracted
      ensures planes == NormalizeAll(RawPlanes(MatMul(projection, modelview)), lengths)
    {
      var clip := MatMul(projection, modelview);
      var raw := RawPlanes(clip);
      var normalized := NormalizeAll(raw, lengths);
      var ps := planes;
      ps := ps[LeftIdx := normalized[LeftIdx]];
      ps := ps[RightIdx := normalized[RightIdx]];
      ps := ps[BottomIdx := normalized[BottomIdx]];
      ps := ps[TopIdx := normalized[TopIdx]];
      ps := ps[NearIdx := normalized[NearIdx]];
      ps := ps[FarIdx := normalized[FarIdx]];
      assert ps == normalized by {
        assert forall i :: 0 <= i < 6 ==> ps[i] == normalized[i];
      }
      planes := ps;
      extracted := true;
    }

    /**
     * `extract_from_camera`: the near, far, left and right planes come from the
     * camera's trigonometry and are inputs; top and bottom are always the fixed
     * slab -10 <= y <= 10.
     */
    method ExtractFromCamera(near: Plane, far: Plane, left: Plane, right: Plane)
      requires Valid()
      modifies this
      ensures Valid() && extracted
      ensures planes == [near, far, left, right, CameraTop, CameraBottom]
    {
      planes := planes[NearIdx := near];
      planes := planes[FarIdx := far];
      planes := planes[LeftIdx := left];
      planes := planes[RightIdx := right];
      planes := planes[TopIdx := CameraTop];
      planes := planes[BottomIdx := CameraBottom];
      extracted := true;
    }

    /** `is_point_visible`: everything is visible before extraction. */
    method IsPointVisible(x: real, y: real, z: real) returns (v: bool)
      ensures v <==> !extracted || PointPasses(planes, x, y, z)
    {
      if !extracted {
        return true;
      }
      var i := 0;
      while i < |planes|
        invariant 0 <= i <= |planes|
        invariant forall j :: 0 <= j < i ==> planes[j].Distance(x, y, z) >= 0.0
      {
        if planes[i].Distance(x, y, z) < 0.0 {
          return false;
        }
        i := i + 1;
      }
      return true;
    }

    /** `is_sphere_visible`: culled only when entirely behind some plane. */
    method IsSphereVisible(x: real, y: real, z: real, radius: real) returns (v: bool)
      ensures v <==> !extracted || SpherePasses(planes, x, y, z, radius)
    {
      if !extracted {
        return true;
      }
      var i := 0;
      while i < |planes|
        invariant 0 <= i <= |planes|
        invariant forall j :: 0 <= j < i ==> planes[j].Distance(x, y, z) >= -radius
      {
        if planes[i].Distance(x, y, z) < -radius {
          return false;
        }
        i := i + 1;
      }
      return true;
    }

    /** `is_aabb_visible`: the p-vertex test against each plane. */
    method IsAabbVisible(box: Box3) returns (v: bool)
      ensures v <==> !extracted || AabbPasses(planes, box)
    {
      if !extracted {
        return true;
      }
      var i := 0;
      while i < |planes|
        invariant 0 <= i <= |planes|
        invariant forall j :: 0 <= j < i ==> PVertexDistance(planes[j], box) >= 0.0
      {
        var p := planes[i];
        var px := if p.a >= 0.0 then box.xMax else box.xMin;
        var py := if p.b >= 0.0 then box.yMax else box.yMin;
        var pz := if p.c >= 0.0 then box.zMax else box.zMin;
        if p.Distance(px, py, pz) < 0.0 {
          return false;
        }
        i := i + 1;
      }
      return true;
    }

    /** `get_2d_bounds`: a fixed rectangle, whatever the planes are. */
    function Get2dBounds(): (r: (real, real, real, real))
      reads this
      ensures r.0 < r.1 && r.2 < r.3
      ensures r == (-2.0, 2.0, -2.5, 2.5)
    {
      (-2.0, 2.0, -2.5, 2.5)
    }
  }

  /** Default turbine height of `is_turbine_visible`; the sphere sits at half height with half-height radius. */
  const DefaultTurbineHeight := 0.18

  /** Whether `cull_turbines` keeps a turbine, given the frustum state. */
  predicate TurbineKept(planes: seq<Plane>, extracted: bool, t: WindTurbine)
  {
    !extracted || SpherePasses(planes, t.x, DefaultTurbineHeight / 2.0, t.z, DefaultTurbineHeight / 2.0)
  }

  /** The turbines `cull_turbines` keeps, in input order. */
  function Culled(planes: seq<Plane>, extracted: bool, ts: seq<WindTurbine>): (r: seq<WindTurbine>)
    ensures |r| <= |ts|
    ensures forall i :: 0 <= i < |r| ==> TurbineKept(planes, extracted, r[i])
  {
    if ts == [] then []
    else
      var rest := Culled(planes, extracted, ts[1..]);
      if TurbineKept(planes, extracted, ts[0]) then [ts[0]] + rest else rest
  }

  /** Nothing that passes the test is dropped. */
  lemma {:induction false} CulledComplete(planes: seq<Plane>, extracted: bool, ts: seq<WindTurbine>, i: nat)
    requires i < |ts| && TurbineKept(planes, extracted, ts[i])
    ensures ts[i] in Culled(planes, extracted, ts)
  {
    if i > 0 {
      CulledComplete(planes, extracted, ts[1..], i - 1);
    }
  }

  lemma CulledConcat(planes: seq<Plane>, extracted: bool, a: seq<WindTurbine>, b: seq<WindTurbine>)
    ensures Culled(planes, extracted, a + b) == Culled(planes, extracted, a) + Culled(planes, extracted, b)
  {
    if a == [] {
      assert a + b == b;
    } else {
      assert (a + b)[1..] == a[1..] + b;
      CulledConcat(planes, extracted, a[1..], b);
    }
  }

  lemma CulledSnoc(planes: seq<Plane>, extracted: bool, a: seq<WindTurbine>, t: WindTurbine)
    ensures Culled(planes, extracted, a + [t]) ==
            Culled(planes, extracted, a) + if TurbineKept(planes, extracted, t) then [t] else []
  {
    CulledConcat(planes, extracted, a, [t]);
    assert [t][1..] == [];
  }

  /** Before extraction nothing is culled. */
  lemma {:induction false} UnextractedKeepsAll(planes: seq<Plane>, ts: seq<WindTurbine>)
    ensures Culled(planes, false, ts) == ts
  {
    if ts != [] {
      UnextractedKeepsAll(planes, ts[1..]);
    }
  }

  /** The `_stats` dictionary of the culler. */
  datatype CullStats = CullStats(total: nat, visible: nat, culled: nat)

  class FrustumCuller {
    const frustum: ViewFrustum
    var stats: CullStats

    constructor ()
      ensures fresh(frustum) && frustum.Valid() && !frustum.extracted
      ensures stats == CullStats(0, 0, 0)
    {
      frustum := new ViewFrustum();
      stats := CullStats(0, 0, 0);
    }

    /** `is_turbine_visible`: a sphere of radius height/2 centred at height/2. */
    method IsTurbineVisible(x: real, z: real, height: real) returns (v: bool)
      ensures v <==> !frustum.extracted || SpherePasses(frustum.planes, x, height / 2.0, z, height / 2.0)
    {
      v := frustum.IsSphereVisible(x, height / 2.0, z, height / 2.0);
    }

    /** `cull_turbines`: an order-preserving filter that records total = visible + culled. */
    method CullTurbines(ts: seq<WindTurbine>) returns (vis: seq<WindTurbine>)
      modifies this`stats
      ensures vis == Culled(frustum.planes, frustum.extracted, ts)
      ensures stats.total == |ts| && stats.visible == |vis| && stats.total == stats.visible + stats.culled
    {
      var total := |ts|;
      ghost var planes := frustum.planes;
      ghost var extracted := frustum.extracted;
      vis := [];
      var i := 0;
      while i < |ts|
        invariant 0 <= i <= |ts|
        invariant vis == Culled(planes, extracted, ts[..i])
      {
        var keep := IsTurbineVisible(ts[i].x, ts[i].z, DefaultTurbineHeight);
        assert keep == TurbineKept(planes, extracted, ts[i]);
        CulledSnoc(planes, extracted, ts[..i], ts[i]);
        assert ts[..i + 1] == ts[..i] + [ts[i]];
        if keep {
          vis := vis + [ts[i]];
        }
        i := i + 1;
      }
      assert ts[..i] == ts;
      stats := CullStats(total, |vis|, total - |vis|);
    }

    /** `get_stats`: a copy of the counters. */
    function GetStats(): (s: CullStats)
      reads this
      ensures s == stats
    {
      stats
    }
  }

  /** One mask entry of `cull_positions`: the sphere test at height h/2 with radius h/2, with no extraction check. */
  predicate PositionKept(planes: seq<Plane>, pos: (real, real), h: real)
  {
    SpherePasses(planes, pos.0, h / 2.0, pos.1, h / 2.0)
  }

  /** One plane's pass of `cull_positions`: `mask &= distances >= -radii`. */
  method NarrowMask(mask: seq<bool>, done: seq<Plane>, p: Plane, positions: seq<(real, real)>, hs: seq<real>)
    returns (m: seq<bool>)
    requires |mask| == |positions| == |hs|
    requires forall i :: 0 <= i < |positions| ==> (mask[i] <==> PositionKept(done, positions[i], hs[i]))
    ensures |m| == |positions|
    ensures forall i :: 0 <= i < |positions| ==> (m[i] <==> PositionKept(done + [p], positions[i], hs[i]))
  {
    m := seq(|mask|, i requires 0 <= i < |mask| =>
      mask[i] && p.Distance(positions[i].0, hs[i] / 2.0, positions[i].1) >= -(hs[i] / 2.0));
    forall i | 0 <= i < |positions|
      ensures m[i] <==> PositionKept(done + [p], positions[i], hs[i])
    {
      SpherePassesSnoc(done, p, positions[i].0, hs[i] / 2.0, positions[i].1, hs[i] / 2.0);
    }
  }

  class VectorizedFrustumCuller {
    const frustum: ViewFrustum

    constructor ()
      ensures fresh(frustum) && frustum.Valid() && !frustum.extracted
    {
      frustum := new ViewFrustum();
    }

    /**
     * `cull_positions`: one mask entry per (x, z) position; missing heights
     * default to 0.18. The mask is narrowed one plane at a time.
     */
    method CullPositions(positions: seq<(real, real)>, heights: Option<seq<real>>) returns (mask: seq<bool>)
      requires heights.Some? ==> |heights.value| == |positions|
      ensures |mask| == |positions|
      ensures forall i :: 0 <= i < |positions| ==>
        (mask[i] <==> PositionKept(frustum.planes, positions[i],
                                   if heights.Some? then heights.value[i] else DefaultTurbineHeight))
    {
      var n := |positions|;
      var hs := if heights.Some? then heights.value else seq(n, _ => DefaultTurbineHeight);
      var planes := frustum.planes;
      mask := seq(n, _ => true);
      var k := 0;
      while k < |planes|
        invariant 0 <= k <= |planes| && |mask| == n
        invariant forall i :: 0 <= i < n ==> (mask[i] <==> PositionKept(planes[..k], positions[i], hs[i]))
      {
        mask := NarrowMask(mask, planes[..k], planes[k], positions, hs);
        assert planes[..k + 1] == planes[..k] + [planes[k]];
        k := k + 1;
      }
      assert planes[..k] == planes;
    }
  }

  /**
   * After extraction, with default heights, the vectorised mask agrees with the
   * per-turbine filter of `cull_turbines`.
   */
  lemma MaskMatchesCull(planes: seq<Plane>, t: WindTurbine)
    ensures PositionKept(planes, (t.x, t.z), DefaultTurbineHeight) <==> TurbineKept(planes, true, t)
  {
  }
}
