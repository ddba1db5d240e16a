/**
 * `WindTurbineManager` (windturbine/manager.py): the turbine list, the year
 * cache that is invalidated on every addition and rebuilt lazily, the
 * rectangular view bounds driven by the camera zoom, and the per-turbine
 * level assignment.
 *
 * Where the source defines `update_frustum`, `_is_visible` and
 * `get_visible_turbines_until_year` twice, the later definitions are the
 * ones Python keeps, and those are modelled.
 */
module Manager {
  import opened Common
  import opened Turbine
  import opened YearCache
  import Quadtree
  import Lod

  /** The `_frustum_bounds` dictionary. */
  datatype FrustumBounds = FrustumBounds(xMin: real, xMax: real, zMin: real, zMax: real, distance: real)

  /** The bounds before the first `update_frustum`. */
  const InitialBounds := FrustumBounds(-1.5, 1.5, -1.8, 1.8, 3.0)

  /** `update_frustum`: the box is scaled by `max(0.5, 1 / zoom)`, the distance by `max(0.8, zoom)`. */
  function BoundsFor(zoom: real, cameraDistance: real): (b: FrustumBounds)
    requires zoom != 0.0
    ensures b.xMin == -b.xMax && b.zMin == -b.zMax && b.xMax * 1.8 == b.zMax * 1.5
    ensures b.xMax >= 0.75 && b.zMax >= 0.9
    ensures zoom > 0.0 ==> b.xMax == 1.5 * MaxReal(0.5, 1.0 / zoom)
    ensures zoom < 0.0 ==> b.xMax == 0.75
    ensures b.distance == cameraDistance * MaxReal(0.8, zoom)
  {
    var scale := MaxReal(0.5, 1.0 / zoom);
    FrustumBounds(-1.5 * scale, 1.5 * scale, -1.8 * scale, 1.8 * scale, cameraDistance * MaxReal(0.8, zoom))
  }

  /** Zooming in never widens the view box; from zoom 2 on it stays at its smallest. */
  lemma BoundsShrinkWithZoom(z1: real, z2: real, d: real)
    requires 0.0 < z1 <= z2
    ensures BoundsFor(z2, d).xMax <= BoundsFor(z1, d).xMax
    ensures BoundsFor(z2, d).zMax <= BoundsFor(z1, d).zMax
    ensures z1 >= 2.0 ==> BoundsFor(z1, d).xMax == 0.75 && BoundsFor(z1, d).zMax == 0.9
  {
    QuotientAntitone(1.0, z1, z2);
    if z1 >= 2.0 {
      QuotientAntitone(1.0, 2.0, z1);
    }
  }

  /**
   * The later `_is_visible`: the closed box test and `sqrt(x² + z²) <= distance`,
   * with the root comparison written without the root (see `VisibleMatchesRoot`).
   */
  predicate Visible(fb: FrustumBounds, x: real, z: real)
  {
    !(x < fb.xMin || x > fb.xMax) && !(z < fb.zMin || z > fb.zMax) &&
    fb.distance >= 0.0 && x * x + z * z <= fb.distance * fb.distance
  }

  /** Given the root `dist` of `x² + z²`, `Visible` is exactly the source's test. */
  lemma VisibleMatchesRoot(fb: FrustumBounds, x: real, z: real, dist: real)
    requires dist >= 0.0 && dist * dist == x * x + z * z
    ensures Visible(fb, x, z) <==>
            fb.xMin <= x <= fb.xMax && fb.zMin <= z <= fb.zMax && dist <= fb.distance
  {
    SquareMonotone(dist, fb.distance);
  }

  /** The turbines of `ts` inside the view bounds, in list order. */
  function VisibleOf(fb: FrustumBounds, ts: seq<WindTurbine>): (r: seq<WindTurbine>)
    ensures |r| <= |ts|
    ensures forall i :: 0 <= i < |r| ==> Visible(fb, r[i].x, r[i].z) && r[i] in ts
  {
    if ts == [] then []
    else
      var last := ts[|ts| - 1];
      VisibleOf(fb, ts[..|ts| - 1]) + (if Visible(fb, last.x, last.z) then [last] else [])
  }

  /** Nothing visible is dropped. */
  lemma {:induction false} VisibleOfComplete(fb: FrustumBounds, ts: seq<WindTurbine>, t: WindTurbine)
    requires t in ts && Visible(fb, t.x, t.z)
    ensures t in VisibleOf(fb, ts)
  {
    var init := ts[..|ts| - 1];
    assert ts == init + [ts[|ts| - 1]];
    if t != ts[|ts| - 1] {
      VisibleOfComplete(fb, init, t);
    }
  }

  /** The bucketing loop of `build_year_cache`: one list per year, in list order. */
  method BucketByYear(ts: seq<WindTurbine>) returns (cache: map<int, seq<WindTurbine>>)
    ensures cache == Buckets(ts)
  {
    cache := map[];
    var i := 0;
    while i < |ts|
      invariant 0 <= i <= |ts|
      invariant cache == Buckets(ts[..i])
    {
      var t := ts[i];
      assert ts[..i + 1][..i] == ts[..i];
      var year := t.year;
      if year !in cache {
        cache := cache[year := []];
      }
      cache := cache[year := cache[year] + [t]];
      i := i + 1;
    }
    assert ts[..i] == ts;
  }

  /** The inner loop of `get_turbines_until_year`: appends the named turbines of one bucket. */
  method AppendNamed(r: seq<WindTurbine>, bucket: seq<WindTurbine>) returns (r': seq<WindTurbine>)
    ensures r' == r + NamedOf(bucket)
  {
    r' := r;
    var j := 0;
    while j < |bucket|
      invariant 0 <= j <= |bucket|
      invariant r' == r + NamedOf(bucket[..j])
    {
      assert bucket[..j + 1][..j] == bucket[..j];
      var t := bucket[j];
      if Named(t) {
        r' := r' + [t];
      }
      j := j + 1;
    }
    assert bucket[..j] == bucket;
  }

  /** The loops of `get_turbines_until_year` over a built cache: years ascending, named turbines only. */
  method CollectUntilYear(cache: map<int, seq<WindTurbine>>, maxYear: int) returns (r: seq<WindTurbine>)
    ensures AllIn(SortedKeys(cache.Keys), cache)
    ensures r == NamedOf(UntilYear(cache, SortedKeys(cache.Keys), maxYear))
  {
    var keys := OrderKeys(cache.Keys);
    KeysAllIn(cache);
    r := [];
    var k := 0;
    while k < |keys|
      invariant 0 <= k <= |keys|
      invariant AllIn(keys[..k], cache)
      invariant r == NamedOf(UntilYear(cache, keys[..k], maxYear))
    {
      var year := keys[k];
      NamedUntilYearStep(cache, keys, k, maxYear);
      if year <= maxYear {
        r := AppendNamed(r, cache[year]);
      }
      k := k + 1;
    }
    assert keys[..k] == keys;
  }

  /** The loops of `count_until_year`: years in whatever order the set yields them. */
  method CountCacheUntilYear(cache: map<int, seq<WindTurbine>>, maxYear: int) returns (count: nat)
    ensures AllIn(SortedKeys(cache.Keys), cache)
    ensures count == |NamedOf(UntilYear(cache, SortedKeys(cache.Keys), maxYear))|
  {
    count := 0;
    var rest := cache.Keys;
    while rest != {}
      invariant rest <= cache.Keys
      invariant count + CountOver(cache, rest, maxYear) == CountOver(cache, cache.Keys, maxYear)
      decreases |rest|
    {
      var year :| year in rest;
      ghost var before := count;
      if year <= maxYear {
        var bucket := cache[year];
        var j := 0;
        while j < |bucket|
          invariant 0 <= j <= |bucket|
          invariant count == before + |NamedOf(bucket[..j])|
        {
          assert bucket[..j + 1][..j] == bucket[..j];
          if Named(bucket[j]) {
            count := count + 1;
          }
          j := j + 1;
        }
        assert bucket[..j] == bucket;
      }
      assert count == before + Contribution(cache, year, maxYear);
      CountOverRemove(cache, rest, year, maxYear);
      rest := rest - {year};
    }
    assert SortedKeys({}) == [];
    KeysAllIn(cache);
  }

  /** The filtering loop of `get_visible_turbines_until_year`, with the source's test written out. */
  method FilterVisible(fb: FrustumBounds, candidates: seq<WindTurbine>) returns (visible: seq<WindTurbine>)
    ensures visible == VisibleOf(fb, candidates)
  {
    visible := [];
    var i := 0;
    while i < |candidates|
      invariant 0 <= i <= |candidates|
      invariant visible == VisibleOf(fb, candidates[..i])
    {
      assert candidates[..i + 1][..i] == candidates[..i];
      var t := candidates[i];
      if !(t.x < fb.xMin || t.x > fb.xMax) && !(t.z < fb.zMin || t.z > fb.zMax) &&
         fb.distance >= 0.0 && t.x * t.x + t.z * t.z <= fb.distance * fb.distance {
        visible := visible + [t];
      }
      i := i + 1;
    }
    assert candidates[..i] == candidates;
  }

  /** `LODManager()`: a level manager over the default table. */
  method NewDefaultLodManager() returns (m: Lod.LodManager)
    ensures fresh(m) && m.levels == Lod.DefaultLods && m.Valid()
  {
    m := new Lod.LodManager(None);
  }

  class WindTurbineManager {
    var turbines: seq<WindTurbine>
    var animationEnabled: bool
    var yearCache: map<int, seq<WindTurbine>>
    var cacheValid: bool
    var frustumBounds: FrustumBounds
    const quadtree: Quadtree.QuadtreeManager
    var useQuadtree: bool
    /** `LODManager()` with the default table. */
    const lodManager: Lod.LodManager
    var useLod: bool
    var cameraPos: (real, real)
    var useCacheOptimization: bool

    ghost predicate Valid()
      reads quadtree
    {
      quadtree.Valid() && lodManager.Valid()
    }

    /** The level manager keeps the default table it was created with. */
    ghost predicate HasDefaultLods()
    {
      lodManager.levels == Lod.DefaultLods
    }

    constructor ()
      ensures fresh(lodManager) && HasDefaultLods()
      ensures fresh(quadtree) && quadtree.bounds == Quadtree.QuadtreeManager.DefaultBounds
      ensures Valid()
      ensures turbines == [] && yearCache == map[] && !cacheValid
      ensures frustumBounds == InitialBounds
      ensures animationEnabled && useQuadtree && useLod && useCacheOptimization && cameraPos == (0.0, 0.0)
    {
      var lm := NewDefaultLodManager();
      lodManager := lm;
      quadtree := new Quadtree.QuadtreeManager(Quadtree.QuadtreeManager.DefaultBounds);
      turbines := [];
      animationEnabled := true;
      yearCache := map[];
      cacheValid := false;
      frustumBounds := InitialBounds;
      useQuadtree := true;
      useLod := true;
      cameraPos := (0.0, 0.0);
      useCacheOptimization := true;
    }

    /** `add_turbine`: appends a new turbine whose blade starts at `(count * 37) mod 360` degrees and invalidates the cache. */
    method AddTurbine(x: real, z: real, height: real, rotorRadius: real, powerKw: real) returns (t: WindTurbine)
      modifies this`turbines, this`cacheValid
      ensures fresh(t) && turbines == old(turbines) + [t] && !cacheValid
      ensures t.x == x && t.z == z && t.height == height && t.rotorRadius == rotorRadius && t.powerKw == powerKw
      ensures t.year == 2000 && t.blName == None && t.currentLodLevel == 0
      ensures t.bladeAngle == ((|old(turbines)| * 37) % 360) as real
    {
      t := new WindTurbine(x, z, height, rotorRadius, powerKw);
      t.bladeAngle := ((|turbines| * 37) % 360) as real;
      turbines := turbines + [t];
      cacheValid := false;
    }

    /** The cache is valid afterwards: kept when it was valid before, rebuilt from the turbine list otherwise. */
    twostate predicate CacheRefreshed()
      reads this, quadtree, set t | t in turbines
    {
      cacheValid &&
      (old(cacheValid) ==> yearCache == old(yearCache) && quadtree.root == old(quadtree.root)) &&
      (!old(cacheValid) ==> yearCache == Buckets(turbines))
    }

    /** `build_year_cache`: buckets the turbines by year and rebuilds the quadtree when it is in use. */
    method BuildYearCache()
      requires Valid()
      modifies this`yearCache, this`cacheValid, quadtree`root
      ensures Valid() && cacheValid && yearCache == Buckets(turbines)
      ensures useQuadtree ==> quadtree.root == Quadtree.BuildFrom(quadtree.bounds, Quadtree.QuadtreeManager.RootCapacity, turbines)
      ensures !useQuadtree ==> quadtree.root == old(quadtree.root)
    {
      if useQuadtree {
        quadtree.Build(turbines);
      }
      yearCache := BucketByYear(turbines);
      cacheValid := true;
    }

    /**
     * `get_turbines_until_year`: rebuilds the cache when it is stale, then
     * walks the years in ascending order and keeps the named turbines of
     * each year up to `maxYear`.
     */
    method GetTurbinesUntilYear(maxYear: int) returns (r: seq<WindTurbine>)
      requires Valid()
      modifies this`yearCache, this`cacheValid, quadtree`root
      ensures Valid() && CacheRefreshed()
      ensures AllIn(SortedKeys(yearCache.Keys), yearCache)
      ensures r == NamedOf(UntilYear(yearCache, SortedKeys(yearCache.Keys), maxYear))
    {
      if !cacheValid {
        BuildYearCache();
      }
      r := CollectUntilYear(yearCache, maxYear);
    }

    /**
     * `count_until_year`: the same turbines counted over the cache keys in
     * dictionary order, which may be any order.
     */
    method CountUntilYear(maxYear: int) returns (count: nat)
      requires Valid()
      modifies this`yearCache, this`cacheValid, quadtree`root
      ensures Valid() && CacheRefreshed()
      ensures AllIn(SortedKeys(yearCache.Keys), yearCache)
      ensures count == |NamedOf(UntilYear(yearCache, SortedKeys(yearCache.Keys), maxYear))|
    {
      if !cacheValid {
        BuildYearCache();
      }
      count := CountCacheUntilYear(yearCache, maxYear);
    }

    /** `update_frustum`; `true` stands for the `ZeroDivisionError` of a zero zoom, which leaves the bounds as they were. */
    method UpdateFrustum(zoom: real, cameraDistance: real) returns (raised: bool)
      modifies this`frustumBounds
      ensures raised <==> zoom == 0.0
      ensures raised ==> frustumBounds == old(frustumBounds)
      ensures !raised ==> frustumBounds == BoundsFor(zoom, cameraDistance)
    {
      if zoom == 0.0 {
        return true;
      }
      var scale := MaxReal(0.5, 1.0 / zoom);
      frustumBounds := FrustumBounds(-1.5 * scale, 1.5 * scale, -1.8 * scale, 1.8 * scale,
                                     cameraDistance * MaxReal(0.8, zoom));
      raised := false;
    }

    /**
     * `get_visible_turbines_until_year` (the later definition): the year
     * query filtered by the view bounds, in order.
     */
    method GetVisibleTurbinesUntilYear(maxYear: int) returns (visible: seq<WindTurbine>)
      requires Valid()
      modifies this`yearCache, this`cacheValid, quadtree`root
      ensures Valid() && CacheRefreshed()
      ensures AllIn(SortedKeys(yearCache.Keys), yearCache)
      ensures visible == VisibleOf(frustumBounds, NamedOf(UntilYear(yearCache, SortedKeys(yearCache.Keys), maxYear)))
    {
      var candidates := GetTurbinesUntilYear(maxYear);
      visible := FilterVisible(frustumBounds, candidates);
    }

    /**
     * `update_lod_for_turbines`. `distances[i]` is the camera distance
     * `sqrt(dx² + dz²)` of `ts[i]`; the level written is the digit ending
     * the name of the level chosen for `min(1.0, distance)`, which for the
     * default table is the level's index.
     */
    method UpdateLodForTurbines(ts: seq<WindTurbine>, distances: seq<real>)
      requires Valid() && HasDefaultLods() && CameraDistances(ts, distances, cameraPos)
      modifies (set t | t in ts)`currentLodLevel, (set t | t in ts)`distanceToCamera
      ensures !useLod ==> forall i :: 0 <= i < |ts| ==>
                ts[i].currentLodLevel == old(ts[i].currentLodLevel) && ts[i].distanceToCamera == old(ts[i].distanceToCamera)
      ensures useLod ==> forall i :: 0 <= i < |ts| ==>
                ts[i].distanceToCamera == distances[i] &&
                ts[i].currentLodLevel == lodManager.GetLodForDistance(MinReal(1.0, distances[i]))
    {
      if !useLod {
        return;
      }
      CameraDistancesAgree(ts, distances, cameraPos);
      var i := 0;
      while i < |ts|
        invariant 0 <= i <= |ts|
        invariant forall j :: 0 <= j < i ==>
                    ts[j].distanceToCamera == distances[j] &&
                    ts[j].currentLodLevel == lodManager.GetLodForDistance(MinReal(1.0, distances[j]))
      {
        var t, d := ts[i], distances[i];
        var k := lodManager.GetLodForDistance(MinReal(1.0, d));
        DefaultDigits(k);
        var digit := LastDigit(lodManager.levels[k].name);
        t.currentLodLevel := digit.value;
        t.distanceToCamera := d;
        i := i + 1;
      }
    }
  }

  /** `distances[i]` is the non-negative root of the squared ground distance from `cam` to `ts[i]`. */
  predicate CameraDistances(ts: seq<WindTurbine>, distances: seq<real>, cam: (real, real))
  {
    |distances| == |ts| &&
    forall i :: 0 <= i < |ts| ==>
      distances[i] >= 0.0 &&
      distances[i] * distances[i] == (ts[i].x - cam.0) * (ts[i].x - cam.0) + (ts[i].z - cam.1) * (ts[i].z - cam.1)
  }

  /** A turbine listed twice gets the same distance both times, so the later write repeats the earlier one. */
  lemma CameraDistancesAgree(ts: seq<WindTurbine>, distances: seq<real>, cam: (real, real))
    requires CameraDistances(ts, distances, cam)
    ensures forall i, j :: 0 <= i < |ts| && 0 <= j < |ts| && ts[i] == ts[j] ==> distances[i] == distances[j]
  {
    forall i, j | 0 <= i < |ts| && 0 <= j < |ts| && ts[i] == ts[j]
      ensures distances[i] == distances[j]
    {
      SquareInjective(distances[i], distances[j]);
    }
  }

  /** The default level names end in their own index, so `int(name[-1])` never raises for them. */
  lemma DefaultDigits(k: nat)
    requires k < |Lod.DefaultLods|
    ensures LastDigit(Lod.DefaultLods[k].name) == Some(k)
  {
  }
}
