/**
 * `OptimizedWindTurbineManager` (windturbine/optimized_manager.py): the
 * turbine list with its lazily rebuilt year cache, and the culling half of
 * the staged render pipeline — year filter, quadtree prefilter on large
 * scenes, bounding-sphere frustum test, then the aggressive level of detail
 * with its per-level statistics.
 */
module OptimizedManager {
  import opened Common
  import opened Turbine
  import opened YearCache
  import Lod
  import Frustum
  import Quadtree
  import LodAggressive
  import Instanced
  import Manager

  /** The counters of `OptimizationStats` that the culling pipeline writes. */
  datatype OptimizationStats = OptimizationStats(
    totalTurbines: int,
    visibleTurbines: int,
    culledByFrustum: int,
    culledByQuadtree: int,
    lodDistribution: map<string, nat>,
    lodOrder: seq<string>)

  const InitialStats := OptimizationStats(0, 0, 0, 0, map[], [])

  /** Candidates above which the quadtree prefilter runs. */
  const QuadtreeThreshold := 1000

  /** Smallest batch capacity `build_year_cache` allocates. */
  const MinBatchCapacity: nat := 50000

  // ---------------------------------------------------------------- sphere culling

  /** The bounding sphere sits at half the tower on the state's terrain height. */
  function SphereY(t: WindTurbine): real
    reads t`blHeight
  {
    t.blHeight + t.height / 2.0
  }

  /** The larger of tower height and rotor radius, with a fifth as margin. */
  function SphereRadius(t: WindTurbine): (r: real)
    ensures r >= 1.2 * t.height && r >= 1.2 * t.rotorRadius
    ensures r == 1.2 * t.height || r == 1.2 * t.rotorRadius
  {
    MaxReal(t.height, t.rotorRadius) * 1.2
  }

  /** Whether `is_sphere_visible` keeps the turbine, given the frustum state. */
  predicate SphereKept(planes: seq<Frustum.Plane>, extracted: bool, t: WindTurbine)
    reads t`blHeight
  {
    !extracted || Frustum.SpherePasses(planes, t.x, SphereY(t), t.z, SphereRadius(t))
  }

  /** The turbines the sphere test keeps, in input order. */
  function SphereCulled(planes: seq<Frustum.Plane>, extracted: bool, ts: seq<WindTurbine>): (r: seq<WindTurbine>)
    reads (set t | t in ts)`blHeight
    ensures |r| <= |ts|
    ensures forall i :: 0 <= i < |r| ==> SphereKept(planes, extracted, r[i]) && r[i] in ts
  {
    if ts == [] then []
    else
      var last := ts[|ts| - 1];
      SphereCulled(planes, extracted, ts[..|ts| - 1]) + (if SphereKept(planes, extracted, last) then [last] else [])
  }

  /** Nothing that passes the sphere test is dropped. */
  lemma {:induction false} SphereCulledComplete(planes: seq<Frustum.Plane>, extracted: bool, ts: seq<WindTurbine>, t: WindTurbine)
    requires t in ts && SphereKept(planes, extracted, t)
    ensures t in SphereCulled(planes, extracted, ts)
  {
    var init := ts[..|ts| - 1];
    assert ts == init + [ts[|ts| - 1]];
    if t != ts[|ts| - 1] {
      SphereCulledComplete(planes, extracted, init, t);
    }
  }

  /** The filter distributes over concatenation, so it keeps the input order. */
  lemma {:induction false} SphereCulledConcat(planes: seq<Frustum.Plane>, extracted: bool, a: seq<WindTurbine>, b: seq<WindTurbine>)
    ensures SphereCulled(planes, extracted, a + b) == SphereCulled(planes, extracted, a) + SphereCulled(planes, extracted, b)
  {
    if b == [] {
      assert a + b == a;
    } else {
      assert (a + b)[..|a + b| - 1] == a + b[..|b| - 1];
      SphereCulledConcat(planes, extracted, a, b[..|b| - 1]);
    }
  }

  /** Before the planes are extracted the sphere test keeps everything. */
  lemma {:induction false} UnextractedKeepsAll(planes: seq<Frustum.Plane>, ts: seq<WindTurbine>)
    ensures SphereCulled(planes, false, ts) == ts
  {
    if ts != [] {
      UnextractedKeepsAll(planes, ts[..|ts| - 1]);
    }
  }

  /** The padded sphere keeps at least every turbine whose base point, at terrain height, passes the point test. */
  lemma BaseVisibleKept(planes: seq<Frustum.Plane>, t: WindTurbine)
    requires t.height >= 0.0 && t.rotorRadius >= 0.0
    requires Frustum.PointPasses(planes, t.x, SphereY(t), t.z)
    ensures SphereKept(planes, true, t)
  {
    Frustum.PointImpliesSphere(planes, t.x, SphereY(t), t.z, SphereRadius(t));
  }

  // ---------------------------------------------------------------- view box and levels

  /**
   * `_get_visible_bounding_box`: a square around the camera position with
   * half-width `max(0.5, 2 / zoom)`; `None` is the `ZeroDivisionError` of a
   * zero zoom.
   */
  function VisibleBoundingBox(cameraPos: (real, real), zoom: real): (b: Option<Quadtree.Box>)
    ensures b.None? <==> zoom == 0.0
    ensures b.Some? ==> var h := b.value.xMax - cameraPos.0;
              b.value.xMin == cameraPos.0 - h && b.value.zMin == cameraPos.1 - h && b.value.zMax == cameraPos.1 + h &&
              h >= 0.5 && (zoom > 0.0 ==> h == MaxReal(0.5, 2.0 / zoom)) && (zoom < 0.0 ==> h == 0.5)
  {
    if zoom == 0.0 then None
    else
      var scale := MaxReal(0.5, 2.0 / zoom);
      Some(Quadtree.Box(cameraPos.0 - scale, cameraPos.0 + scale, cameraPos.1 - scale, cameraPos.1 + scale))
  }

  /** The box always holds the camera position, and zooming in never widens it; from zoom 4 on it is at its smallest. */
  lemma VisibleBoxShrinks(cameraPos: (real, real), z1: real, z2: real)
    requires 0.0 < z1 <= z2
    ensures VisibleBoundingBox(cameraPos, z1).value.Contains(cameraPos.0, cameraPos.1)
    ensures VisibleBoundingBox(cameraPos, z2).value.xMax <= VisibleBoundingBox(cameraPos, z1).value.xMax
    ensures z1 >= 4.0 ==> VisibleBoundingBox(cameraPos, z1).value.xMax == cameraPos.0 + 0.5
  {
    QuotientAntitone(2.0, z1, z2);
    if z1 >= 4.0 {
      QuotientAntitone(2.0, 4.0, z1);
    }
  }

  /** The distance the level is chosen for: ground distance over two, at most 1. */
  function NormalizedDistance(distance: real): (n: real)
    ensures n <= 1.0
    ensures distance <= 2.0 ==> n * 2.0 == distance
  {
    MinReal(1.0, distance / 2.0)
  }

  /** The squared ground distance from the camera, the radicand of `(dx*dx + dz*dz) ** 0.5`. */
  function GroundDistSq(t: WindTurbine, cam: (real, real)): (d: real)
    ensures d >= 0.0
  {
    var dx, dz := t.x - cam.0, t.z - cam.1;
    PositiveSquare(dx);
    PositiveSquare(dz);
    dx * dx + dz * dz
  }

  lemma PositiveSquare(u: real)
    ensures u * u >= 0.0
  {
    if u < 0.0 {
      assert u * u == (-u) * (-u);
    }
  }

  /** A threshold in `[0, 1]` is passed by the normalised root exactly when four times its square is passed by the squared distance. */
  lemma ThresholdBySquares(threshold: real, d: real, dSq: real)
    requires 0.0 <= threshold <= 1.0 && d >= 0.0 && d * d == dSq
    ensures threshold <= NormalizedDistance(d) <==> 4.0 * threshold * threshold <= dSq
  {
    var t2 := 2.0 * threshold;
    if t2 <= d {
      assert t2 * t2 <= d * d by {
        assert d * d - t2 * t2 == (d - t2) * (d + t2);
        ProductNonNegative(d - t2, d + t2);
      }
    } else {
      assert d * d < t2 * t2 by {
        assert t2 * t2 - d * d == (t2 - d) * (t2 + d);
        ProductPositive(t2 - d, t2 + d);
      }
    }
  }

  lemma ProductNonNegative(a: real, b: real)
    requires a >= 0.0 && b >= 0.0
    ensures a * b >= 0.0
  {
  }

  lemma ProductPositive(a: real, b: real)
    requires a > 0.0 && b > 0.0
    ensures a * b > 0.0
  {
  }

  /** Level `k` is named with the digit `k` at its end, so `int(name[-1])` gives the index. */
  predicate DigitNames(levels: seq<LodAggressive.AggressiveLevel>)
  {
    forall k :: 0 <= k < |levels| ==> LastDigit(levels[k].name) == Some(k)
  }

  /** Every preset table is named `LOD0`, `LOD1`, … in order. */
  lemma PresetDigits(mode: string)
    ensures DigitNames(LodAggressive.TableFor(mode))
  {
    if mode == "standard" {
      NamesDigits(LodAggressive.StandardLods);
    } else if mode == "extreme" {
      NamesDigits(LodAggressive.ExtremeLods);
    } else {
      NamesDigits(LodAggressive.AggressiveLods);
    }
  }

  /** A table of at most five levels named `LOD0`, `LOD1`, … in order. */
  lemma NamesDigits(t: seq<LodAggressive.AggressiveLevel>)
    requires |t| <= 5
    requires forall k :: 0 <= k < |t| ==> t[k].name == ["LOD0", "LOD1", "LOD2", "LOD3", "LOD4"][k]
    ensures DigitNames(t)
  {
    forall k | 0 <= k < |t|
      ensures LastDigit(t[k].name) == Some(k)
    {
      var name := ["LOD0", "LOD1", "LOD2", "LOD3", "LOD4"][k];
      assert t[k].name == name;
      assert name[3] == "01234"[k] by {
        if k == 0 {} else if k == 1 {} else if k == 2 {} else if k == 3 {} else {}
      }
    }
  }

  /** `AggressiveLODManager("standard")`. */
  method NewStandardLodManager() returns (m: LodAggressive.AggressiveLodManager)
    ensures fresh(m) && m.Valid() && m.mode == "standard" && DigitNames(m.levels)
  {
    LodAggressive.PresetsInOrder("standard");
    PresetDigits("standard");
    m := new LodAggressive.AggressiveLodManager("standard");
  }

  /** `get_aggressive_lod_config(turbine_count)`. */
  method LodConfigFor(turbineCount: int) returns (m: LodAggressive.AggressiveLodManager)
    ensures fresh(m) && m.Valid() && m.mode == LodAggressive.ConfigMode(turbineCount) && DigitNames(m.levels)
  {
    m := LodAggressive.GetAggressiveLodConfig(turbineCount);
    PresetDigits(LodAggressive.ConfigMode(turbineCount));
  }

  /** The level index `get_lod_for_distance` picks for a turbine at ground distance `d` from the camera. */
  function LevelAt(m: LodAggressive.AggressiveLodManager, d: real): (k: nat)
    requires |m.levels| == |m.thresholds| > 0
    ensures k < |m.levels|
  {
    Lod.LastAtMost(m.thresholds, NormalizedDistance(d))
  }

  /** The camera distances of `ts`, given the square-root function. */
  function CameraDistances(ts: seq<WindTurbine>, cam: (real, real), sqrt: real -> real): (ds: seq<real>)
    ensures |ds| == |ts|
    ensures forall i :: 0 <= i < |ts| ==> ds[i] == sqrt(GroundDistSq(ts[i], cam))
  {
    seq(|ts|, i requires 0 <= i < |ts| => sqrt(GroundDistSq(ts[i], cam)))
  }

  /** A turbine listed twice is at the same distance both times. */
  lemma CameraDistancesAgree(ts: seq<WindTurbine>, cam: (real, real), sqrt: real -> real)
    ensures var ds := CameraDistances(ts, cam, sqrt);
            forall i, j :: 0 <= i < |ts| && 0 <= j < |ts| && ts[i] == ts[j] ==> ds[i] == ds[j]
  {
  }

  /** The level names turbines at distances `ds` are counted under. */
  function LevelNames(m: LodAggressive.AggressiveLodManager, ds: seq<real>): (names: seq<string>)
    requires |m.levels| == |m.thresholds| > 0
    ensures |names| == |ds|
    ensures forall i :: 0 <= i < |ds| ==> names[i] == m.levels[LevelAt(m, ds[i])].name
  {
    seq(|ds|, i requires 0 <= i < |ds| => m.levels[LevelAt(m, ds[i])].name)
  }

  /** Collects every year bucket up to `maxYear`, years ascending, each bucket whole. */
  method CollectAllUntilYear(cache: map<int, seq<WindTurbine>>, maxYear: int) returns (r: seq<WindTurbine>)
    ensures AllIn(SortedKeys(cache.Keys), cache)
    ensures r == UntilYear(cache, SortedKeys(cache.Keys), maxYear)
  {
    var keys := OrderKeys(cache.Keys);
    KeysAllIn(cache);
    r := [];
    var k := 0;
    while k < |keys|
      invariant 0 <= k <= |keys|
      invariant AllIn(keys[..k], cache)
      invariant r == UntilYear(cache, keys[..k], maxYear)
    {
      var year := keys[k];
      assert keys[..k + 1][..k] == keys[..k];
      if year <= maxYear {
        r := r + cache[year];
      }
      k := k + 1;
    }
    assert keys[..k] == keys;
  }

  /**
   * Read against the turbine list, a freshly built cache answers with every
   * turbine of each year up to `maxYear` (list order within a year, years
   * ascending) and nothing later; no state-name filter applies.
   */
  lemma FreshCacheQuery(ts: seq<WindTurbine>, maxYear: int)
    ensures AllIn(SortedKeys(Buckets(ts).Keys), Buckets(ts))
    ensures var r := UntilYear(Buckets(ts), SortedKeys(Buckets(ts).Keys), maxYear);
            (forall y :: OfYear(r, y) == if y <= maxYear then OfYear(ts, y) else []) &&
            (forall i :: 0 <= i < |r| ==> r[i].year <= maxYear) &&
            (forall i, j :: 0 <= i < j < |r| ==> r[i].year <= r[j].year)
  {
    var cache := Buckets(ts);
    var keys := SortedKeys(cache.Keys);
    KeysAllIn(cache);
    SortedKeysIncreasing(cache.Keys);
    BucketsUniform(ts);
    UntilYearSorted(cache, keys, maxYear);
    forall y
      ensures OfYear(UntilYear(cache, keys, maxYear), y) == if y <= maxYear then OfYear(ts, y) else []
    {
      UntilYearGroups(ts, maxYear, y);
    }
  }

  /** Every turbine a freshly built cache holds is one of the turbines it was built from. */
  lemma BucketsWithin(ts: seq<WindTurbine>)
    ensures CacheWithin(Buckets(ts), ts)
  {
    forall y, i | y in Buckets(ts) && 0 <= i < |Buckets(ts)[y]|
      ensures Buckets(ts)[y][i] in ts
    {
      BucketsSpec(ts, y);
    }
  }

  /** Every turbine a freshly built quadtree holds is one of the turbines it was built from. */
  lemma BuildWithin(b: Quadtree.Box, cap: int, ts: seq<WindTurbine>)
    ensures ItemsWithin(Quadtree.Items(Quadtree.BuildFrom(b, cap, ts)), ts)
  {
    var items := Quadtree.Items(Quadtree.BuildFrom(b, cap, ts));
    Quadtree.BuildContents(b, cap, ts);
    forall i | 0 <= i < |items|
      ensures items[i] in ts
    {
      assert items[i] in multiset(items);
      assert items[i] in multiset(Quadtree.InBox(b, ts));
    }
  }

  /** Every turbine stored in `cache` is one of `ts`. */
  ghost predicate CacheWithin(cache: map<int, seq<WindTurbine>>, ts: seq<WindTurbine>)
  {
    forall y, i :: y in cache && 0 <= i < |cache[y]| ==> cache[y][i] in ts
  }

  /** Every turbine of `items` is one of `ts`. */
  ghost predicate ItemsWithin(items: seq<WindTurbine>, ts: seq<WindTurbine>)
  {
    forall i :: 0 <= i < |items| ==> items[i] in ts
  }

  /** A query over a cache within `ts` returns turbines of `ts`. */
  lemma UntilYearWithin(cache: map<int, seq<WindTurbine>>, keys: seq<int>, maxYear: int, ts: seq<WindTurbine>)
    requires AllIn(keys, cache) && CacheWithin(cache, ts)
    ensures ItemsWithin(UntilYear(cache, keys, maxYear), ts)
  {
    var r := UntilYear(cache, keys, maxYear);
    forall i | 0 <= i < |r|
      ensures r[i] in ts
    {
      assert r[i] in CacheObjects(cache);
      var y, j :| y in cache && 0 <= j < |cache[y]| && cache[y][j] == r[i];
    }
  }

  // ---------------------------------------------------------------- the quadtree stage

  /** Whether `render_optimized` runs the quadtree prefilter on this many candidates. */
  predicate Prefilters(useQuadtree: bool, candidates: nat)
  {
    useQuadtree && candidates > QuadtreeThreshold
  }

  /**
   * The candidates after the quadtree stage: the year-filtered list when the
   * stage does not run, otherwise every stored turbine inside the view box;
   * `None` is the `ZeroDivisionError` of a zero zoom.
   */
  function Prefiltered(years: seq<WindTurbine>, useQuadtree: bool, items: seq<WindTurbine>,
                       cameraPos: (real, real), zoom: real): (r: Option<seq<WindTurbine>>)
    ensures !Prefilters(useQuadtree, |years|) ==> r == Some(years)
    ensures Prefilters(useQuadtree, |years|) ==> (r.None? <==> zoom == 0.0)
    ensures Prefilters(useQuadtree, |years|) && r.Some? ==>
              forall i :: 0 <= i < |r.value| ==> r.value[i] in items && VisibleBoundingBox(cameraPos, zoom).value.Contains(r.value[i].x, r.value[i].z)
  {
    if !Prefilters(useQuadtree, |years|) then Some(years)
    else match VisibleBoundingBox(cameraPos, zoom)
      case None => None
      case Some(b) => Some(Quadtree.InBox(b, items))
  }

  /**
   * The prefilter replaces the candidates rather than narrowing them: over a
   * quadtree built from all turbines, a turbine inside the view box comes
   * back even when its year is later than `maxYear`, which the year filter
   * had excluded.
   */
  lemma PrefilterIgnoresYear(ts: seq<WindTurbine>, maxYear: int, cameraPos: (real, real), zoom: real, t: WindTurbine)
    requires t in ts && t.year > maxYear && zoom != 0.0
    requires Quadtree.QuadtreeManager.DefaultBounds.Contains(t.x, t.z)
    requires VisibleBoundingBox(cameraPos, zoom).value.Contains(t.x, t.z)
    requires AllIn(SortedKeys(Buckets(ts).Keys), Buckets(ts))
    requires Prefilters(true, |UntilYear(Buckets(ts), SortedKeys(Buckets(ts).Keys), maxYear)|)
    ensures var years := UntilYear(Buckets(ts), SortedKeys(Buckets(ts).Keys), maxYear);
            var items := Quadtree.Items(Quadtree.BuildFrom(Quadtree.QuadtreeManager.DefaultBounds, Quadtree.QuadtreeManager.RootCapacity, ts));
            t !in years && t in Prefiltered(years, true, items, cameraPos, zoom).value
  {
    var bounds, cap := Quadtree.QuadtreeManager.DefaultBounds, Quadtree.QuadtreeManager.RootCapacity;
    var years := UntilYear(Buckets(ts), SortedKeys(Buckets(ts).Keys), maxYear);
    FreshCacheQuery(ts, maxYear);
    var items := Quadtree.Items(Quadtree.BuildFrom(bounds, cap, ts));
    Quadtree.BuildContents(bounds, cap, ts);
    assert t in Quadtree.InBox(bounds, ts);
    assert t in multiset(items);
    var box := VisibleBoundingBox(cameraPos, zoom).value;
    assert t in Quadtree.InBox(box, items);
  }

  // ---------------------------------------------------------------- the manager

  class OptimizedWindTurbineManager {
    var turbines: seq<WindTurbine>
    var yearCache: map<int, seq<WindTurbine>>
    var cacheValid: bool

    const useFrustumCulling: bool
    const frustum: Frustum.ViewFrustum
    /** Ground position of the camera, `(x, z)`. */
    var cameraPos: (real, real)
    var cameraZoom: real

    const useAggressiveLod: bool
    var lodManager: LodAggressive.AggressiveLodManager

    const useInstancedRendering: bool
    var batchData: Instanced.BatchTurbineData

    const useQuadtree: bool
    const quadtree: Quadtree.QuadtreeManager

    var stats: OptimizationStats
    var animationEnabled: bool

    /** The level manager holds one of the preset tables. */
    ghost predicate LodReady()
      reads this`lodManager
    {
      lodManager.Valid() && DigitNames(lodManager.levels)
    }

    /**
     * The quadtree is well formed, the level manager holds a preset table,
     * and the cache and the quadtree only hold managed turbines.
     */
    ghost predicate Valid()
      reads this`lodManager, this`yearCache, this`turbines, quadtree`root
    {
      && quadtree.Valid() && LodReady()
      && CacheWithin(yearCache, turbines) && ItemsWithin(Quadtree.Items(quadtree.root), turbines)
    }

    /** Every switch follows `enableAllOptimizations` except the quadtree, which is always on. */
    constructor (enableAllOptimizations: bool)
      ensures Valid()
      ensures turbines == [] && yearCache == map[] && !cacheValid
      ensures useFrustumCulling == enableAllOptimizations && useAggressiveLod == enableAllOptimizations
      ensures useInstancedRendering == enableAllOptimizations && useQuadtree
      ensures fresh(frustum) && !frustum.extracted
      ensures cameraPos == (0.0, 0.0) && cameraZoom == 1.0
      ensures lodManager.mode == "standard" && batchData.maxTurbines == MinBatchCapacity
      ensures fresh(quadtree) && quadtree.bounds == Quadtree.QuadtreeManager.DefaultBounds
      ensures stats == InitialStats && animationEnabled
    {
      turbines := [];
      yearCache := map[];
      cacheValid := false;
      useFrustumCulling := enableAllOptimizations;
      frustum := new Frustum.ViewFrustum();
      cameraPos := (0.0, 0.0);
      cameraZoom := 1.0;
      useAggressiveLod := enableAllOptimizations;
      var lm := NewStandardLodManager();
      lodManager := lm;
      useInstancedRendering := enableAllOptimizations;
      batchData := new Instanced.BatchTurbineData(MinBatchCapacity);
      useQuadtree := true;
      quadtree := new Quadtree.QuadtreeManager(Quadtree.QuadtreeManager.DefaultBounds);
      stats := InitialStats;
      animationEnabled := true;
    }

    /**
     * `add_turbine`: appends a new turbine of the given year whose blade
     * starts at `(count * 37) mod 360` degrees, and invalidates the cache.
     */
    method AddTurbine(x: real, z: real, height: real, rotorRadius: real, powerKw: real, year: int) returns (t: WindTurbine)
      requires Valid()
      modifies this`turbines, this`cacheValid
      ensures Valid()
      ensures fresh(t) && turbines == old(turbines) + [t] && !cacheValid
      ensures t.x == x && t.z == z && t.height == height && t.rotorRadius == rotorRadius && t.powerKw == powerKw
      ensures t.year == year && t.currentLodLevel == 0 && t.blHeight == 0.18
      ensures t.bladeAngle == ((|old(turbines)| * 37) % 360) as real
    {
      t := new WindTurbine(x, z, height, rotorRadius, powerKw);
      t.year := year;
      t.bladeAngle := ((|turbines| * 37) % 360) as real;
      t.currentLodLevel := 0;
      turbines := turbines + [t];
      cacheValid := false;
    }

    /** The parts of `build_year_cache` besides the year buckets, each only when its optimisation is on. */
    method RebuildIndexes()
      requires Valid()
      modifies this`lodManager, this`batchData, quadtree`root
      ensures Valid()
      ensures useQuadtree ==> quadtree.root == Quadtree.BuildFrom(quadtree.bounds, Quadtree.QuadtreeManager.RootCapacity, turbines)
      ensures !useQuadtree ==> quadtree.root == old(quadtree.root)
      ensures useAggressiveLod ==> fresh(lodManager) && lodManager.mode == LodAggressive.ConfigMode(|turbines|)
      ensures !useAggressiveLod ==> lodManager == old(lodManager)
      ensures useInstancedRendering ==> fresh(batchData) && batchData.count == 0 &&
                                         batchData.maxTurbines == (if |turbines| > MinBatchCapacity then |turbines| else MinBatchCapacity)
      ensures !useInstancedRendering ==> batchData == old(batchData)
    {
      if useQuadtree {
        quadtree.Build(turbines);
        BuildWithin(quadtree.bounds, Quadtree.QuadtreeManager.RootCapacity, turbines);
      }
      if useAggressiveLod {
        lodManager := LodConfigFor(|turbines|);
      }
      if useInstancedRendering {
        var capacity := if |turbines| > MinBatchCapacity then |turbines| else MinBatchCapacity;
        batchData := new Instanced.BatchTurbineData(capacity);
      }
    }

    /**
     * `build_year_cache`: buckets the turbines by year, rebuilds the quadtree,
     * picks the level preset by turbine count and sizes the batch arrays,
     * then marks the cache valid.
     */
    method BuildYearCache()
      requires Valid()
      modifies this`yearCache, this`cacheValid, this`lodManager, this`batchData, quadtree`root
      ensures Valid() && cacheValid && yearCache == Buckets(turbines)
      ensures useQuadtree ==> quadtree.root == Quadtree.BuildFrom(quadtree.bounds, Quadtree.QuadtreeManager.RootCapacity, turbines)
      ensures !useQuadtree ==> quadtree.root == old(quadtree.root)
      ensures useAggressiveLod ==> fresh(lodManager) && lodManager.mode == LodAggressive.ConfigMode(|turbines|)
      ensures !useAggressiveLod ==> lodManager == old(lodManager)
      ensures useInstancedRendering ==> fresh(batchData) && batchData.count == 0 &&
                                         batchData.maxTurbines == (if |turbines| > MinBatchCapacity then |turbines| else MinBatchCapacity)
      ensures !useInstancedRendering ==> batchData == old(batchData)
    {
      // The indexes go first here; they neither read nor write the year cache.
      RebuildIndexes();
      var cache := Manager.BucketByYear(turbines);
      BucketsWithin(turbines);
      yearCache := cache;
      cacheValid := true;
    }

    /**
     * `get_turbines_until_year`: rebuilds the caches when they are stale,
     * then concatenates the year buckets up to `maxYear` in ascending year
     * order.
     */
    method GetTurbinesUntilYear(maxYear: int) returns (r: seq<WindTurbine>)
      requires Valid()
      modifies this`yearCache, this`cacheValid, this`lodManager, this`batchData, quadtree`root
      ensures Valid() && cacheValid
      ensures old(cacheValid) ==> yearCache == old(yearCache) && quadtree.root == old(quadtree.root) &&
                                  lodManager == old(lodManager) && batchData == old(batchData)
      ensures !old(cacheValid) ==> yearCache == Buckets(turbines) &&
                                   (useQuadtree ==> quadtree.root == Quadtree.BuildFrom(quadtree.bounds, Quadtree.QuadtreeManager.RootCapacity, turbines))
      ensures AllIn(SortedKeys(yearCache.Keys), yearCache)
      ensures r == UntilYear(yearCache, SortedKeys(yearCache.Keys), maxYear)
      ensures ItemsWithin(r, turbines)
    {
      if !cacheValid {
        BuildYearCache();
      }
      r := CollectAllUntilYear(yearCache, maxYear);
      UntilYearWithin(yearCache, SortedKeys(yearCache.Keys), maxYear, turbines);
    }

    /** The quadtree stage of `render_optimized`, counting the candidates it removes. */
    method PrefilterCandidates(candidates: seq<WindTurbine>) returns (r: Option<seq<WindTurbine>>)
      requires Valid() && ItemsWithin(candidates, turbines)
      modifies quadtree`queryCount, this`stats
      ensures Valid()
      ensures r == Prefiltered(candidates, useQuadtree, Quadtree.Items(quadtree.root), cameraPos, cameraZoom)
      ensures r.Some? ==> ItemsWithin(r.value, turbines)
      ensures stats.culledByQuadtree == if Prefilters(useQuadtree, |candidates|) && r.Some?
                                        then old(stats).totalTurbines - |r.value|
                                        else old(stats).culledByQuadtree
      ensures stats.totalTurbines == old(stats).totalTurbines && stats.visibleTurbines == old(stats).visibleTurbines &&
              stats.culledByFrustum == old(stats).culledByFrustum && stats.lodDistribution == old(stats).lodDistribution &&
              stats.lodOrder == old(stats).lodOrder
    {
      if !(useQuadtree && |candidates| > QuadtreeThreshold) {
        return Some(candidates);
      }
      var box := VisibleBoundingBox(cameraPos, cameraZoom);
      if box.None? {
        return None;
      }
      var found := quadtree.GetVisible(box.value);
      r := Some(found);
      stats := stats.(culledByQuadtree := stats.totalTurbines - |found|);
    }

    /** What the sphere stage returns for `ts` with the current frustum. */
    function CullResult(ts: seq<WindTurbine>): (r: seq<WindTurbine>)
      reads frustum`planes, frustum`extracted, (set t | t in ts)`blHeight
      ensures |r| <= |ts| && ItemsWithin(r, ts)
    {
      if useFrustumCulling then SphereCulled(frustum.planes, frustum.extracted, ts) else ts
    }

    /**
     * `_frustum_cull_turbines`: the identity when culling is off; otherwise
     * the order-preserving bounding-sphere filter, recording how many it
     * dropped.
     */
    method FrustumCullTurbines(ts: seq<WindTurbine>) returns (visible: seq<WindTurbine>)
      modifies this`stats
      ensures visible == CullResult(ts)
      ensures stats.culledByFrustum == if useFrustumCulling then |ts| - |visible| else old(stats).culledByFrustum
      ensures stats.totalTurbines == old(stats).totalTurbines && stats.visibleTurbines == old(stats).visibleTurbines &&
              stats.culledByQuadtree == old(stats).culledByQuadtree && stats.lodDistribution == old(stats).lodDistribution &&
              stats.lodOrder == old(stats).lodOrder
    {
      if !useFrustumCulling {
        return ts;
      }
      var culled;
      visible, culled := SphereFilter(ts);
      stats := stats.(culledByFrustum := culled);
    }

    /** The loop of `_frustum_cull_turbines`: keeps each turbine whose bounding sphere passes and counts the others. */
    method SphereFilter(ts: seq<WindTurbine>) returns (visible: seq<WindTurbine>, culled: int)
      ensures visible == SphereCulled(frustum.planes, frustum.extracted, ts)
      ensures culled == |ts| - |visible|
    {
      visible := [];
      culled := 0;
      for i := 0 to |ts|
        invariant visible == SphereCulled(frustum.planes, frustum.extracted, ts[..i])
        invariant culled == i - |visible|
      {
        var t := ts[i];
        assert ts[..i + 1][..i] == ts[..i];
        var centerY := t.blHeight + t.height / 2.0;
        var radius := MaxReal(t.height, t.rotorRadius) * 1.2;
        var v := frustum.IsSphereVisible(t.x, centerY, t.z, radius);
        if v {
          visible := visible + [t];
        } else {
          culled := culled + 1;
        }
      }
      assert ts[..|ts|] == ts;
    }

    /**
     * `_update_lod_for_turbines`. `sqrt` stands for the `** 0.5` of the
     * source. Each turbine gets its camera distance and the digit that ends
     * the name of the level chosen for `min(1, distance / 2)`; the
     * statistics count the turbines per level name.
     */
    method UpdateLodForTurbines(ts: seq<WindTurbine>, sqrt: real -> real)
      requires LodReady()
      modifies (set t | t in ts)`currentLodLevel, (set t | t in ts)`distanceToCamera, this`stats
      ensures !useAggressiveLod ==> stats == old(stats) && forall i :: 0 <= i < |ts| ==>
                ts[i].currentLodLevel == old(ts[i].currentLodLevel) && ts[i].distanceToCamera == old(ts[i].distanceToCamera)
      ensures useAggressiveLod ==> forall i :: 0 <= i < |ts| ==>
                ts[i].distanceToCamera == sqrt(GroundDistSq(ts[i], cameraPos)) &&
                ts[i].currentLodLevel == LevelAt(lodManager, ts[i].distanceToCamera)
      ensures useAggressiveLod ==>
                stats == old(stats).(lodDistribution := stats.lodDistribution, lodOrder := stats.lodOrder) &&
                Counted(LevelNames(lodManager, CameraDistances(ts, cameraPos, sqrt)), stats.lodDistribution, stats.lodOrder)
    {
      if !useAggressiveLod {
        return;
      }
      var ds := CameraDistances(ts, cameraPos, sqrt);
      CameraDistancesAgree(ts, cameraPos, sqrt);
      var counts, order := TallyLevels(lodManager, ts, ds);
      stats := stats.(lodDistribution := counts, lodOrder := order);
    }

    /**
     * The selection part of `render_optimized`: year filter, quadtree
     * prefilter, then the sphere cull. `ok` is false for the
     * `ZeroDivisionError` of a zero zoom in the prefilter.
     */
    method SelectVisible(maxYear: int) returns (visible: seq<WindTurbine>, ok: bool)
      requires Valid()
      modifies this`yearCache, this`cacheValid, this`lodManager, this`batchData, quadtree`root, quadtree`queryCount, this`stats
      ensures Valid() && cacheValid
      ensures AllIn(SortedKeys(yearCache.Keys), yearCache)
      ensures var years := UntilYear(yearCache, SortedKeys(yearCache.Keys), maxYear);
              var pre := Prefiltered(years, useQuadtree, Quadtree.Items(quadtree.root), cameraPos, cameraZoom);
              && stats.totalTurbines == |years|
              && (ok <==> pre.Some?)
              && (ok ==> visible == CullResult(pre.value))
              && (ok && Prefilters(useQuadtree, |years|) ==> stats.culledByQuadtree == |years| - |pre.value|)
      ensures ok ==> ItemsWithin(visible, turbines)
    {
      var candidates := GetTurbinesUntilYear(maxYear);
      visible, ok := FilterCandidates(candidates);
    }

    /**
     * The stages of `render_optimized` after the year filter: records the
     * candidate count, then runs the quadtree and the sphere stages.
     */
    method FilterCandidates(candidates: seq<WindTurbine>) returns (visible: seq<WindTurbine>, ok: bool)
      requires Valid() && ItemsWithin(candidates, turbines)
      modifies quadtree`queryCount, this`stats
      ensures Valid()
      ensures var pre := Prefiltered(candidates, useQuadtree, Quadtree.Items(quadtree.root), cameraPos, cameraZoom);
              && stats.totalTurbines == |candidates|
              && (ok <==> pre.Some?)
              && (ok ==> visible == CullResult(pre.value))
              && (ok && Prefilters(useQuadtree, |candidates|) ==> stats.culledByQuadtree == |candidates| - |pre.value|)
      ensures ok ==> ItemsWithin(visible, turbines)
    {
      stats := stats.(totalTurbines := |candidates|);
      var pre := PrefilterCandidates(candidates);
      if pre.None? {
        return [], false;
      }
      visible := FrustumCullTurbines(pre.value);
      ok := true;
    }

    /**
     * The culling part of `render_optimized`: the selection above, then the
     * levels of the turbines that remain. The drawing that follows is not
     * modelled.
     */
    method CullForRender(maxYear: int, sqrt: real -> real) returns (visible: seq<WindTurbine>, ok: bool)
      requires Valid()
      modifies this`yearCache, this`cacheValid, this`lodManager, this`batchData, quadtree`root, quadtree`queryCount, this`stats
      modifies (set t | t in turbines)`currentLodLevel, (set t | t in turbines)`distanceToCamera
      ensures Valid() && cacheValid
      ensures ok ==> stats.visibleTurbines == |visible| && ItemsWithin(visible, turbines)
      ensures ok && useAggressiveLod ==>
                (forall i :: 0 <= i < |visible| ==>
                   visible[i].distanceToCamera == sqrt(GroundDistSq(visible[i], cameraPos)) &&
                   visible[i].currentLodLevel == LevelAt(lodManager, visible[i].distanceToCamera)) &&
                SumCounts(stats.lodOrder, stats.lodDistribution) == |visible|
    {
      visible, ok := SelectVisible(maxYear);
      if ok {
        stats := stats.(visibleTurbines := |visible|);
        UpdateLodForTurbines(visible, sqrt);
      }
    }
  }

  /**
   * The loop of `_update_lod_for_turbines`, given each turbine's camera
   * distance: writes the distance and the level digit and counts the level
   * names.
   */
  method TallyLevels(m: LodAggressive.AggressiveLodManager, ts: seq<WindTurbine>, ds: seq<real>)
    returns (counts: map<string, nat>, order: seq<string>)
    requires |m.levels| == |m.thresholds| > 0 && DigitNames(m.levels)
    requires |ds| == |ts| && forall i, j :: 0 <= i < |ts| && 0 <= j < |ts| && ts[i] == ts[j] ==> ds[i] == ds[j]
    modifies (set t | t in ts)`currentLodLevel, (set t | t in ts)`distanceToCamera
    ensures forall i :: 0 <= i < |ts| ==> ts[i].distanceToCamera == ds[i] && ts[i].currentLodLevel == LevelAt(m, ds[i])
    ensures Counted(LevelNames(m, ds), counts, order)
  {
    counts, order := map[], [];
    ghost var names := LevelNames(m, ds);
    for i := 0 to |ts|
      invariant forall j :: 0 <= j < i ==> ts[j].distanceToCamera == ds[j] && ts[j].currentLodLevel == LevelAt(m, ds[j])
      invariant counts == Tally(names[..i]) && order == KeysInOrder(names[..i])
    {
      var name := UpdateTurbineLod(m, ts, ds, i, ts[i]);
      TallyPrefixStep(names, i);
      order := AddKey(order, name);
      counts := Bump(counts, name);
    }
    assert names[..|ts|] == names;
    TallyCounted(names);
  }

  /**
   * One pass of that loop, for `t == ts[i]`: sets the distance and the level
   * digit of `t`, so the first `i + 1` turbines carry theirs, and returns the
   * level name to count.
   */
  method UpdateTurbineLod(m: LodAggressive.AggressiveLodManager, ts: seq<WindTurbine>, ds: seq<real>, i: nat, t: WindTurbine)
    returns (name: string)
    requires |m.levels| == |m.thresholds| > 0 && DigitNames(m.levels) && i < |ds| == |ts| && t == ts[i] &&
             (forall i, j :: 0 <= i < |ts| && 0 <= j < |ts| && ts[i] == ts[j] ==> ds[i] == ds[j]) &&
             forall j :: 0 <= j < i ==> ts[j].distanceToCamera == ds[j] && ts[j].currentLodLevel == LevelAt(m, ds[j])
    modifies t`currentLodLevel, t`distanceToCamera
    ensures forall j :: 0 <= j <= i ==> ts[j].distanceToCamera == ds[j] && ts[j].currentLodLevel == LevelAt(m, ds[j])
    ensures name == m.levels[LevelAt(m, ds[i])].name
  {
    var distance := ds[i];
    var k := LevelAt(m, distance);
    name := m.levels[k].name;
    var digit := LastDigit(name);
    t.currentLodLevel := digit.value;
    t.distanceToCamera := distance;
  }
}
