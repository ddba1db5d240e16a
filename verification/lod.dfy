/**
 * Distance-based level of detail (windturbine/lod.py): a threshold table
 * sorted by distance, a turbine that switches level as the camera moves,
 * and batches of turbines grouped by level name.
 */
module Lod {
  import opened Common

  datatype LodLevel = LodLevel(name: string, polygonRatio: real, distanceThreshold: real)

  function Threshold(l: LodLevel): real
  {
    l.distanceThreshold
  }

  /** `LODManager.DEFAULT_LODS`. */
  const DefaultLods: seq<LodLevel> := [
    LodLevel("LOD0", 1.0, 0.0),
    LodLevel("LOD1", 0.5, 0.3),
    LodLevel("LOD2", 0.1, 0.8)
  ]

  function Thresholds(levels: seq<LodLevel>): (ts: seq<real>)
    ensures |ts| == |levels| && forall i :: 0 <= i < |ts| ==> ts[i] == levels[i].distanceThreshold
  {
    seq(|levels|, i requires 0 <= i < |levels| => levels[i].distanceThreshold)
  }

  predicate Ascending(ts: seq<real>)
  {
    forall i, j :: 0 <= i < j < |ts| ==> ts[i] <= ts[j]
  }

  /**
   * The level picked for `d`: scanning from the highest threshold down, the
   * first whose threshold is at most `d`; index 0 when none is.
   */
  function LastAtMost(ts: seq<real>, d: real): (k: nat)
    requires |ts| > 0
    ensures k < |ts|
    ensures forall i :: k < i < |ts| ==> ts[i] > d
    ensures ts[k] <= d || (k == 0 && forall i :: 0 <= i < |ts| ==> ts[i] > d)
    decreases |ts|
  {
    var last := |ts| - 1;
    if ts[last] <= d then last
    else if last == 0 then 0
    else LastAtMost(ts[..last], d)
  }

  /** Over an ascending table a larger distance never selects a finer level. */
  lemma LastAtMostMonotone(ts: seq<real>, d1: real, d2: real)
    requires |ts| > 0 && Ascending(ts) && d1 <= d2
    ensures LastAtMost(ts, d1) <= LastAtMost(ts, d2)
  {
  }

  /** Over an ascending table the picked level is exactly the last one whose threshold is at most `d`. */
  lemma LastAtMostAscending(ts: seq<real>, d: real, i: nat)
    requires |ts| > 0 && Ascending(ts) && i < |ts|
    ensures ts[i] <= d ==> i <= LastAtMost(ts, d)
    ensures i <= LastAtMost(ts, d) && ts[0] <= d ==> ts[i] <= d
  {
  }

  /** With the default table: [0, 0.3) gives LOD0, [0.3, 0.8) gives LOD1, from 0.8 on LOD2; below 0 also LOD0. */
  lemma DefaultSelection(d: real)
    ensures d < 0.3 ==> LastAtMost(Thresholds(DefaultLods), d) == 0
    ensures 0.3 <= d < 0.8 ==> LastAtMost(Thresholds(DefaultLods), d) == 1
    ensures 0.8 <= d ==> LastAtMost(Thresholds(DefaultLods), d) == 2
  {
    var ts := Thresholds(DefaultLods);
    assert ts == [0.0, 0.3, 0.8];
  }

  /** The default table is already in threshold order, so sorting keeps it. */
  lemma DefaultsSorted()
    ensures SortBy(DefaultLods, Threshold) == DefaultLods
  {
    SortBySorted(DefaultLods, Threshold);
  }

  class LodManager {
    /** Set once by the constructor (the source sorts the list object in place). */
    const levels: seq<LodLevel>

    ghost predicate Valid()
    {
      |levels| > 0 && SortedBy(levels, Threshold)
    }

    /** `lod_levels or DEFAULT_LODS`, sorted by threshold. */
    constructor (given: Option<seq<LodLevel>>)
      ensures Valid()
      ensures given.Some? && |given.value| > 0 ==> levels == SortBy(given.value, Threshold)
      ensures !(given.Some? && |given.value| > 0) ==> levels == DefaultLods
    {
      var source := if given.Some? && |given.value| > 0 then given.value else DefaultLods;
      DefaultsSorted();
      levels := SortBy(source, Threshold);
    }

    /** `get_lod_for_distance`, as an index into `levels`. */
    function GetLodForDistance(distance: real): (k: nat)
      requires Valid()
      ensures k < |levels|
      ensures forall i :: k < i < |levels| ==> levels[i].distanceThreshold > distance
      ensures levels[k].distanceThreshold <= distance ||
              (k == 0 && forall i :: 0 <= i < |levels| ==> levels[i].distanceThreshold > distance)
    {
      LastAtMost(Thresholds(levels), distance)
    }

    /** `get_polygon_count`: `int(base * ratio)` of the selected level. */
    function GetPolygonCount(base: int, distance: real): (n: int)
      requires Valid()
      ensures n == PolygonsAt(base, levels[GetLodForDistance(distance)])
      ensures base >= 0 && 0.0 <= levels[GetLodForDistance(distance)].polygonRatio <= 1.0 ==> 0 <= n <= base
    {
      PolygonsAt(base, levels[GetLodForDistance(distance)])
    }
  }

  /** Polygons drawn for a model of `base` polygons at a level: truncated toward zero. */
  function PolygonsAt(base: int, l: LodLevel): (n: int)
    ensures base >= 0 && 0.0 <= l.polygonRatio <= 1.0 ==> 0 <= n <= base
  {
    PolygonBound(base, l.polygonRatio);
    Trunc(base as real * l.polygonRatio)
  }

  lemma PolygonBound(base: int, ratio: real)
    ensures base >= 0 && 0.0 <= ratio <= 1.0 ==> 0 <= Trunc(base as real * ratio) <= base
  {
    if base >= 0 && 0.0 <= ratio <= 1.0 {
      assert base as real * ratio <= base as real * 1.0;
      assert base as real * ratio >= 0.0;
    }
  }

  class LodTurbine {
    const x: real
    const z: real
    const basePolygonCount: int
    const lodManager: LodManager
    /** Index of the current level in `lodManager.levels`; `None` before the first update. */
    var currentLod: Option<nat>
    var currentPolygonCount: int
    var distanceToCamera: real
    var lodSwitches: nat
    var renderCount: nat

    ghost predicate Valid()
      reads this
    {
      lodManager.Valid() &&
      (currentLod.Some? ==> currentLod.value < |lodManager.levels| &&
                            currentPolygonCount == PolygonsAt(basePolygonCount, lodManager.levels[currentLod.value]))
    }

    /** A turbine sharing `manager`; it starts without a level. */
    constructor (x: real, z: real, basePolygonCount: int, manager: LodManager)
      requires manager.Valid()
      ensures Valid() && lodManager == manager
      ensures this.x == x && this.z == z && this.basePolygonCount == basePolygonCount
      ensures currentLod == None && currentPolygonCount == basePolygonCount
      ensures distanceToCamera == 0.0 && lodSwitches == 0 && renderCount == 0
    {
      this.x := x;
      this.z := z;
      this.basePolygonCount := basePolygonCount;
      lodManager := manager;
      currentLod := None;
      currentPolygonCount := basePolygonCount;
      distanceToCamera := 0.0;
      lodSwitches := 0;
      renderCount := 0;
    }

    /** Without a shared manager (`lod_manager or LODManager()`) the turbine gets a fresh default one. */
    constructor WithDefaultManager(x: real, z: real, basePolygonCount: int)
      ensures fresh(lodManager) && lodManager.levels == DefaultLods
      ensures Valid()
      ensures this.x == x && this.z == z && this.basePolygonCount == basePolygonCount
      ensures currentLod == None && currentPolygonCount == basePolygonCount
      ensures distanceToCamera == 0.0 && lodSwitches == 0 && renderCount == 0
    {
      var m := new LodManager(None);
      this.x := x;
      this.z := z;
      this.basePolygonCount := basePolygonCount;
      lodManager := m;
      currentLod := None;
      currentPolygonCount := basePolygonCount;
      distanceToCamera := 0.0;
      lodSwitches := 0;
      renderCount := 0;
    }

    /**
     * `update_lod`; `distance` is the Euclidean distance to the camera (the
     * square root is an input). Switches exactly when the level chosen for
     * min(1, distance) differs from the current one.
     */
    method UpdateLod(camX: real, camZ: real, distance: real) returns (changed: bool)
      requires Valid()
      requires distance >= 0.0 && distance * distance == (x - camX) * (x - camX) + (z - camZ) * (z - camZ)
      modifies this`currentLod, this`currentPolygonCount, this`distanceToCamera, this`lodSwitches
      ensures Valid()
      ensures distanceToCamera == distance
      ensures var k := lodManager.GetLodForDistance(MinReal(1.0, distance));
              (changed <==> old(currentLod) != Some(k)) &&
              currentLod == Some(k) &&
              (changed ==> lodSwitches == old(lodSwitches) + 1) &&
              (!changed ==> lodSwitches == old(lodSwitches) && currentPolygonCount == old(currentPolygonCount))
    {
      distanceToCamera := distance;
      var normalized := MinReal(1.0, distanceToCamera);
      var k := lodManager.GetLodForDistance(normalized);
      if currentLod != Some(k) {
        currentLod := Some(k);
        currentPolygonCount := PolygonsAt(basePolygonCount, lodManager.levels[k]);
        lodSwitches := lodSwitches + 1;
        return true;
      }
      return false;
    }

    /** `render`: counts the call and reports the level's polygons when a level is in use. */
    method Render(useLod: bool) returns (n: int)
      requires Valid()
      modifies this`renderCount
      ensures renderCount == old(renderCount) + 1
      ensures useLod && currentLod.Some? ==> n == PolygonsAt(basePolygonCount, lodManager.levels[currentLod.value])
      ensures !(useLod && currentLod.Some?) ==> n == basePolygonCount
    {
      renderCount := renderCount + 1;
      if useLod && currentLod.Some? {
        n := currentPolygonCount;
      } else {
        n := basePolygonCount;
      }
    }
  }

  /** The batch a turbine joins: its level's name, "LOD0" before the first update. */
  function BatchName(t: LodTurbine): string
    reads t
    requires t.Valid()
  {
    if t.currentLod.Some? then t.lodManager.levels[t.currentLod.value].name else "LOD0"
  }

  class LodRenderBatch {
    /** The keys of the `batches` dictionary, in insertion order. */
    var names: seq<string>
    var batches: map<string, seq<LodTurbine>>
    var totalPolygons: int
    /** Number of `add_turbine` calls so far. */
    ghost var added: nat

    ghost predicate Valid()
      reads this
    {
      Distinct(names) && (forall n :: n in batches <==> n in names) && SumSizes(names, batches) == added
    }

    constructor ()
      ensures Valid() && names == [] && batches == map[] && totalPolygons == 0 && added == 0
    {
      names := [];
      batches := map[];
      totalPolygons := 0;
      added := 0;
    }

    /** `add_turbine`: appends to the batch of the turbine's level; the batch sizes always add up to the number of adds. */
    method AddTurbine(t: LodTurbine)
      requires Valid() && t.Valid()
      modifies this
      ensures Valid() && added == old(added) + 1
      ensures batches == old(batches)[BatchName(t) := Get(old(batches), BatchName(t)) + [t]]
      ensures names == if BatchName(t) in old(names) then old(names) else old(names) + [BatchName(t)]
      ensures totalPolygons == old(totalPolygons) + t.currentPolygonCount
    {
      var name := if t.currentLod.Some? then t.lodManager.levels[t.currentLod.value].name else "LOD0";
      var v := Get(batches, name) + [t];
      if name !in batches {
        SumSizesUpdate(names, batches, name, v);
        SumSizesAppend(names, batches[name := v], name);
        names := names + [name];
      } else {
        SumSizesUpdate(names, batches, name, v);
      }
      batches := batches[name := v];
      totalPolygons := totalPolygons + t.currentPolygonCount;
      added := added + 1;
    }

    /** The set of turbines held in some batch. */
    ghost function Members(): set<LodTurbine>
      reads this
    {
      set n, t | n in batches && t in batches[n] :: t
    }

    /** `get_batch_stats`: per batch, its size and the sum of its turbines' polygon counts. */
    function GetBatchStats(): (s: map<string, (nat, int)>)
      reads this, Members()
      ensures s.Keys == batches.Keys
      ensures forall n :: n in s ==> s[n].0 == |batches[n]|
    {
      map n | n in batches :: (|batches[n]|, PolygonSum(batches[n]))
    }
  }

  function PolygonSum(ts: seq<LodTurbine>): int
    reads set t | t in ts
  {
    if ts == [] then 0 else ts[0].currentPolygonCount + PolygonSum(ts[1..])
  }
}
