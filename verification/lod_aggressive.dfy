/**
 * Aggressive level of detail (windturbine/lod_aggressive.py): three preset
 * tables of up to five levels, a binary search over the sorted thresholds,
 * the expected polygon savings for a set of distances, the preset chosen
 * by turbine count, and a selector by projected screen size.
 */
module LodAggressive {
  import opened Common
  import Lod

  datatype AggressiveLevel = AggressiveLevel(
    name: string,
    polygonRatio: real,
    distanceThreshold: real,
    segmentCount: int,
    bladeCount: int,
    skipNacelle: bool,
    skipBlades: bool,
    useBillboard: bool)

  /** The four assertions of `AggressiveLODLevel.__post_init__`. */
  predicate LevelOk(l: AggressiveLevel)
  {
    0.0 <= l.polygonRatio <= 1.0 && l.distanceThreshold >= 0.0 &&
    l.segmentCount >= 3 && 0 <= l.bladeCount <= 3
  }

  /** Constructing a level: `None` stands for the `AssertionError` of the first failing check. */
  function MakeLevel(name: string, polygonRatio: real, distanceThreshold: real, segmentCount: int,
                     bladeCount: int, skipNacelle: bool, skipBlades: bool, useBillboard: bool): (r: Option<AggressiveLevel>)
    ensures r.Some? <==> (0.0 <= polygonRatio <= 1.0 && distanceThreshold >= 0.0 &&
                          segmentCount >= 3 && 0 <= bladeCount <= 3)
    ensures r.Some? ==> LevelOk(r.value) && r.value.name == name && r.value.polygonRatio == polygonRatio &&
                        r.value.distanceThreshold == distanceThreshold && r.value.segmentCount == segmentCount &&
                        r.value.bladeCount == bladeCount && r.value.skipNacelle == skipNacelle &&
                        r.value.skipBlades == skipBlades && r.value.useBillboard == useBillboard
  {
    if !(0.0 <= polygonRatio <= 1.0) then None
    else if !(distanceThreshold >= 0.0) then None
    else if !(segmentCount >= 3) then None
    else if !(0 <= bladeCount <= 3) then None
    else Some(AggressiveLevel(name, polygonRatio, distanceThreshold, segmentCount, bladeCount,
                              skipNacelle, skipBlades, useBillboard))
  }

  function Threshold(l: AggressiveLevel): real
  {
    l.distanceThreshold
  }

  /** `AGGRESSIVE_LODS`. */
  const AggressiveLods: seq<AggressiveLevel> := [
    AggressiveLevel("LOD0", 1.00, 0.00, 8, 3, false, false, false),
    AggressiveLevel("LOD1", 0.60, 0.15, 6, 3, false, false, false),
    AggressiveLevel("LOD2", 0.25, 0.35, 4, 3, false, false, false),
    AggressiveLevel("LOD3", 0.08, 0.55, 4, 1, true, false, false),
    AggressiveLevel("LOD4", 0.02, 0.85, 3, 0, true, true, true)
  ]

  /** `STANDARD_LODS`: the defaults of windturbine/lod.py with 8 segments and 3 blades. */
  const StandardLods: seq<AggressiveLevel> := [
    AggressiveLevel("LOD0", 1.00, 0.0, 8, 3, false, false, false),
    AggressiveLevel("LOD1", 0.50, 0.3, 8, 3, false, false, false),
    AggressiveLevel("LOD2", 0.10, 0.8, 8, 3, false, false, false)
  ]

  /** `EXTREME_LODS`. */
  const ExtremeLods: seq<AggressiveLevel> := [
    AggressiveLevel("LOD0", 1.00, 0.00, 6, 3, false, false, false),
    AggressiveLevel("LOD1", 0.40, 0.10, 4, 2, false, false, false),
    AggressiveLevel("LOD2", 0.15, 0.25, 4, 1, true, false, false),
    AggressiveLevel("LOD3", 0.05, 0.45, 3, 0, true, true, false),
    AggressiveLevel("LOD4", 0.01, 0.70, 3, 0, true, true, true)
  ]

  /** The preset table a mode names; every unknown mode falls back to the aggressive one. */
  function TableFor(mode: string): seq<AggressiveLevel>
  {
    if mode == "standard" then StandardLods
    else if mode == "extreme" then ExtremeLods
    else AggressiveLods
  }

  function Thresholds(levels: seq<AggressiveLevel>): (ts: seq<real>)
    ensures |ts| == |levels| && forall i :: 0 <= i < |ts| ==> ts[i] == levels[i].distanceThreshold
  {
    seq(|levels|, i requires 0 <= i < |levels| => levels[i].distanceThreshold)
  }

  /** Every preset level passes the constructor's checks. */
  lemma PresetsValid(mode: string)
    ensures forall i :: 0 <= i < |TableFor(mode)| ==> LevelOk(TableFor(mode)[i])
  {
  }

  /** Every preset is already in threshold order, so sorting it changes nothing. */
  lemma PresetsInOrder(mode: string)
    ensures |TableFor(mode)| > 0
    ensures SortBy(TableFor(mode), Threshold) == TableFor(mode)
  {
    var t := TableFor(mode);
    assert SortedBy(t, Threshold) by {
      assert Thresholds(t) == [0.0, 0.3, 0.8] || Thresholds(t) == [0.0, 0.1, 0.25, 0.45, 0.7] ||
             Thresholds(t) == [0.0, 0.15, 0.35, 0.55, 0.85];
    }
    SortBySorted(t, Threshold);
  }

  /** The preset examples: aggressive at 0.0 draws everything, aggressive at 0.95 is the LOD4 billboard, standard at 0.5 is LOD1. */
  lemma PresetExamples()
    ensures Lod.LastAtMost(Thresholds(AggressiveLods), 0.0) == 0 && AggressiveLods[0].polygonRatio == 1.0
    ensures var k := Lod.LastAtMost(Thresholds(AggressiveLods), 0.95);
            k == 4 && AggressiveLods[k].name == "LOD4" && AggressiveLods[k].polygonRatio == 0.02 &&
            AggressiveLods[k].useBillboard
    ensures var k := Lod.LastAtMost(Thresholds(StandardLods), 0.5);
            k == 1 && StandardLods[k].name == "LOD1" && StandardLods[k].polygonRatio == 0.5
  {
    assert Thresholds(AggressiveLods) == [0.0, 0.15, 0.35, 0.55, 0.85];
    assert Thresholds(StandardLods) == [0.0, 0.3, 0.8];
  }

  /**
   * Python's `bisect.bisect_right`: the number of leading entries of an
   * ascending list that are at most `x`.
   */
  method BisectRight(a: seq<real>, x: real) returns (r: nat)
    requires Lod.Ascending(a)
    ensures r <= |a|
    ensures forall i :: 0 <= i < r ==> a[i] <= x
    ensures forall i :: r <= i < |a| ==> a[i] > x
  {
    var lo, hi := 0, |a|;
    while lo < hi
      invariant 0 <= lo <= hi <= |a|
      invariant forall i :: 0 <= i < lo ==> a[i] <= x
      invariant forall i :: hi <= i < |a| ==> a[i] > x
    {
      var mid := (lo + hi) / 2;
      if x < a[mid] {
        hi := mid;
      } else {
        lo := mid + 1;
      }
    }
    r := lo;
  }

  /** `max(0, bisect_right(ts, d) - 1)` picks the same level as the reverse scan of windturbine/lod.py. */
  lemma BisectAgreesWithScan(ts: seq<real>, d: real, r: nat)
    requires |ts| > 0 && Lod.Ascending(ts) && r <= |ts|
    requires forall i :: 0 <= i < r ==> ts[i] <= d
    requires forall i :: r <= i < |ts| ==> ts[i] > d
    ensures (if r == 0 then 0 else r - 1) == Lod.LastAtMost(ts, d)
  {
    var k := Lod.LastAtMost(ts, d);
    if r > 0 {
      assert ts[r - 1] <= d;
    }
  }

  /** Result of `calculate_polygon_savings`; `lodOrder` is the insertion order of the distribution's keys. */
  datatype Savings = Savings(
    basePolygons: int,
    lodPolygons: real,
    savingsPercent: real,
    lodDistribution: map<string, nat>,
    lodOrder: seq<string>,
    mode: string)

  class AggressiveLodManager {
    const mode: string
    /** Set once by the constructor (the source sorts the class-level preset list in place). */
    const levels: seq<AggressiveLevel>
    const thresholds: seq<real>

    ghost predicate Valid()
    {
      |levels| > 0 && SortedBy(levels, Threshold) && thresholds == Thresholds(levels)
    }

    constructor (mode: string)
      ensures Valid() && this.mode == mode
      ensures levels == SortBy(TableFor(mode), Threshold)
    {
      PresetsInOrder(mode);
      this.mode := mode;
      var sorted := SortBy(TableFor(mode), Threshold);
      levels := sorted;
      thresholds := Thresholds(sorted);
    }

    /** `get_lod_for_distance`, as an index into `levels`. */
    method GetLodForDistance(distance: real) returns (k: nat)
      requires Valid()
      ensures k < |levels| && k == Lod.LastAtMost(thresholds, distance)
    {
      assert Lod.Ascending(thresholds);
      var r := BisectRight(thresholds, distance);
      BisectAgreesWithScan(thresholds, distance, r);
      k := if r == 0 then 0 else r - 1;
    }

    /** The level `get_lod_for_distance` picks. */
    function Selected(d: real): (k: nat)
      requires Valid()
      ensures k < |levels|
    {
      Lod.LastAtMost(thresholds, d)
    }

    /** `Σ 100 * ratio` over the levels picked for `ds`. */
    function LodPolygons(ds: seq<real>): real
      requires Valid()
    {
      if ds == [] then 0.0
      else LodPolygons(ds[..|ds| - 1]) + 100.0 * levels[Selected(ds[|ds| - 1])].polygonRatio
    }

    function SelectedNames(ds: seq<real>): (names: seq<string>)
      requires Valid()
      ensures |names| == |ds|
    {
      seq(|ds|, i requires 0 <= i < |ds| => levels[Selected(ds[i])].name)
    }

    /** With ratios in [0, 1] the lod polygons lie between 0 and 100 per turbine. */
    lemma {:induction false} LodPolygonsBounds(ds: seq<real>)
      requires Valid()
      requires forall i :: 0 <= i < |levels| ==> LevelOk(levels[i])
      ensures 0.0 <= LodPolygons(ds) <= 100.0 * |ds| as real
    {
      if ds != [] {
        LodPolygonsBounds(ds[..|ds| - 1]);
        assert LevelOk(levels[Selected(ds[|ds| - 1])]);
      }
    }

    /** The loop of `calculate_polygon_savings`: the polygon total and the per-level counters. */
    method TallyDistances(distances: seq<real>) returns (total: real, counts: map<string, nat>, order: seq<string>)
      requires Valid()
      ensures total == LodPolygons(distances)
      ensures counts == Tally(SelectedNames(distances))
      ensures KeyOrder(order, counts)
      ensures SumCounts(order, counts) == |distances|
    {
      total, counts, order := 0.0, map[], [];
      ghost var names := SelectedNames(distances);
      var i := 0;
      while i < |distances|
        invariant 0 <= i <= |distances|
        invariant total == LodPolygons(distances[..i])
        invariant Counted(names[..i], counts, order)
      {
        var k := GetLodForDistance(distances[i]);
        assert k == Selected(distances[i]);
        assert LodPolygons(distances[..i + 1]) == LodPolygons(distances[..i]) + 100.0 * levels[k].polygonRatio by {
          assert distances[..i + 1][..i] == distances[..i];
        }
        total := total + 100.0 * levels[k].polygonRatio;
        var name := levels[k].name;
        assert names[..i + 1] == names[..i] + [name];
        CountedStep(names[..i], counts, order, name);
        order := AddKey(order, name);
        counts := Bump(counts, name);
        i := i + 1;
      }
      assert distances[..i] == distances;
      assert names[..i] == names;
      assert Counted(names, counts, order);
    }

    /**
     * `calculate_polygon_savings`. `None` models the `ZeroDivisionError`
     * an empty list raises when the savings are divided by zero base polygons.
     */
    method CalculatePolygonSavings(distances: seq<real>) returns (r: Option<Savings>)
      requires Valid()
      ensures r.None? <==> |distances| == 0
      ensures r.Some? ==> r.value.basePolygons == |distances| * 100 &&
                          r.value.lodPolygons == LodPolygons(distances) &&
                          r.value.savingsPercent == (1.0 - LodPolygons(distances) / (|distances| * 100) as real) * 100.0 &&
                          r.value.mode == mode
      ensures r.Some? ==> r.value.lodDistribution == Tally(SelectedNames(distances))
      ensures r.Some? ==> KeyOrder(r.value.lodOrder, r.value.lodDistribution) &&
                          SumCounts(r.value.lodOrder, r.value.lodDistribution) == |distances|
    {
      var totalBase := |distances| * 100;
      var totalWithLod, counts, order := TallyDistances(distances);
      if totalBase == 0 {
        r := None;
      } else {
        r := Some(Savings(totalBase, totalWithLod, (1.0 - totalWithLod / totalBase as real) * 100.0,
                          counts, order, mode));
      }
    }
  }

  /** With valid levels the savings percentage lies between 0 and 100. */
  lemma SavingsPercentBounds(m: AggressiveLodManager, distances: seq<real>)
    requires m.Valid() && |distances| > 0
    requires forall i :: 0 <= i < |m.levels| ==> LevelOk(m.levels[i])
    ensures 0.0 <= (1.0 - m.LodPolygons(distances) / (|distances| * 100) as real) * 100.0 <= 100.0
  {
    m.LodPolygonsBounds(distances);
    var base := (|distances| * 100) as real;
    assert base == 100.0 * |distances| as real;
    RatioInUnit(m.LodPolygons(distances), base);
  }

  /** The preset `get_aggressive_lod_config` chooses for a turbine count. */
  function ConfigMode(turbineCount: int): string
  {
    if turbineCount > 25000 then "extreme"
    else if turbineCount > 10000 then "aggressive"
    else "standard"
  }

  function ModeRank(mode: string): nat
  {
    if mode == "extreme" then 2 else if mode == "aggressive" then 1 else 0
  }

  /** More turbines never choose a finer preset; the three bands are (…, 10000], (10000, 25000] and (25000, …). */
  lemma ConfigModeMonotone(c1: int, c2: int)
    requires c1 <= c2
    ensures ModeRank(ConfigMode(c1)) <= ModeRank(ConfigMode(c2))
    ensures ConfigMode(c1) == "extreme" <==> c1 > 25000
    ensures ConfigMode(c1) == "standard" <==> c1 <= 10000
  {
  }

  method GetAggressiveLodConfig(turbineCount: int) returns (m: AggressiveLodManager)
    ensures fresh(m) && m.Valid() && m.mode == ConfigMode(turbineCount)
    ensures m.levels == TableFor(ConfigMode(turbineCount))
  {
    PresetsInOrder(ConfigMode(turbineCount));
    m := new AggressiveLodManager(ConfigMode(turbineCount));
  }

  /** Projected height in pixels; `Infinite` is `float('inf')`. */
  datatype ScreenSize = Infinite | Finite(px: real)

  /** Pixel buckets: below 10 gives 4, below 25 gives 3, below 50 gives 2, below 100 gives 1, else 0. */
  function TargetLod(s: ScreenSize): (t: nat)
    ensures t <= 4
    ensures s.Infinite? ==> t == 0
  {
    if s.Infinite? then 0
    else if s.px < 10.0 then 4
    else if s.px < 25.0 then 3
    else if s.px < 50.0 then 2
    else if s.px < 100.0 then 1
    else 0
  }

  /** A larger projection never asks for a coarser level. */
  lemma TargetLodMonotone(p1: real, p2: real)
    requires p1 <= p2
    ensures TargetLod(Finite(p2)) <= TargetLod(Finite(p1))
  {
  }

  class HybridLodSelector {
    const screenHeight: int
    /** `screen_height / (2 * tan(fov / 2))`, computed by the caller. */
    const screenFactor: real

    constructor (screenHeight: int, screenFactor: real)
      ensures this.screenHeight == screenHeight && this.screenFactor == screenFactor
    {
      this.screenHeight := screenHeight;
      this.screenFactor := screenFactor;
    }

    function GetScreenSize(objectHeight: real, distance: real): (s: ScreenSize)
      ensures s.Infinite? <==> distance < 0.001
      ensures s.Finite? ==> s.px * distance == objectHeight * screenFactor
    {
      if distance < 0.001 then Infinite else Finite(objectHeight * screenFactor / distance)
    }

    /** `select_lod`, as an index into the manager's levels. */
    function SelectLod(objectHeight: real, distance: real, m: AggressiveLodManager): (k: nat)
      requires m.Valid()
      ensures k < |m.levels|
      ensures k == TargetLod(GetScreenSize(objectHeight, distance)) || k == |m.levels| - 1
      ensures k <= TargetLod(GetScreenSize(objectHeight, distance))
      ensures distance < 0.001 ==> k == 0
    {
      var t := TargetLod(GetScreenSize(objectHeight, distance));
      if t < |m.levels| - 1 then t else |m.levels| - 1
    }

    /** For a non-negative height and factor, a farther object never gets a finer level. */
    lemma SelectLodMonotone(h: real, d1: real, d2: real, m: AggressiveLodManager)
      requires m.Valid() && h >= 0.0 && screenFactor >= 0.0 && d1 <= d2
      ensures SelectLod(h, d1, m) <= SelectLod(h, d2, m)
    {
      if d1 >= 0.001 {
        var p1, p2 := h * screenFactor / d1, h * screenFactor / d2;
        QuotientAntitone(h * screenFactor, d1, d2);
        TargetLodMonotone(p2, p1);
      }
    }
  }

  lemma RatioInUnit(a: real, b: real)
    requires b > 0.0 && 0.0 <= a <= b
    ensures 0.0 <= a / b <= 1.0
  {
    assert a / b * b == a;
  }
}
