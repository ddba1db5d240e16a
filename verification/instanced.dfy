/**
 * The instancing buffers of windturbine/instanced_rendering.py: fixed-size
 * per-instance arrays filled from turbine lists, the power colour ramp, the
 * rotation animation, the level-of-detail grouping of the pseudo-instanced
 * renderer, and the structure-of-arrays batch data.
 */
module Instanced {
  import opened Common

  type Rgb = (real, real, real)

  /**
   * What the buffers read from a turbine. `getattr` supplies 0.0 for a
   * missing blade angle, 0 for a missing level and 3000 kW for missing power.
   */
  datatype InstanceSource = InstanceSource(x: real, z: real, bladeAngle: Option<real>, lodLevel: Option<int>, powerKw: Option<real>)

  function AngleOf(t: InstanceSource): real
  {
    if t.bladeAngle.Some? then t.bladeAngle.value else 0.0
  }

  function LodOf(t: InstanceSource): int
  {
    if t.lodLevel.Some? then t.lodLevel.value else 0
  }

  function PowerOf(t: InstanceSource): real
  {
    if t.powerKw.Some? then t.powerKw.value else 3000.0
  }

  function MinInt(a: int, b: int): (m: int)
    ensures m <= a && m <= b && (m == a || m == b)
  {
    if a <= b then a else b
  }

  // ---------------------------------------------------------------- scale and colour

  /**
   * `[1.0, 0.7, 0.4][min(lod, 2)]`. Python reads a negative index from the
   * end of the list, so levels -1, -2 and -3 give 0.4, 0.7 and 1.0; a level
   * below -3 is an `IndexError`.
   */
  function ScaleForLod(lod: int): real
    requires lod >= -3
  {
    var table := [1.0, 0.7, 0.4];
    var i := MinInt(lod, 2);
    if i >= 0 then table[i] else table[3 + i]
  }

  /** `scale_map[np.clip(lod, 0, 2)]` of the vectorised path. */
  function ClippedScale(lod: int): real
  {
    var table := [1.0, 0.7, 0.4];
    if lod <= 0 then table[0] else if lod >= 2 then table[2] else table[lod]
  }

  /** The scale is 1.0, 0.7 or 0.4 for level 0, 1 and 2 or more; both paths agree on non-negative levels. */
  lemma ScaleLevels(lod: int)
    requires lod >= 0
    ensures ScaleForLod(lod) == ClippedScale(lod)
    ensures ScaleForLod(lod) == (if lod == 0 then 1.0 else if lod == 1 then 0.7 else 0.4)
  {
  }

  /** A finer level never gets a larger scale. */
  lemma ScaleNonIncreasing(a: int, b: int)
    requires 0 <= a <= b
    ensures ScaleForLod(b) <= ScaleForLod(a)
  {
  }

  /** On a negative level the two paths part: the list path wraps around, the clipped path gives full size. */
  lemma ScalePathsDisagreeBelowZero()
    ensures ScaleForLod(-1) == 0.4 && ClippedScale(-1) == 1.0
  {
  }

  /** `_set_power_color`: green to yellow below half of 8000 kW, then yellow to red. */
  function PowerRamp(powerKw: real): (c: Rgb)
    ensures c.2 == 0.0
    ensures powerKw >= 0.0 ==> 0.0 <= c.0 <= 1.0 && 0.0 <= c.1 <= 1.0
    ensures powerKw < 4000.0 ==> c.0 * 4000.0 == powerKw && c.1 == 1.0
    ensures 4000.0 <= powerKw < 8000.0 ==> c.0 == 1.0 && c.1 * 4000.0 == 8000.0 - powerKw
    ensures powerKw >= 8000.0 ==> c == (1.0, 0.0, 0.0)
  {
    var normalized := MinReal(1.0, powerKw / 8000.0);
    if normalized < 0.5 then
      var t := normalized * 2.0;
      (t, 1.0, 0.0)
    else
      var t := (normalized - 0.5) * 2.0;
      (1.0, 1.0 - t, 0.0)
  }

  /** `_set_power_colors_vectorized`: the same ramp after clipping the normalised power into `[0, 1]`. */
  function ClippedPowerRamp(powerKw: real): Rgb
  {
    var n := powerKw / 8000.0;
    var normalized := if n < 0.0 then 0.0 else if n > 1.0 then 1.0 else n;
    if normalized < 0.5 then (normalized * 2.0, 1.0, 0.0) else (1.0, 1.0 - (normalized - 0.5) * 2.0, 0.0)
  }

  /** The two colour paths agree on non-negative power; on negative power only the clipped one stays in range. */
  lemma PowerRampPaths(powerKw: real)
    ensures powerKw >= 0.0 ==> ClippedPowerRamp(powerKw) == PowerRamp(powerKw)
    ensures powerKw < 0.0 ==> ClippedPowerRamp(powerKw) == (0.0, 1.0, 0.0) && PowerRamp(powerKw).0 < 0.0
  {
  }

  // ---------------------------------------------------------------- instance buffer

  class InstanceBuffer {
    const maxInstances: nat
    const positionsX: array<real>
    const positionsZ: array<real>
    const rotations: array<real>
    const scales: array<real>
    const colors: array<Rgb>
    const lodLevels: array<int>
    var instanceCount: nat
    var gpuDirty: bool

    /** Every array has one slot per possible instance, the real arrays are distinct, and the count fits. */
    ghost predicate Valid()
      reads this
    {
      && positionsX.Length == maxInstances && positionsZ.Length == maxInstances
      && rotations.Length == maxInstances && scales.Length == maxInstances
      && colors.Length == maxInstances && lodLevels.Length == maxInstances
      && positionsX != positionsZ && positionsX != rotations && positionsX != scales
      && positionsZ != rotations && positionsZ != scales && rotations != scales
      && instanceCount <= maxInstances
    }

    /** Slot `i` holds what `set_instances` writes for turbine `t`. */
    ghost predicate Holds(i: nat, t: InstanceSource)
      requires Valid() && i < maxInstances
      reads this, positionsX, positionsZ, rotations, scales, colors, lodLevels
    {
      && positionsX[i] == t.x && positionsZ[i] == t.z
      && rotations[i] == AngleOf(t) && lodLevels[i] == LodOf(t)
      && LodOf(t) >= -3 && scales[i] == ScaleForLod(LodOf(t))
      && colors[i] == PowerRamp(PowerOf(t))
    }

    /** `InstanceBuffer(max_instances)`: zero positions, rotations and levels, unit scales and white colours. */
    constructor(maxInstances: nat)
      ensures this.maxInstances == maxInstances && Valid()
      ensures instanceCount == 0 && gpuDirty
      ensures fresh(positionsX) && fresh(positionsZ) && fresh(rotations) && fresh(scales) && fresh(colors) && fresh(lodLevels)
      ensures forall i :: 0 <= i < maxInstances ==>
                positionsX[i] == 0.0 && positionsZ[i] == 0.0 && rotations[i] == 0.0 && scales[i] == 1.0
                && colors[i] == (1.0, 1.0, 1.0) && lodLevels[i] == 0
    {
      this.maxInstances := maxInstances;
      positionsX := new real[maxInstances](_ => 0.0);
      positionsZ := new real[maxInstances](_ => 0.0);
      rotations := new real[maxInstances](_ => 0.0);
      scales := new real[maxInstances](_ => 1.0);
      colors := new Rgb[maxInstances](_ => (1.0, 1.0, 1.0));
      lodLevels := new int[maxInstances](_ => 0);
      instanceCount := 0;
      gpuDirty := true;
    }

    /** `_set_power_color`: only slot `idx` of the colours changes. */
    method SetPowerColor(idx: nat, powerKw: real)
      requires Valid() && idx < maxInstances
      modifies colors
      ensures colors[idx] == PowerRamp(powerKw)
      ensures forall j :: 0 <= j < colors.Length && j != idx ==> colors[j] == old(colors[j])
    {
      var normalized := MinReal(1.0, powerKw / 8000.0);
      if normalized < 0.5 {
        var t := normalized * 2.0;
        colors[idx] := (t, 1.0, 0.0);
      } else {
        var t := (normalized - 0.5) * 2.0;
        colors[idx] := (1.0, 1.0 - t, 0.0);
      }
    }

    /**
     * `set_instances`: the first `min(len(turbines), max_instances)` slots
     * take the turbines in order; later slots keep their contents. The camera
     * position argument is unused by the source and left out.
     */
    method SetInstances(turbines: seq<InstanceSource>)
      requires Valid()
      requires forall i :: 0 <= i < |turbines| && i < maxInstances ==> LodOf(turbines[i]) >= -3
      modifies this, positionsX, positionsZ, rotations, scales, colors, lodLevels
      ensures Valid() && gpuDirty
      ensures instanceCount == MinInt(|turbines|, maxInstances)
      ensures forall i :: 0 <= i < instanceCount ==> Holds(i, turbines[i])
      ensures forall i :: instanceCount <= i < maxInstances ==>
                positionsX[i] == old(positionsX[i]) && positionsZ[i] == old(positionsZ[i])
                && rotations[i] == old(rotations[i]) && scales[i] == old(scales[i])
                && colors[i] == old(colors[i]) && lodLevels[i] == old(lodLevels[i])
    {
      var n := MinInt(|turbines|, maxInstances);
      instanceCount := n;
      for i := 0 to n
        invariant Valid() && instanceCount == n
        invariant forall j :: 0 <= j < i ==> Holds(j, turbines[j])
        invariant forall j :: i <= j < maxInstances ==>
                    positionsX[j] == old(positionsX[j]) && positionsZ[j] == old(positionsZ[j])
                    && rotations[j] == old(rotations[j]) && scales[j] == old(scales[j])
                    && colors[j] == old(colors[j]) && lodLevels[j] == old(lodLevels[j])
      {
        var t := turbines[i];
        positionsX[i] := t.x;
        positionsZ[i] := t.z;
        rotations[i] := AngleOf(t);
        var lod := LodOf(t);
        lodLevels[i] := lod;
        scales[i] := ScaleForLod(lod);
        SetPowerColor(i, PowerOf(t));
      }
      gpuDirty := true;
    }

    /**
     * `set_instances_vectorized`: the same slots filled from parallel arrays,
     * with the clipped scale and colour. The source needs every array to
     * have at least `n` entries.
     */
    method SetInstancesVectorized(x: seq<real>, z: seq<real>, rots: seq<real>, lods: seq<int>, powers: seq<real>)
      requires Valid()
      requires var n := MinInt(|x|, maxInstances); |z| >= n && |rots| >= n && |lods| >= n && |powers| >= n
      modifies this, positionsX, positionsZ, rotations, scales, colors, lodLevels
      ensures Valid() && gpuDirty
      ensures instanceCount == MinInt(|x|, maxInstances)
      ensures forall i :: 0 <= i < instanceCount ==>
                positionsX[i] == x[i] && positionsZ[i] == z[i] && rotations[i] == rots[i]
                && lodLevels[i] == lods[i] && scales[i] == ClippedScale(lods[i]) && colors[i] == ClippedPowerRamp(powers[i])
      ensures forall i :: instanceCount <= i < maxInstances ==>
                positionsX[i] == old(positionsX[i]) && positionsZ[i] == old(positionsZ[i])
                && rotations[i] == old(rotations[i]) && scales[i] == old(scales[i])
                && colors[i] == old(colors[i]) && lodLevels[i] == old(lodLevels[i])
    {
      var n := MinInt(|x|, maxInstances);
      instanceCount := n;
      forall i | 0 <= i < n {
        positionsX[i] := x[i];
      }
      forall i | 0 <= i < n {
        positionsZ[i] := z[i];
      }
      forall i | 0 <= i < n {
        rotations[i] := rots[i];
      }
      forall i | 0 <= i < n {
        lodLevels[i] := lods[i];
      }
      forall i | 0 <= i < n {
        scales[i] := ClippedScale(lods[i]);
      }
      forall i | 0 <= i < n {
        colors[i] := ClippedPowerRamp(powers[i]);
      }
      gpuDirty := true;
    }

    /** `update_rotations`: the first `instance_count` rotations advance by `delta` modulo 360. */
    method UpdateRotations(delta: real)
      requires Valid()
      modifies this`gpuDirty, rotations
      ensures Valid() && gpuDirty
      ensures forall i :: 0 <= i < instanceCount ==> rotations[i] == FloorMod(old(rotations[i]) + delta, 360.0)
      ensures forall i :: 0 <= i < instanceCount ==> 0.0 <= rotations[i] < 360.0
      ensures forall i :: instanceCount <= i < maxInstances ==> rotations[i] == old(rotations[i])
    {
      forall i | 0 <= i < instanceCount {
        rotations[i] := FloorMod(rotations[i] + delta, 360.0);
      }
      gpuDirty := true;
    }
  }

  // ---------------------------------------------------------------- pseudo-instanced rendering

  /** `lod_groups.get(lod, lod_groups[0])`: levels other than 1 and 2 go to group 0. */
  function GroupOf(lod: int): (g: int)
    ensures 0 <= g <= 2
    ensures lod in {0, 1, 2} ==> g == lod
  {
    if lod == 1 || lod == 2 then lod else 0
  }

  /** The turbines of group `g`, in input order. */
  function InGroup(ts: seq<InstanceSource>, g: int): seq<InstanceSource>
  {
    if ts == [] then []
    else InGroup(ts[..|ts| - 1], g) + (if GroupOf(LodOf(ts[|ts| - 1])) == g then [ts[|ts| - 1]] else [])
  }

  /** Appending one turbine appends it to its own group and to no other. */
  lemma InGroupSnoc(init: seq<InstanceSource>, last: InstanceSource, g: int)
    ensures InGroup(init + [last], g) == InGroup(init, g) + (if GroupOf(LodOf(last)) == g then [last] else [])
  {
    assert (init + [last])[..|init|] == init;
  }

  /** The three groups partition the turbines: together they hold each turbine exactly once. */
  lemma {:induction false} GroupsPartition(ts: seq<InstanceSource>)
    ensures multiset(InGroup(ts, 0)) + multiset(InGroup(ts, 1)) + multiset(InGroup(ts, 2)) == multiset(ts)
    ensures |InGroup(ts, 0)| + |InGroup(ts, 1)| + |InGroup(ts, 2)| == |ts|
  {
    if ts != [] {
      var init, last := ts[..|ts| - 1], ts[|ts| - 1];
      assert ts == init + [last];
      GroupsPartition(init);
      InGroupSnoc(init, last, 0);
      InGroupSnoc(init, last, 1);
      InGroupSnoc(init, last, 2);
      var m0, m1, m2 := multiset(InGroup(init, 0)), multiset(InGroup(init, 1)), multiset(InGroup(init, 2));
      var g := GroupOf(LodOf(last));
      if g == 0 {
        assert multiset(InGroup(ts, 0)) == m0 + multiset{last};
      } else if g == 1 {
        assert multiset(InGroup(ts, 1)) == m1 + multiset{last};
      } else {
        assert multiset(InGroup(ts, 2)) == m2 + multiset{last};
      }
      assert multiset(ts) == multiset(init) + multiset{last};
    }
    assert |ts| == |multiset(ts)|;
  }

  /** One draw call per non-empty group. */
  function DrawCalls(g0: seq<InstanceSource>, g1: seq<InstanceSource>, g2: seq<InstanceSource>): nat
  {
    (if g0 != [] then 1 else 0) + (if g1 != [] then 1 else 0) + (if g2 != [] then 1 else 0)
  }

  /** Between one and three draw calls for a non-empty list, none for an empty one. */
  lemma DrawCallsBounds(ts: seq<InstanceSource>)
    ensures var d := DrawCalls(InGroup(ts, 0), InGroup(ts, 1), InGroup(ts, 2));
            d <= 3 && (d == 0 <==> ts == [])
  {
    GroupsPartition(ts);
  }

  class InstancedTurbineRenderer {
    const buffer: InstanceBuffer
    var drawCalls: nat
    var instances: nat
    var triangles: nat

    constructor(maxTurbines: nat)
      ensures fresh(buffer) && buffer.Valid() && buffer.maxInstances == maxTurbines
      ensures drawCalls == 0 && instances == 0 && triangles == 0
    {
      buffer := new InstanceBuffer(maxTurbines);
      drawCalls := 0;
      instances := 0;
      triangles := 0;
    }

    /**
     * The grouping and counting of `render_instances` (the drawing itself is
     * left out): each turbine joins the group of its level, and every
     * non-empty group costs one draw call. Returns the groups in drawing order.
     */
    method RenderInstances(turbines: seq<InstanceSource>) returns (g0: seq<InstanceSource>, g1: seq<InstanceSource>, g2: seq<InstanceSource>)
      modifies this`drawCalls, this`instances
      ensures instances == |turbines|
      ensures g0 == InGroup(turbines, 0) && g1 == InGroup(turbines, 1) && g2 == InGroup(turbines, 2)
      ensures drawCalls == DrawCalls(g0, g1, g2)
    {
      instances := |turbines|;
      drawCalls := 0;
      g0, g1, g2 := [], [], [];
      for i := 0 to |turbines|
        invariant g0 == InGroup(turbines[..i], 0) && g1 == InGroup(turbines[..i], 1) && g2 == InGroup(turbines[..i], 2)
      {
        var t := turbines[i];
        assert turbines[..i + 1][..i] == turbines[..i];
        var lod := LodOf(t);
        if lod == 1 {
          g1 := g1 + [t];
        } else if lod == 2 {
          g2 := g2 + [t];
        } else {
          g0 := g0 + [t];
        }
      }
      assert turbines[..|turbines|] == turbines;
      if g0 != [] {
        drawCalls := drawCalls + 1;
      }
      if g1 != [] {
        drawCalls := drawCalls + 1;
      }
      if g2 != [] {
        drawCalls := drawCalls + 1;
      }
    }
  }

  // ---------------------------------------------------------------- batch data

  /** Indices of the `true` entries, ascending (`np.where(mask)[0]`). */
  function TrueIndices(mask: seq<bool>): (r: seq<nat>)
    ensures forall k :: 0 <= k < |r| ==> r[k] < |mask| && mask[r[k]]
    ensures forall i :: 0 <= i < |mask| && mask[i] ==> i in r
    ensures forall k, l :: 0 <= k < l < |r| ==> r[k] < r[l]
  {
    if mask == [] then []
    else
      var init := TrueIndices(mask[..|mask| - 1]);
      init + (if mask[|mask| - 1] then [|mask| - 1] else [])
  }

  /** What `update_from_turbines` reads from a turbine. */
  datatype BatchSource = BatchSource(x: real, z: real, bladeAngle: Option<real>, lodLevel: Option<int>)

  class BatchTurbineData {
    const maxTurbines: nat
    const xs: array<real>
    const zs: array<real>
    const bladeAngles: array<real>
    const lodLevels: array<int>
    const visible: array<bool>
    var count: nat

    ghost predicate Valid()
      reads this
    {
      && xs.Length == maxTurbines && zs.Length == maxTurbines && bladeAngles.Length == maxTurbines
      && lodLevels.Length == maxTurbines && visible.Length == maxTurbines
      && xs != zs && xs != bladeAngles && zs != bladeAngles
      && count <= maxTurbines
    }

    /** `BatchTurbineData(max_turbines)`: zero data, every slot visible. */
    constructor(maxTurbines: nat)
      ensures this.maxTurbines == maxTurbines && Valid() && count == 0
      ensures fresh(xs) && fresh(zs) && fresh(bladeAngles) && fresh(lodLevels) && fresh(visible)
      ensures forall i :: 0 <= i < maxTurbines ==> visible[i]
    {
      this.maxTurbines := maxTurbines;
      xs := new real[maxTurbines](_ => 0.0);
      zs := new real[maxTurbines](_ => 0.0);
      bladeAngles := new real[maxTurbines](_ => 0.0);
      lodLevels := new int[maxTurbines](_ => 0);
      visible := new bool[maxTurbines](_ => true);
      count := 0;
    }

    /** `update_from_turbines`: copy the first `min(len, max_turbines)` turbines. */
    method UpdateFromTurbines(turbines: seq<BatchSource>)
      requires Valid()
      modifies this`count, xs, zs, bladeAngles, lodLevels
      ensures Valid() && count == MinInt(|turbines|, maxTurbines)
      ensures forall i :: 0 <= i < count ==>
                xs[i] == turbines[i].x && zs[i] == turbines[i].z
                && bladeAngles[i] == (if turbines[i].bladeAngle.Some? then turbines[i].bladeAngle.value else 0.0)
                && lodLevels[i] == (if turbines[i].lodLevel.Some? then turbines[i].lodLevel.value else 0)
      ensures forall i :: count <= i < maxTurbines ==>
                xs[i] == old(xs[i]) && zs[i] == old(zs[i]) && bladeAngles[i] == old(bladeAngles[i]) && lodLevels[i] == old(lodLevels[i])
    {
      var n := MinInt(|turbines|, maxTurbines);
      count := n;
      for i := 0 to n
        invariant Valid() && count == n
        invariant forall j :: 0 <= j < i ==>
                    xs[j] == turbines[j].x && zs[j] == turbines[j].z
                    && bladeAngles[j] == (if turbines[j].bladeAngle.Some? then turbines[j].bladeAngle.value else 0.0)
                    && lodLevels[j] == (if turbines[j].lodLevel.Some? then turbines[j].lodLevel.value else 0)
        invariant forall j :: i <= j < maxTurbines ==>
                    xs[j] == old(xs[j]) && zs[j] == old(zs[j]) && bladeAngles[j] == old(bladeAngles[j]) && lodLevels[j] == old(lodLevels[j])
      {
        var t := turbines[i];
        xs[i] := t.x;
        zs[i] := t.z;
        bladeAngles[i] := if t.bladeAngle.Some? then t.bladeAngle.value else 0.0;
        lodLevels[i] := if t.lodLevel.Some? then t.lodLevel.value else 0;
      }
    }

    /** `animate`: the first `count` blade angles advance by `rotation_speed * dt` modulo 360. */
    method Animate(dt: real, rotationSpeed: real)
      requires Valid()
      modifies bladeAngles
      ensures forall i :: 0 <= i < count ==> bladeAngles[i] == FloorMod(old(bladeAngles[i]) + rotationSpeed * dt, 360.0)
      ensures forall i :: 0 <= i < count ==> 0.0 <= bladeAngles[i] < 360.0
      ensures forall i :: count <= i < maxTurbines ==> bladeAngles[i] == old(bladeAngles[i])
    {
      forall i | 0 <= i < count {
        bladeAngles[i] := FloorMod(bladeAngles[i] + rotationSpeed * dt, 360.0);
      }
    }

    /** `apply_culling`: the first `count` visibility flags come from the mask, which must cover them. */
    method ApplyCulling(mask: seq<bool>)
      requires Valid() && |mask| >= count
      modifies visible
      ensures forall i :: 0 <= i < count ==> visible[i] == mask[i]
      ensures forall i :: count <= i < maxTurbines ==> visible[i] == old(visible[i])
    {
      forall i | 0 <= i < count {
        visible[i] := mask[i];
      }
    }

    /** `get_visible_indices`: ascending indices below `count` whose flag is set. */
    function GetVisibleIndices(): (r: seq<nat>)
      requires Valid()
      reads this, visible
      ensures forall k :: 0 <= k < |r| ==> r[k] < count && visible[r[k]]
      ensures forall i :: 0 <= i < count && visible[i] ==> i in r
      ensures forall k, l :: 0 <= k < l < |r| ==> r[k] < r[l]
    {
      TrueIndices(visible[..count])
    }
  }
}
