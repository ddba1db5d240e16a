/** Precomputed raster of state names for fast lookups (data/spatial_grid.py). */
module StateGrid {
  import opened Common
  import opened BundeslandGeometry
  import opened PointInPolygon

  /** The map bounds covered by the raster. */
  const XMin: real := -1.1
  const XMax: real := 1.1
  const ZMin: real := -1.3
  const ZMax: real := 1.3

  /** Centre of cell `i` along an axis from `lo` to `hi` split into `size` cells. */
  function CellCentre(lo: real, hi: real, size: nat, i: int): real
    requires size > 0
  {
    lo + (i as real + 0.5) * ((hi - lo) / size as real)
  }

  /** The first state in list order, among city states (`city`) or among the others, whose polygon contains the point. */
  function FirstIn(bls: seq<Bundesland>, x: real, z: real, city: bool): (r: Option<string>)
    reads bls
    ensures r.Some? ==> (r.value in CityStates) == city
  {
    if |bls| == 0 then None
    else if (bls[0].name in CityStates) == city && Inside(bls[0].verticesTop, x, z) then Some(bls[0].name)
    else FirstIn(bls[1..], x, z, city)
  }

  /** `FirstIn` names a containing state of the right kind, and finds one whenever there is one. */
  lemma {:induction false} FirstInSpec(bls: seq<Bundesland>, x: real, z: real, city: bool)
    ensures FirstIn(bls, x, z, city).Some? <==>
      exists i :: 0 <= i < |bls| && (bls[i].name in CityStates) == city && Inside(bls[i].verticesTop, x, z)
    ensures FirstIn(bls, x, z, city).Some? ==>
      exists i :: (0 <= i < |bls| && (bls[i].name in CityStates) == city &&
                   Inside(bls[i].verticesTop, x, z) && FirstIn(bls, x, z, city).value == bls[i].name)
  {
    if |bls| > 0 {
      FirstInSpec(bls[1..], x, z, city);
      assert forall i :: 0 < i < |bls| ==> bls[i] == bls[1..][i - 1];
    }
  }

  /**
   * The name stored for a cell centre: a containing city state first,
   * otherwise the first containing other state, and nothing for an empty name.
   */
  function CellLabel(bls: seq<Bundesland>, x: real, z: real): (r: Option<string>)
    reads bls
    ensures r.Some? ==> r.value != ""
    ensures FirstIn(bls, x, z, true).Some? ==> r == FirstIn(bls, x, z, true)
  {
    var city := FirstIn(bls, x, z, true);
    if city.Some? then assert "" !in CityStates; city
    else
      var other := FirstIn(bls, x, z, false);
      if other.Some? && other.value != "" then other else None
  }

  /** The state loop for one kind of state, stopping at the first one that contains the point. */
  method FindFirst(bls: seq<Bundesland>, x: real, z: real, city: bool) returns (name: Option<string>)
    ensures name == FirstIn(bls, x, z, city)
  {
    var k := 0;
    while k < |bls|
      invariant 0 <= k <= |bls|
      invariant FirstIn(bls, x, z, city) == FirstIn(bls[k..], x, z, city)
    {
      if (bls[k].name in CityStates) == city {
        var inside := PointInPolygon.PointInPolygon(x, z, bls[k].verticesTop);
        if inside {
          return Some(bls[k].name);
        }
      }
      assert bls[k..][1..] == bls[k + 1..];
      k := k + 1;
    }
    return None;
  }

  /** One cell of `_build_grid`: city states first, then the others; an empty name counts as none. */
  method LabelCell(bls: seq<Bundesland>, x: real, z: real) returns (name: Option<string>)
    ensures name == CellLabel(bls, x, z)
  {
    name := FindFirst(bls, x, z, true);
    if name.None? {
      name := FindFirst(bls, x, z, false);
      if name.Some? && name.value == "" {
        name := None;
      }
    }
  }

  /** The label of raster cell `(i, j)`, taken at its centre. */
  function Label(bls: seq<Bundesland>, size: nat, i: int, j: int): Option<string>
    requires size > 0
    reads bls
  {
    CellLabel(bls, CellCentre(XMin, XMax, size, i), CellCentre(ZMin, ZMax, size, j))
  }

  /** Every key is a raster cell before `(i, j)` in row order, holding that cell's label. */
  ghost predicate Sound(bls: seq<Bundesland>, size: nat, grid: map<(int, int), string>, i: int, j: int)
    requires size > 0
    reads bls
  {
    forall k :: k in grid ==>
      (0 <= k.0 < i || (k.0 == i && 0 <= k.1 < j)) && 0 <= k.1 < size && Label(bls, size, k.0, k.1) == Some(grid[k])
  }

  /** Every labelled raster cell before `(i, j)` in row order is a key. */
  ghost predicate Covers(bls: seq<Bundesland>, size: nat, grid: map<(int, int), string>, i: int, j: int)
    requires size > 0
    reads bls
  {
    forall a, b :: ((0 <= a < i || (a == i && 0 <= b < j)) && 0 <= b < size && Label(bls, size, a, b).Some?) ==> (a, b) in grid
  }

  /** The inner loop of `_build_grid`: the labelled cells of row `i`. */
  method FillRow(bls: seq<Bundesland>, size: nat, grid: map<(int, int), string>, i: int) returns (grid': map<(int, int), string>)
    requires size > 0 && 0 <= i
    requires Sound(bls, size, grid, i, 0) && Covers(bls, size, grid, i, 0)
    ensures Sound(bls, size, grid', i + 1, 0) && Covers(bls, size, grid', i + 1, 0)
  {
    grid' := grid;
    for j := 0 to size
      invariant Sound(bls, size, grid', i, j) && Covers(bls, size, grid', i, j)
    {
      var name := LabelCell(bls, CellCentre(XMin, XMax, size, i), CellCentre(ZMin, ZMax, size, j));
      if name.Some? {
        grid' := grid'[(i, j) := name.value];
      }
    }
  }

  /** `_build_grid`: a label for every cell whose centre lies in some state, and no other key. */
  method BuildGrid(bls: seq<Bundesland>, size: nat) returns (grid: map<(int, int), string>)
    requires size > 0
    ensures forall k :: k in grid ==> 0 <= k.0 < size && 0 <= k.1 < size && Label(bls, size, k.0, k.1) == Some(grid[k])
    ensures forall i, j :: (0 <= i < size && 0 <= j < size && Label(bls, size, i, j).Some?) ==> (i, j) in grid
  {
    grid := map[];
    for i := 0 to size
      invariant Sound(bls, size, grid, i, 0) && Covers(bls, size, grid, i, 0)
    {
      grid := FillRow(bls, size, grid, i);
    }
  }

  /** `int((v - lo) / (hi - lo) * size)`: the raster index of a coordinate, truncated toward zero. */
  function CellIndex(v: real, lo: real, hi: real, size: nat): int
    requires lo < hi
  {
    Trunc((v - lo) / (hi - lo) * size as real)
  }

  /** Truncation toward zero sends points less than one cell below the lower bound to index 0. */
  lemma NearBelowMapsToFirstCell(v: real, lo: real, hi: real, size: nat)
    requires lo < hi && size > 0
    requires lo - (hi - lo) / size as real < v < lo
    ensures CellIndex(v, lo, hi, size) == 0
  {
    var r := (v - lo) / (hi - lo) * size as real;
    assert (v - lo) / (hi - lo) > -1.0 / size as real;
    assert r > -1.0 && r < 0.0;
  }

  /** `SpatialGrid` for state lookup: the states, the resolution and the filled raster. */
  class StateGrid {
    const bls: seq<Bundesland>
    const gridSize: nat
    const grid: map<(int, int), string>

    /** Every key is a cell of the raster, and every stored name is non-empty. */
    predicate Valid()
    {
      gridSize > 0 && forall k :: k in grid ==> 0 <= k.0 < gridSize && 0 <= k.1 < gridSize && grid[k] != ""
    }

    constructor (bls: seq<Bundesland>, gridSize: nat)
      requires gridSize > 0
      ensures this.bls == bls && this.gridSize == gridSize && Valid()
      ensures forall k :: k in grid ==> Label(bls, gridSize, k.0, k.1) == Some(grid[k])
      ensures forall i, j :: (0 <= i < gridSize && 0 <= j < gridSize && Label(bls, gridSize, i, j).Some?) ==> (i, j) in grid
    {
      var g := BuildGrid(bls, gridSize);
      this.bls := bls;
      this.gridSize := gridSize;
      grid := g;
    }

    /** The stored name of cell `(i, j)`, nothing outside the raster. */
    function At(i: int, j: int): (r: Option<string>)
      ensures r.Some? <==> 0 <= i < gridSize && 0 <= j < gridSize && (i, j) in grid
      ensures r.Some? ==> r.value == grid[(i, j)]
    {
      if i < 0 || i >= gridSize || j < 0 || j >= gridSize then None
      else if (i, j) in grid then Some(grid[(i, j)]) else None
    }

    /** `get_bundesland`: the name stored for the cell of the point, `None` outside the raster. */
    function GetBundesland(x: real, z: real): (r: Option<string>)
      requires gridSize > 0
      ensures r == At(CellIndex(x, XMin, XMax, gridSize), CellIndex(z, ZMin, ZMax, gridSize))
      ensures CellIndex(x, XMin, XMax, gridSize) < 0 || CellIndex(x, XMin, XMax, gridSize) >= gridSize ==> r == None
    {
      var i := CellIndex(x, XMin, XMax, gridSize);
      var j := CellIndex(z, ZMin, ZMax, gridSize);
      if i < 0 || i >= gridSize || j < 0 || j >= gridSize then None
      else if (i, j) in grid then Some(grid[(i, j)]) else None
    }

    /** The first named cell among the neighbours (0,1), (0,-1), (1,0), (-1,0) of `(i, j)`. */
    function Neighbour(i: int, j: int): (r: Option<string>)
      ensures r.None? <==> At(i, j + 1).None? && At(i, j - 1).None? && At(i + 1, j).None? && At(i - 1, j).None?
      ensures r.Some? ==> r == At(i, j + 1) || r == At(i, j - 1) || r == At(i + 1, j) || r == At(i - 1, j)
      ensures At(i, j + 1).Some? ==> r == At(i, j + 1)
    {
      if At(i, j + 1).Some? then At(i, j + 1)
      else if At(i, j - 1).Some? then At(i, j - 1)
      else if At(i + 1, j).Some? then At(i + 1, j)
      else At(i - 1, j)
    }

    /** `get_bundesland_with_fallback`: a direct hit wins; otherwise the first named direct neighbour. */
    function GetBundeslandWithFallback(x: real, z: real): (r: Option<string>)
      requires Valid()
      ensures GetBundesland(x, z).Some? ==> r == GetBundesland(x, z)
      ensures GetBundesland(x, z).None? ==>
        r == Neighbour(CellIndex(x, XMin, XMax, gridSize), CellIndex(z, ZMin, ZMax, gridSize))
      ensures r.Some? ==> r.value != "" && r.value in grid.Values
    {
      var direct := GetBundesland(x, z);
      if direct.Some? && direct.value != "" then direct
      else Neighbour(CellIndex(x, XMin, XMax, gridSize), CellIndex(z, ZMin, ZMax, gridSize))
    }
  }
}
