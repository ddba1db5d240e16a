/**
 * The uniform hash grid of windturbine/spatial_grid.py: objects are put in
 * the cell of their position (truncated and clamped per axis), and box and
 * sphere queries gather the cells the query touches.
 */
module TurbineGrid {
  import opened Common

  type Vec3 = (real, real, real)
  type Cell = (int, int, int)

  /** A closed interval `(min, max)` of one axis. */
  datatype Range = Range(lo: real, hi: real)

  /** `{'x': (min, max), 'y': (min, max), 'z': (min, max)}`. */
  datatype Bounds3 = Bounds3(x: Range, y: Range, z: Range)

  /** An object stored in the grid; `query_sphere` reads its position `pos`. */
  datatype GridObject = GridObject(id: int, pos: Vec3)

  /** The fixed geometry of a grid: its bounds, cell size and cell counts per axis. */
  datatype Shape = Shape(bounds: Bounds3, cellSize: real, width: int, height: int, depth: int)

  /** `math.ceil`. */
  function Ceil(r: real): (n: int)
    ensures n as real - 1.0 < r <= n as real
  {
    -((-r).Floor)
  }

  /** Number of cells along one axis: the extent divided by the cell size, rounded up. */
  function Dim(r: Range, cellSize: real): int
    requires cellSize > 0.0
  {
    Ceil((r.hi - r.lo) / cellSize)
  }

  /** The grid `SpatialGrid(bounds, cell_size)` sets up. */
  function MakeShape(bounds: Bounds3, cellSize: real): (s: Shape)
    requires cellSize > 0.0
    ensures s.cellSize == cellSize && s.bounds == bounds
    ensures s.width as real * cellSize >= bounds.x.hi - bounds.x.lo
    ensures s.height as real * cellSize >= bounds.y.hi - bounds.y.lo
    ensures s.depth as real * cellSize >= bounds.z.hi - bounds.z.lo
  {
    var s := Shape(bounds, cellSize, Dim(bounds.x, cellSize), Dim(bounds.y, cellSize), Dim(bounds.z, cellSize));
    CeilCovers(bounds.x.hi - bounds.x.lo, cellSize);
    CeilCovers(bounds.y.hi - bounds.y.lo, cellSize);
    CeilCovers(bounds.z.hi - bounds.z.lo, cellSize);
    s
  }

  /** Enough cells of size `c` to cover the extent `e`. */
  lemma CeilCovers(e: real, c: real)
    requires c > 0.0
    ensures Ceil(e / c) as real * c >= e
  {
    var q := e / c;
    assert q * c == e;
    assert (Ceil(q) as real - q) * c >= 0.0;
  }

  /** One axis of `_get_cell_coords`: truncate toward zero, then clamp into `[0, dim - 1]`. */
  function AxisIndex(v: real, lo: real, cellSize: real, dim: int): (g: int)
    requires cellSize > 0.0
    ensures 0 <= g
    ensures dim >= 1 ==> g <= dim - 1
    ensures 0 <= Trunc((v - lo) / cellSize) < dim ==> g == Trunc((v - lo) / cellSize)
  {
    var t := Trunc((v - lo) / cellSize);
    var m := if t < dim - 1 then t else dim - 1;
    if 0 < m then m else 0
  }

  /** Division by a positive cell size keeps the order. */
  lemma DivMonotone(a: real, b: real, c: real)
    requires a <= b && c > 0.0
    ensures a / c <= b / c
  {
    assert (b - a) / c >= 0.0;
    assert (b - a) / c == b / c - a / c;
  }

  /** Truncation and clamping are monotone: a larger coordinate never gets a smaller index. */
  lemma AxisMonotone(v: real, w: real, lo: real, cellSize: real, dim: int)
    requires cellSize > 0.0 && v <= w
    ensures AxisIndex(v, lo, cellSize, dim) <= AxisIndex(w, lo, cellSize, dim)
  {
    DivMonotone(v - lo, w - lo, cellSize);
    TruncMonotone((v - lo) / cellSize, (w - lo) / cellSize);
  }

  /** `_get_cell_coords`. */
  function CellOf(s: Shape, p: Vec3): Cell
    requires s.cellSize > 0.0
  {
    (AxisIndex(p.0, s.bounds.x.lo, s.cellSize, s.width),
     AxisIndex(p.1, s.bounds.y.lo, s.cellSize, s.height),
     AxisIndex(p.2, s.bounds.z.lo, s.cellSize, s.depth))
  }

  /** Every cell index is inside the grid on every axis with at least one cell. */
  lemma CellInGrid(s: Shape, p: Vec3)
    requires s.cellSize > 0.0 && s.width >= 1 && s.height >= 1 && s.depth >= 1
    ensures 0 <= CellOf(s, p).0 < s.width
    ensures 0 <= CellOf(s, p).1 < s.height
    ensures 0 <= CellOf(s, p).2 < s.depth
  {
  }

  /** A half-open box of cells `lo <= c < hi` on each axis. */
  datatype Box = Box(lo: Cell, hi: Cell)

  predicate InBox(c: Cell, b: Box)
  {
    b.lo.0 <= c.0 < b.hi.0 && b.lo.1 <= c.1 < b.hi.1 && b.lo.2 <= c.2 < b.hi.2
  }

  /** The box holding the single cell `c`. */
  function Unit(c: Cell): Box
  {
    Box(c, (c.0 + 1, c.1 + 1, c.2 + 1))
  }

  /** Objects of the inserted entries whose cell lies in `b`, in insertion order. */
  function SelectBox(s: Shape, log: seq<(GridObject, Vec3)>, b: Box): seq<GridObject>
    requires s.cellSize > 0.0
  {
    if log == [] then []
    else
      var last := log[|log| - 1];
      SelectBox(s, log[..|log| - 1], b) + (if InBox(CellOf(s, last.1), b) then [last.0] else [])
  }

  /** A box split in two disjoint boxes splits its selection. */
  lemma {:induction false} SelectSplit(s: Shape, log: seq<(GridObject, Vec3)>, a: Box, b: Box, c: Box)
    requires s.cellSize > 0.0
    requires forall x: Cell :: InBox(x, a) <==> InBox(x, b) || InBox(x, c)
    requires forall x: Cell :: !(InBox(x, b) && InBox(x, c))
    ensures multiset(SelectBox(s, log, a)) == multiset(SelectBox(s, log, b)) + multiset(SelectBox(s, log, c))
  {
    if log != [] {
      SelectSplit(s, log[..|log| - 1], a, b, c);
      var x := CellOf(s, log[|log| - 1].1);
      assert InBox(x, a) <==> InBox(x, b) || InBox(x, c);
      assert !(InBox(x, b) && InBox(x, c));
    }
  }

  /** No cell lies in a box that is empty on some axis. */
  lemma {:induction false} SelectEmpty(s: Shape, log: seq<(GridObject, Vec3)>, b: Box)
    requires s.cellSize > 0.0
    requires b.hi.0 <= b.lo.0 || b.hi.1 <= b.lo.1 || b.hi.2 <= b.lo.2
    ensures SelectBox(s, log, b) == []
  {
    if log != [] {
      SelectEmpty(s, log[..|log| - 1], b);
    }
  }

  /** An entry whose cell lies in the box is selected. */
  lemma {:induction false} SelectHas(s: Shape, log: seq<(GridObject, Vec3)>, b: Box, i: nat)
    requires s.cellSize > 0.0
    requires i < |log| && InBox(CellOf(s, log[i].1), b)
    ensures log[i].0 in SelectBox(s, log, b)
  {
    if i < |log| - 1 {
      SelectHas(s, log[..|log| - 1], b, i);
    }
  }

  /** `results.extend(cells[(gx, gy, gz)])` for `z0 <= gz < z1`. */
  function Column(cells: map<Cell, seq<GridObject>>, gx: int, gy: int, z0: int, z1: int): seq<GridObject>
    decreases z1 - z0
  {
    if z1 <= z0 then [] else Column(cells, gx, gy, z0, z1 - 1) + Get(cells, (gx, gy, z1 - 1))
  }

  /** The columns for `y0 <= gy < y1`. */
  function Slab(cells: map<Cell, seq<GridObject>>, gx: int, y0: int, y1: int, z0: int, z1: int): seq<GridObject>
    decreases y1 - y0
  {
    if y1 <= y0 then [] else Slab(cells, gx, y0, y1 - 1, z0, z1) + Column(cells, gx, y1 - 1, z0, z1)
  }

  /** The slabs for `x0 <= gx < x1`: the three nested loops of `query_frustum`. */
  function Block(cells: map<Cell, seq<GridObject>>, b: Box): seq<GridObject>
    decreases b.hi.0 - b.lo.0
  {
    if b.hi.0 <= b.lo.0 then []
    else Block(cells, Box(b.lo, (b.hi.0 - 1, b.hi.1, b.hi.2))) + Slab(cells, b.hi.0 - 1, b.lo.1, b.hi.1, b.lo.2, b.hi.2)
  }

  /** Every cell holds exactly the objects inserted at positions in that cell, in insertion order. */
  ghost predicate CellsMatch(s: Shape, cells: map<Cell, seq<GridObject>>, log: seq<(GridObject, Vec3)>)
  {
    s.cellSize > 0.0 && forall c {:trigger SelectBox(s, log, Unit(c))} :: Get(cells, c) == SelectBox(s, log, Unit(c))
  }

  lemma {:induction false} ColumnSelect(s: Shape, cells: map<Cell, seq<GridObject>>, log: seq<(GridObject, Vec3)>,
                                        gx: int, gy: int, z0: int, z1: int)
    requires CellsMatch(s, cells, log)
    ensures multiset(Column(cells, gx, gy, z0, z1)) == multiset(SelectBox(s, log, Box((gx, gy, z0), (gx + 1, gy + 1, z1))))
    decreases z1 - z0
  {
    var b := Box((gx, gy, z0), (gx + 1, gy + 1, z1));
    if z1 <= z0 {
      SelectEmpty(s, log, b);
    } else {
      ColumnSelect(s, cells, log, gx, gy, z0, z1 - 1);
      assert Get(cells, (gx, gy, z1 - 1)) == SelectBox(s, log, Unit((gx, gy, z1 - 1)));
      SelectSplit(s, log, b, Box((gx, gy, z0), (gx + 1, gy + 1, z1 - 1)), Unit((gx, gy, z1 - 1)));
    }
  }

  lemma {:induction false} SlabSelect(s: Shape, cells: map<Cell, seq<GridObject>>, log: seq<(GridObject, Vec3)>,
                                      gx: int, y0: int, y1: int, z0: int, z1: int)
    requires CellsMatch(s, cells, log)
    ensures multiset(Slab(cells, gx, y0, y1, z0, z1)) == multiset(SelectBox(s, log, Box((gx, y0, z0), (gx + 1, y1, z1))))
    decreases y1 - y0
  {
    var b := Box((gx, y0, z0), (gx + 1, y1, z1));
    if y1 <= y0 {
      SelectEmpty(s, log, b);
    } else {
      SlabSelect(s, cells, log, gx, y0, y1 - 1, z0, z1);
      ColumnSelect(s, cells, log, gx, y1 - 1, z0, z1);
      SelectSplit(s, log, b, Box((gx, y0, z0), (gx + 1, y1 - 1, z1)), Box((gx, y1 - 1, z0), (gx + 1, y1, z1)));
    }
  }

  /** The nested loops gather, as a multiset, exactly the objects inserted in the box's cells. */
  lemma {:induction false} BlockSelect(s: Shape, cells: map<Cell, seq<GridObject>>, log: seq<(GridObject, Vec3)>, b: Box)
    requires CellsMatch(s, cells, log)
    ensures multiset(Block(cells, b)) == multiset(SelectBox(s, log, b))
    decreases b.hi.0 - b.lo.0
  {
    if b.hi.0 <= b.lo.0 {
      SelectEmpty(s, log, b);
    } else {
      var front := Box(b.lo, (b.hi.0 - 1, b.hi.1, b.hi.2));
      var slab := Slab(cells, b.hi.0 - 1, b.lo.1, b.hi.1, b.lo.2, b.hi.2);
      assert Block(cells, b) == Block(cells, front) + slab;
      BlockSelect(s, cells, log, front);
      SlabSelect(s, cells, log, b.hi.0 - 1, b.lo.1, b.hi.1, b.lo.2, b.hi.2);
      SelectSplit(s, log, b, front, Box((b.hi.0 - 1, b.lo.1, b.lo.2), b.hi));
      assert multiset(Block(cells, b)) == multiset(Block(cells, front)) + multiset(slab);
    }
  }

  /** The closed bounds contain the point. */
  predicate Within(fb: Bounds3, p: Vec3)
  {
    fb.x.lo <= p.0 <= fb.x.hi && fb.y.lo <= p.1 <= fb.y.hi && fb.z.lo <= p.2 <= fb.z.hi
  }

  /** The cells from the cell of the lower corner to the cell of the upper corner, inclusive. */
  function QueryBox(s: Shape, fb: Bounds3): Box
    requires s.cellSize > 0.0
  {
    var lo := CellOf(s, (fb.x.lo, fb.y.lo, fb.z.lo));
    var hi := CellOf(s, (fb.x.hi, fb.y.hi, fb.z.hi));
    Box(lo, (hi.0 + 1, hi.1 + 1, hi.2 + 1))
  }

  /** A point within the query bounds has its cell within the query's cells. */
  lemma WithinQueryBox(s: Shape, fb: Bounds3, p: Vec3)
    requires s.cellSize > 0.0 && Within(fb, p)
    ensures InBox(CellOf(s, p), QueryBox(s, fb))
  {
    AxisMonotone(fb.x.lo, p.0, s.bounds.x.lo, s.cellSize, s.width);
    AxisMonotone(p.0, fb.x.hi, s.bounds.x.lo, s.cellSize, s.width);
    AxisMonotone(fb.y.lo, p.1, s.bounds.y.lo, s.cellSize, s.height);
    AxisMonotone(p.1, fb.y.hi, s.bounds.y.lo, s.cellSize, s.height);
    AxisMonotone(fb.z.lo, p.2, s.bounds.z.lo, s.cellSize, s.depth);
    AxisMonotone(p.2, fb.z.hi, s.bounds.z.lo, s.cellSize, s.depth);
  }

  /** `(ox - cx) ** 2 + (oy - cy) ** 2 + (oz - cz) ** 2`. */
  function DistSq(p: Vec3, c: Vec3): real
  {
    (p.0 - c.0) * (p.0 - c.0) + (p.1 - c.1) * (p.1 - c.1) + (p.2 - c.2) * (p.2 - c.2)
  }

  /** The objects of `s` within squared distance `r2` of `c`, in order. */
  function Near(s: seq<GridObject>, c: Vec3, r2: real): seq<GridObject>
  {
    if s == [] then []
    else Near(s[..|s| - 1], c, r2) + (if DistSq(s[|s| - 1].pos, c) <= r2 then [s[|s| - 1]] else [])
  }

  /** `Near` keeps exactly the objects within the distance. */
  lemma {:induction false} NearMembers(s: seq<GridObject>, c: Vec3, r2: real)
    ensures forall o :: o in Near(s, c, r2) <==> o in s && DistSq(o.pos, c) <= r2
  {
    if s != [] {
      NearMembers(s[..|s| - 1], c, r2);
      assert s == s[..|s| - 1] + [s[|s| - 1]];
    }
  }

  /** The bounding box of the sphere that `query_sphere` hands to `query_frustum`. */
  function SphereBounds(c: Vec3, radius: real): Bounds3
  {
    Bounds3(Range(c.0 - radius, c.0 + radius), Range(c.1 - radius, c.1 + radius), Range(c.2 - radius, c.2 + radius))
  }

  /** Signs of a product. */
  lemma ProductSign(a: real, b: real)
    ensures a > 0.0 && b > 0.0 ==> a * b > 0.0
    ensures a < 0.0 && b < 0.0 ==> a * b > 0.0
    ensures a < 0.0 && b > 0.0 ==> a * b < 0.0
    ensures a * a >= 0.0
  {
  }

  /** A square at most `r * r` for `r >= 0` has its root within `[-r, r]`. */
  lemma SquareBound(d: real, r: real)
    requires r >= 0.0 && d * d <= r * r
    ensures -r <= d <= r
  {
    assert (d - r) * (d + r) == d * d - r * r;
    ProductSign(d - r, d + r);
  }

  /** A point within the sphere lies within its bounding box. */
  lemma SphereWithinBounds(p: Vec3, c: Vec3, radius: real)
    requires radius >= 0.0 && DistSq(p, c) <= radius * radius
    ensures Within(SphereBounds(c, radius), p)
  {
    ProductSign(p.0 - c.0, p.0 - c.0);
    ProductSign(p.1 - c.1, p.1 - c.1);
    ProductSign(p.2 - c.2, p.2 - c.2);
    SquareBound(p.0 - c.0, radius);
    SquareBound(p.1 - c.1, radius);
    SquareBound(p.2 - c.2, radius);
  }

  /** Statistics of `get_stats`; the grid size and the memory estimate are left out. */
  datatype GridStats = GridStats(cellCount: int, objectCount: int, avgObjectsPerCell: real)

  /** The cells of the inserted positions. */
  function CellSet(s: Shape, log: seq<(GridObject, Vec3)>): (cs: set<Cell>)
    requires s.cellSize > 0.0
    ensures |cs| <= |log|
  {
    if log == [] then {}
    else
      var init := CellSet(s, log[..|log| - 1]);
      assert |init + {CellOf(s, log[|log| - 1].1)}| <= |init| + 1;
      init + {CellOf(s, log[|log| - 1].1)}
  }

  /** An object selected for a box comes from an inserted position whose cell is in the box. */
  lemma {:induction false} SelectedCell(s: Shape, log: seq<(GridObject, Vec3)>, b: Box) returns (c: Cell)
    requires s.cellSize > 0.0 && SelectBox(s, log, b) != []
    ensures c in CellSet(s, log) && InBox(c, b)
  {
    var last := log[|log| - 1];
    if InBox(CellOf(s, last.1), b) {
      c := CellOf(s, last.1);
    } else {
      c := SelectedCell(s, log[..|log| - 1], b);
    }
  }

  /** With no empty cell, there are at most as many cells as insertions. */
  lemma CellsAtMostEntries(s: Shape, cells: map<Cell, seq<GridObject>>, log: seq<(GridObject, Vec3)>)
    requires CellsMatch(s, cells, log)
    requires forall c :: c in cells ==> cells[c] != []
    ensures |cells.Keys| <= |log|
  {
    forall c | c in cells ensures c in CellSet(s, log) {
      assert Get(cells, c) == SelectBox(s, log, Unit(c));
      var d := SelectedCell(s, log, Unit(c));
    }
    SubsetSize(cells.Keys, CellSet(s, log));
  }

  lemma SubsetSize<T>(a: set<T>, b: set<T>)
    requires a <= b
    ensures |a| <= |b|
  {
    assert b == a + (b - a);
  }

  /** The three nested loops of `query_frustum` over the cells of `b`, x outermost, then y, then z. */
  method GatherCells(cells: map<Cell, seq<GridObject>>, b: Box) returns (results: seq<GridObject>)
    ensures results == Block(cells, b)
  {
    // Each cell's list is appended in the loop order; the rows and columns are
    // collected separately and then appended, which gives the same sequence.
    results := [];
    var gx := b.lo.0;
    while gx < b.hi.0
      invariant b.lo.0 <= gx && (gx <= b.hi.0 || gx == b.lo.0)
      invariant results == Block(cells, Box(b.lo, (gx, b.hi.1, b.hi.2)))
      decreases b.hi.0 - gx
    {
      var slab := [];
      var gy := b.lo.1;
      while gy < b.hi.1
        invariant b.lo.1 <= gy && (gy <= b.hi.1 || gy == b.lo.1)
        invariant slab == Slab(cells, gx, b.lo.1, gy, b.lo.2, b.hi.2)
        decreases b.hi.1 - gy
      {
        var column := [];
        var gz := b.lo.2;
        while gz < b.hi.2
          invariant b.lo.2 <= gz && (gz <= b.hi.2 || gz == b.lo.2)
          invariant column == Column(cells, gx, gy, b.lo.2, gz)
          decreases b.hi.2 - gz
        {
          var cell := (gx, gy, gz);
          if cell in cells {
            column := column + cells[cell];
          }
          gz := gz + 1;
        }
        slab := slab + column;
        gy := gy + 1;
      }
      results := results + slab;
      gx := gx + 1;
    }
    assert Box(b.lo, (gx, b.hi.1, b.hi.2)) == b || b.hi.0 <= b.lo.0;
  }

  /** Appending an object to the cell of its position keeps every cell matching the insertions. */
  lemma InsertMatches(s: Shape, cells: map<Cell, seq<GridObject>>, log: seq<(GridObject, Vec3)>, obj: GridObject, pos: Vec3)
    requires CellsMatch(s, cells, log)
    ensures CellsMatch(s, cells[CellOf(s, pos) := Get(cells, CellOf(s, pos)) + [obj]], log + [(obj, pos)])
  {
    var cells' := cells[CellOf(s, pos) := Get(cells, CellOf(s, pos)) + [obj]];
    var log' := log + [(obj, pos)];
    forall c ensures Get(cells', c) == SelectBox(s, log', Unit(c)) {
      assert log'[..|log'| - 1] == log;
      assert Get(cells, c) == SelectBox(s, log, Unit(c));
    }
  }

  /** Adding a key grows the key set by one. */
  lemma NewKeyCount<K, V>(m: map<K, V>, k: K, v: V)
    requires k !in m
    ensures |m[k := v].Keys| == |m.Keys| + 1
  {
    assert m[k := v].Keys == m.Keys + {k};
  }

  /** The distance filter loop of `query_sphere`. */
  method KeepNear(candidates: seq<GridObject>, center: Vec3, radiusSq: real) returns (results: seq<GridObject>)
    ensures results == Near(candidates, center, radiusSq)
  {
    results := [];
    for k := 0 to |candidates|
      invariant results == Near(candidates[..k], center, radiusSq)
    {
      var o := candidates[k];
      var d := DistSq(o.pos, center);
      assert candidates[..k + 1][..k] == candidates[..k];
      if d <= radiusSq {
        results := results + [o];
      }
    }
    assert candidates[..|candidates|] == candidates;
  }

  class SpatialGrid {
    const shape: Shape
    var cells: map<Cell, seq<GridObject>>
    var objectCount: int
    var cellCount: int
    /** Every `insert` call so far with its position, oldest first. */
    ghost var log: seq<(GridObject, Vec3)>

    /**
     * The grid invariant: the counters count insertions and keys, every cell
     * holds exactly what was inserted there, and no cell is empty.
     */
    ghost predicate Valid()
      reads this
    {
      && shape.cellSize > 0.0
      && objectCount == |log|
      && cellCount == |cells.Keys|
      && CellsMatch(shape, cells, log)
      && (forall c :: c in cells ==> cells[c] != [])
    }

    /** `SpatialGrid(bounds, cell_size)`; a zero cell size is a division by zero in the source. */
    constructor(bounds: Bounds3, cellSize: real)
      requires cellSize > 0.0
      ensures shape == MakeShape(bounds, cellSize)
      ensures cells == map[] && objectCount == 0 && cellCount == 0 && log == []
      ensures Valid()
    {
      shape := MakeShape(bounds, cellSize);
      cells := map[];
      objectCount := 0;
      cellCount := 0;
      log := [];
    }

    /** `insert`: append the object to the list of its position's cell, creating the cell when new. */
    method Insert(obj: GridObject, pos: Vec3)
      requires Valid()
      modifies this
      ensures Valid()
      ensures log == old(log) + [(obj, pos)]
      ensures cells == old(cells)[CellOf(shape, pos) := Get(old(cells), CellOf(shape, pos)) + [obj]]
      ensures objectCount == old(objectCount) + 1
      ensures cellCount == old(cellCount) + (if CellOf(shape, pos) in old(cells) then 0 else 1)
    {
      var cell := CellOf(shape, pos);
      InsertMatches(shape, cells, log, obj, pos);
      if cell !in cells {
        NewKeyCount(cells, cell, []);
        cells := cells[cell := []];
        cellCount := cellCount + 1;
      }
      cells := cells[cell := cells[cell] + [obj]];
      objectCount := objectCount + 1;
      log := log + [(obj, pos)];
    }

    /**
     * `query_frustum`: the contents of every cell from the cell of the lower
     * corner to the cell of the upper corner, x outermost, then y, then z.
     */
    method QueryFrustum(fb: Bounds3) returns (results: seq<GridObject>)
      requires Valid()
      ensures results == Block(cells, QueryBox(shape, fb))
      ensures multiset(results) == multiset(SelectBox(shape, log, QueryBox(shape, fb)))
      ensures forall i :: 0 <= i < |log| && Within(fb, log[i].1) ==> log[i].0 in results
    {
      var b := QueryBox(shape, fb);
      results := GatherCells(cells, b);
      BlockSelect(shape, cells, log, b);
      forall i | 0 <= i < |log| && Within(fb, log[i].1) ensures log[i].0 in results {
        WithinQueryBox(shape, fb, log[i].1);
        SelectHas(shape, log, b, i);
        assert log[i].0 in multiset(results);
      }
    }

    /**
     * `query_sphere`: the candidates of the sphere's bounding box whose own
     * position is within the radius.
     */
    method QuerySphere(center: Vec3, radius: real) returns (results: seq<GridObject>)
      requires Valid()
      ensures results == Near(Block(cells, QueryBox(shape, SphereBounds(center, radius))), center, radius * radius)
      ensures forall o :: o in results ==> DistSq(o.pos, center) <= radius * radius
      ensures radius >= 0.0 ==>
                forall i :: 0 <= i < |log| && log[i].0.pos == log[i].1 && DistSq(log[i].1, center) <= radius * radius ==>
                  log[i].0 in results
    {
      var candidates := QueryFrustum(SphereBounds(center, radius));
      var radiusSq := radius * radius;
      results := KeepNear(candidates, center, radiusSq);
      NearMembers(candidates, center, radiusSq);
      if radius >= 0.0 {
        forall i | 0 <= i < |log| && log[i].0.pos == log[i].1 && DistSq(log[i].1, center) <= radius * radius
          ensures log[i].0 in results
        {
          SphereWithinBounds(log[i].1, center, radius);
        }
      }
    }

    /** `clear`: no cells and both counters zero. */
    method Clear()
      requires Valid()
      modifies this
      ensures cells == map[] && objectCount == 0 && cellCount == 0 && log == []
      ensures Valid()
    {
      cells := map[];
      objectCount := 0;
      cellCount := 0;
      log := [];
    }

    /** `get_stats`: the counters and the average number of objects per cell. */
    function GetStats(): (st: GridStats)
      reads this
      ensures st.cellCount == cellCount && st.objectCount == objectCount
      ensures cellCount <= 0 ==> st.avgObjectsPerCell == 0.0
      ensures cellCount > 0 ==> st.avgObjectsPerCell * cellCount as real == objectCount as real
    {
      GridStats(cellCount, objectCount, if cellCount > 0 then objectCount as real / cellCount as real else 0.0)
    }

    /** Cells are never empty, so a grid with cells averages at least one object per cell. */
    lemma AverageAtLeastOne()
      requires Valid() && cellCount > 0
      ensures GetStats().avgObjectsPerCell >= 1.0
    {
      CellsAtMostEntries(shape, cells, log);
      var a := GetStats().avgObjectsPerCell;
      assert (a - 1.0) * cellCount as real == objectCount as real - cellCount as real;
      ProductSign(a - 1.0, cellCount as real);
    }
  }
}
