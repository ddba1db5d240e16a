# germany3d, modelled in Dafny

germany3d renders Germany's sixteen states as extruded blocks. Each state's height follows its installed wind power. About thirty thousand wind turbines are drawn on top of the map, and a time slider steps through their commissioning years. This project models the logic behind that picture, without the OpenGL drawing, and proves properties of it.

- **Per-frame turbine selection.** Two turbine managers each keep a turbine list and a year cache. The cache buckets the turbines by commissioning year, is invalidated on every addition and is rebuilt lazily. The selection passes through the following stages:
  - a rectangular view bound driven by the camera zoom;
  - a point quadtree and a uniform hash grid for spatial prefiltering;
  - a six-plane view frustum with point, sphere and box tests;
  - two level-of-detail systems: a plain threshold table, and aggressive presets chosen by turbine count, with a screen-size selector.
- **Instancing buffers.** These are fixed-size per-instance arrays filled from the turbine list, with a power colour ramp, a rotation animation, and the structure-of-arrays batch data.
- **State geometry:**
  - the GPS-to-scene map and polygon simplification;
  - extrusion with top and bottom vertex lists;
  - the holes the city states punch into their surrounding states;
  - ear-clipping triangulation with its name-and-hash cache;
  - the painter's sort with its angle-keyed cache.
- **State lookup.** Positions are located by a ray-casting point-in-polygon test that gives the city states priority. A precomputed raster of state names offers a fallback to neighbouring cells.
- **Wind statistics.** Installed power is summed per state and year and then made cumulative. It is looked up for a year and mapped to a state height.
- **Hardware capabilities:**
  - the GPU vendor and OpenGL version parsers;
  - the feature flags and rendering tier;
  - the recommended settings, and the lazily detected process-wide instance.
- **Video export.** This covers the export configuration and the cinematic animator, which turns a frame number into a camera state and a year.
- **Preprocessing script.** The offline script turns the market-register export into the turbine list. It consists of:
  - the date-to-year parser;
  - the postcode lookup with its manual additions;
  - the per-row filter that counts the rows it skips.

The Python semantics the code relies on are written out in `Common` and `PyStrings`:
- `int()` truncation toward zero, the float remainder, and `round` to six decimals (half to even);
- stable sorting and dictionary counting;
- `lower`, `strip`, `split` and `zfill`, and `int(str)`.

Floats are modelled as `real`. Objects whose fields the source updates become classes with `modifies` frames, and the fixed NumPy buffers become arrays. Pure helpers become functions, with lemmas relating them.

One Dafny module corresponds to each source file. The exception is `YearCache`, which holds the year cache logic the two managers share.

## Model

| member | source | states |
|---|---|---|
| Common.Trunc | germany3d/windturbine/spatial_grid.py:69-71 | Python's `int()` on a float truncates toward zero: the floor for nonnegative values and the ceiling for negative ones |
| Common.TruncMonotone | germany3d/windturbine/spatial_grid.py:69-71 | truncation never reverses the order of two values |
| Common.FloorMod | germany3d/windturbine/instanced_rendering.py:177 | the floor-style `% 360` of Python and NumPy lands in `[0, m)` and leaves values already in range unchanged |
| Common.RoundHalfEven | scripts/preprocess_windmills.py:102 | `round` gives the nearest integer, and an exact half goes to the even neighbour |
| Common.RoundHalfEvenUnique | scripts/preprocess_windmills.py:102 | any integer meeting those conditions is the rounded value |
| Common.SortBy | germany3d/data/data_loader.py:343 | `list.sort(key=…)` returns a permutation sorted by the key |
| Common.SortByStable | germany3d/data/data_loader.py:343 | the sort is stable: elements with equal keys keep their order |
| Common.TallyCounted | germany3d/windturbine/optimized_manager.py:343 | counting with `counts.get(k, 0) + 1` gives each key its number of occurrences, keys in first-seen order, summing to the list length |
| PyStrings.Lower | germany3d/hardware.py:247 | `str.lower` maps every character and keeps the length |
| PyStrings.LowerOfUpper | germany3d/hardware.py:247 | lower-casing forgets an earlier upper-casing |
| PyStrings.ContainsSpec | germany3d/hardware.py:249-257 | the `in` test on strings holds exactly when the substring occurs at some index |
| PyStrings.SplitOn | scripts/preprocess_windmills.py:123 | `str.split(sep)` gives at least one part and no part contains the separator |
| PyStrings.SplitJoin | scripts/preprocess_windmills.py:123 | joining the parts with the separator gives back the string |
| PyStrings.FirstWordNone | germany3d/hardware.py:266 | `split()[0]` fails exactly on a blank string |
| PyStrings.ZFillSpec | scripts/preprocess_windmills.py:62 | `zfill(w)` pads an unsigned string with leading zeros to width `w` and leaves a string of that width or more as it is |
| PyStrings.ZFillIdempotent | scripts/preprocess_windmills.py:201 | zero-filling twice changes nothing |
| PyStrings.ParseIntRoundTrip | germany3d/video_export.py:61-68 | `int(str(n)) == n` for every integer |
| PyStrings.ParseIntBound | scripts/preprocess_windmills.py:125 | an integer parsed from `n` characters is below `10^n` in absolute value, so `int(parts[2][:4])` stays within four digits |
| Colors.Band | germany3d/windturbine/colors.py:30-37 | the band index is at most 3 (four colour bands) |
| Colors.PowerColor | germany3d/windturbine/colors.py:18-37 | the colour is the palette entry of the power's band: green, yellow, orange, red as 1000, 3000 and 5000 kW are reached |
| Colors.PowerColorByBand | germany3d/windturbine/colors.py:18-37 | `get_power_color` returns green exactly below 1000 kW, yellow exactly in [1000, 3000), orange exactly in [3000, 5000) and red exactly from 5000 kW on, i.e. the palette entry of the band |
| Colors.BandMonotone | germany3d/windturbine/colors.py:30-37 | more power never gives a lower colour band |
| Turbine.AdvanceAngle | germany3d/windturbine/turbine.py:216-220 | the new blade angle is the old one plus the increment, less 360 at most once; a step below 360 from an angle in [0, 360) stays in [0, 360) |
| Turbine.WindTurbine.constructor | germany3d/windturbine/turbine.py:188-207 | a new turbine keeps its position, height, rotor radius and power and starts with year 2000, state height 0.18, blade angle 0, rotation speed 90, LOD level 0, distance 0 and no render skip |
| Turbine.WindTurbine.PowerColor | germany3d/windturbine/turbine.py:211-214 | the `power_color` property is the colour table's entry for the turbine's power |
| Turbine.WindTurbine.Update | germany3d/windturbine/turbine.py:216-220 | `update(dt)` advances the blade angle by `rotation_speed * dt` with a single wrap at 360, staying in [0, 360) for steps below a full turn |
| TriangulationCache.JoinedSeesOnlyFormatted | germany3d/geometry/triangulation_cache.py:27 | two vertex lists whose coordinates print alike with six decimals join to the same text |
| TriangulationCache.HashPolygon | germany3d/geometry/triangulation_cache.py:16-28 | the hash is the first 16 hex digits of the SHA-256 digest of the joined vertex text |
| TriangulationCache.HashSeesOnlyRounded | germany3d/geometry/triangulation_cache.py:16-28 | polygons that agree after six-decimal formatting get the same hash |
| TriangulationCache.Lookup | germany3d/geometry/triangulation_cache.py:68-84 | `get` yields the stored triangles exactly when the name is present and its stored hash equals the given one, otherwise nothing |
| TriangulationCache.LookupAfterStore | germany3d/geometry/triangulation_cache.py:68-99 | `set` followed by `get` with the same hash returns the stored triangles; other names are unaffected; a different hash misses |
| TriangulationCache.TriangulationCache.constructor | germany3d/geometry/triangulation_cache.py:51-66 | the cache starts with the file's entries when the file exists and parses, empty otherwise, and unmodified |
| TriangulationCache.TriangulationCache.Get | germany3d/geometry/triangulation_cache.py:68-84 | returns the lookup of the name and hash in the current entries |
| TriangulationCache.TriangulationCache.Set | germany3d/geometry/triangulation_cache.py:86-99 | replaces only the entry of the name, marks the cache modified, and a following `get` with that hash returns the triangles |
| TriangulationCache.TriangulationCache.Save | germany3d/geometry/triangulation_cache.py:101-118 | an unmodified cache writes nothing; a successful write stores the entries and clears the modified flag; a failed write changes nothing |
| TriangulationCache.TriangulationCache.Clear | germany3d/geometry/triangulation_cache.py:120-129 | empties the entries, marks the cache modified and removes the file unless removal fails |
| Camera.Clamp | germany3d/core/camera.py:53 | `max(lo, min(hi, v))` lies in [lo, hi] when lo <= hi, is v inside the range and the nearer bound outside it, and is lo when the bounds are crossed |
| Camera.ZoomedIn | germany3d/core/camera.py:55-57 | zooming in subtracts the amount but never goes below the minimum, and never increases an in-range zoom for a nonnegative amount |
| Camera.ZoomedOut | germany3d/core/camera.py:59-61 | zooming out adds the amount but never exceeds the maximum, and never decreases an in-range zoom for a nonnegative amount |
| Camera.ScrollsKeepZoomInRange | germany3d/core/camera.py:105-115 | any sequence of wheel events keeps a zoom that starts in [min_zoom, max_zoom] inside that range |
| Camera.Camera.constructor | germany3d/core/camera.py:21-38 | a new camera has the default angles and zoom, the default zoom limits and the vertical limits 10 and 80 degrees, with the zoom in range |
| Camera.Camera.Rotate | germany3d/core/camera.py:40-53 | the horizontal angle moves by `dx * sensitivity` freely; the vertical angle moves by `dy * sensitivity` and is clamped to [min_rot_x, max_rot_x] |
| Camera.Camera.ZoomIn | germany3d/core/camera.py:55-57 | `zoom_in` sets the zoom to the clamped decrease and keeps an in-range zoom in range |
| Camera.Camera.ZoomOut | germany3d/core/camera.py:59-61 | `zoom_out` sets the zoom to the clamped increase and keeps an in-range zoom in range |
| Camera.Camera.Reset | germany3d/core/camera.py:63-67 | `reset` restores the default angles and zoom |
| Camera.MouseHandler.constructor | germany3d/core/camera.py:75-78 | a new handler is attached to the camera, not dragging, with last position (0, 0) |
| Camera.MouseHandler.StartDrag | germany3d/core/camera.py:80-83 | starts dragging and records the position |
| Camera.MouseHandler.StopDrag | germany3d/core/camera.py:85-87 | stops dragging |
| Camera.MouseHandler.Update | germany3d/core/camera.py:89-103 | without a drag nothing changes; while dragging, the camera rotates by the pointer delta times the default sensitivity 0.3 and the position is recorded |
| Camera.MouseHandler.Scroll | germany3d/core/camera.py:105-115 | wheel code 4 zooms in, 5 zooms out, any other code leaves the zoom alone |
| PointInPolygon.PointInPolygon | germany3d/data/point_in_polygon.py:12-45 | the edge loop leaves `inside` equal to the parity of the edges (each vertex paired with its predecessor, the first with the last) that the ray to the right crosses; fewer than three vertices give false |
| PointInPolygon.CrossesIgnoresY | germany3d/data/point_in_polygon.py:34-42 | one edge's crossing test reads only the x and z coordinates of its endpoints |
| PointInPolygon.CrossingsIgnoreY | germany3d/data/point_in_polygon.py:34-43 | changing only the heights of the vertices leaves the crossing count unchanged |
| PointInPolygon.InsideIgnoresY | germany3d/data/point_in_polygon.py:12-45 | the point test depends only on the x and z of each vertex, never on its height |
| PointInPolygon.CrossingBetween | germany3d/data/point_in_polygon.py:40-41 | where an edge straddles the line through the point, its interpolated crossing lies between the x values of its endpoints |
| PointInPolygon.NoCrossings | germany3d/data/point_in_polygon.py:38-43 | for a point on or above the highest vertex, below the lowest, or right of the rightmost, no edge toggles |
| PointInPolygon.CrossingsLeftParity | germany3d/data/point_in_polygon.py:38-43 | left of every vertex, the crossings of the first k edges toggle exactly as the straddle tests of the closing edge and of vertex 0 against vertex k-1 say |
| PointInPolygon.LeftCrosses | germany3d/data/point_in_polygon.py:40-41 | left of both endpoints, an edge toggles exactly when it straddles the horizontal line |
| PointInPolygon.OutsideBoxNotInside | germany3d/data/point_in_polygon.py:12-45 | a point outside the vertices' bounding box is never reported inside |
| PointInPolygon.FirstFrom | germany3d/data/point_in_polygon.py:59-62 | the index found is the first at or after k whose top vertices contain the point; none is found only if no later state contains it |
| PointInPolygon.FindBundeslandForPoint | germany3d/data/point_in_polygon.py:48-62 | returns the first state in list order whose top vertices contain the point, and nothing when none does |
| StateGrid.FirstIn | germany3d/data/spatial_grid.py:53-65 | a name found among city states is a city state and one found among the others is not |
| StateGrid.FirstInSpec | germany3d/data/spatial_grid.py:53-65 | a state of the requested kind is found exactly when some state of that kind contains the point, and the name found is that of a containing state of that kind |
| StateGrid.CellLabel | germany3d/data/spatial_grid.py:50-67 | a cell label is never empty, and a containing city state always wins over the other states |
| StateGrid.FindFirst | germany3d/data/spatial_grid.py:53-65 | the state loop with its `break` finds the first containing state of the requested kind |
| StateGrid.LabelCell | germany3d/data/spatial_grid.py:50-67 | one cell is labelled with the cell label (city states first, then the others; an empty name counts as none) |
| StateGrid.FillRow | germany3d/data/spatial_grid.py:45-68 | after row i every stored key of rows up to i carries its cell label and every labelled cell of those rows is stored |
| StateGrid.BuildGrid | germany3d/data/spatial_grid.py:35-68 | every key of the grid is a cell inside the raster carrying its label, and every labelled cell of the raster is present |
| StateGrid.NearBelowMapsToFirstCell | germany3d/data/spatial_grid.py:83-84 | `int()` truncates toward zero, so a point less than one cell below the lower bound still maps to index 0 and is not rejected by the bounds check |
| StateGrid.StateGrid.constructor | germany3d/data/spatial_grid.py:18-33 | the grid is built over the given states and size with exactly the labelled cells as keys |
| StateGrid.StateGrid.At | germany3d/data/spatial_grid.py:87-90 | a cell is found only inside the raster and only when it was stored |
| StateGrid.StateGrid.GetBundesland | germany3d/data/spatial_grid.py:72-90 | the lookup returns the stored name of the point's truncated cell, nothing for a column outside the raster |
| StateGrid.StateGrid.Neighbour | germany3d/data/spatial_grid.py:110-115 | the fallback finds nothing exactly when all four direct neighbours are empty, otherwise a neighbour's name, the (0, 1) neighbour first |
| StateGrid.StateGrid.GetBundeslandWithFallback | germany3d/data/spatial_grid.py:92-118 | a direct hit wins; otherwise the first named direct neighbour; any name returned is a non-empty stored name |
| BundeslandGeometry.DarkenChannel | germany3d/geometry/bundesland.py:51-52 | `max(0, c - d)` is never negative, is c - d when c >= d and 0 otherwise, and never brightens a channel |
| BundeslandGeometry.GpsToXZ | germany3d/geometry/bundesland.py:71-86 | the map bounds go to x = -1.1 and 1.1 and the southern and northern bounds to z = 1.3 and -1.3 |
| BundeslandGeometry.GpsToXZAffine | germany3d/geometry/bundesland.py:82-85 | the projection is affine: x grows with longitude and z falls with latitude at constant rates |
| BundeslandGeometry.Step | germany3d/geometry/bundesland.py:95 | the simplification step is at least 1 |
| BundeslandGeometry.Sample | germany3d/geometry/bundesland.py:96 | the sample of a non-empty polygon is non-empty |
| BundeslandGeometry.SampleSpec | germany3d/geometry/bundesland.py:95-96 | the sample holds exactly the points at multiples of the step, in order, and reaches the end of the polygon |
| BundeslandGeometry.Closed | germany3d/geometry/bundesland.py:99-100 | the closed ring starts with the input, ends with its first point, and grows by one point exactly when first and last differ |
| BundeslandGeometry.Projected | germany3d/geometry/bundesland.py:103-105 | one map point per ring point |
| BundeslandGeometry.Lift | germany3d/geometry/bundesland.py:106-107 | one vertex per map point |
| BundeslandGeometry.ProjectRing | germany3d/geometry/bundesland.py:103-107 | the vertex loop yields the projected ring, the top vertices at the extrusion height and the bottom vertices at height 0 |
| BundeslandGeometry.AppendHoles | germany3d/geometry/bundesland.py:163-167 | the hole vertices are appended in order to the 2D, top and bottom lists |
| BundeslandGeometry.Bundesland.constructor | germany3d/geometry/bundesland.py:35-124 | the colours come from the table (grey by default) darkened by 0.2 and 0.4; the vertices are the projected closed simplified ring; a non-empty cached triangulation with this hash is reused untouched, otherwise the triangles are exactly `triangulate_polygon(vertices_2d)`, the ear-clipping triangulation of the ring, n-2 of them (none for fewer than 3 vertices) with valid indices, and are stored in the cache under the hash |
| BundeslandGeometry.Bundesland.AddHoles | germany3d/geometry/bundesland.py:146-179 | the holes are recorded and their vertices appended after the outer ones, which stay unchanged; the new triangles are exactly `triangulate_polygon_with_holes(outer, holes)`, which without earcut is the triangulation of the outer ring alone (n-2 of them with indices into it) |
| BundeslandGeometry.Bundesland.UpdateHeight | germany3d/geometry/bundesland.py:181-198 | the extrusion is the new height and every top vertex keeps its x and z with the new height as y |
| BundeslandGeometry.NameMapSpec | germany3d/data/data_loader.py:93 | the name dictionary has exactly the names of the listed states as keys, each mapped to a listed state of that name |
| BundeslandGeometry.NameMapLastWins | germany3d/data/data_loader.py:93 | when names repeat, the last state of each name is the one kept |
| BundeslandGeometry.BuildNameMap | germany3d/data/data_loader.py:93 | the loop over the states builds the name dictionary |
| Triangulation.Reverse | germany3d/geometry/triangulation.py:51 | `pts[::-1]` has the same length and holds element `n-1-i` at position i |
| Triangulation.SignedArea | germany3d/geometry/triangulation.py:99-111 | the shoelace sum over cyclic successors, which is 0 for fewer than three points (a degenerate polygon has no orientation) |
| Triangulation.ReverseNegatesArea | germany3d/geometry/triangulation.py:99-111 | reversing the vertex order negates the signed shoelace area |
| Triangulation.Oriented | germany3d/geometry/triangulation.py:45-51 | a clockwise polygon (negative signed area) is reversed, any other is kept, and the result is never clockwise |
| Triangulation.PointInTriangle | germany3d/geometry/triangulation.py:114-130 | the sign test counts each corner of the triangle as inside |
| Triangulation.EdgePointInside | germany3d/geometry/triangulation.py:114-130 | every point of an edge of the triangle passes the sign test (the boundary counts as inside) |
| Triangulation.NoVertexInside | germany3d/geometry/triangulation.py:73-79 | the inner loop reports an ear exactly when no other active vertex lies in the candidate triangle |
| Triangulation.FindEar | germany3d/geometry/triangulation.py:60-85 | the scan finds the first active position whose corner is convex and empty, or reports that none is |
| Triangulation.FirstEarFrom | germany3d/geometry/triangulation.py:60-85 | the first position at or after `j` whose corner turns counter-clockwise with no other active vertex inside it; none exactly when no later position is such an ear |
| Triangulation.ClipFromShape | germany3d/geometry/triangulation.py:53-96 | from any list of distinct in-range active indices, the loop yields `len - 2` triangles, each of three distinct in-range indices with an active middle vertex, no two sharing a middle |
| Triangulation.EarClippingShape | germany3d/geometry/triangulation.py:53-96 | ear clipping n >= 3 points gives n-2 triangles of distinct in-range indices, and every vertex is clipped as the middle of at most one of them |
| Triangulation.EarClip | germany3d/geometry/triangulation.py:53-96 | the loop yields exactly the specified triangles: each round appends the first ear `FindEar` reports and drops its middle vertex, the fan is appended when no corner is an ear, and the last three vertices form the final triangle |
| Triangulation.Fan | germany3d/geometry/triangulation.py:87-91 | the fallback appends `(i0, ik, ik+1)` for every inner `k` after the ears found so far |
| Triangulation.Triangulate | germany3d/geometry/triangulation.py:22-96 | fewer than three vertices give no triangles; otherwise exactly the ear-clipping triangles of the oriented list, which is reversed when the signed area is negative, so n-2 triangles with valid, distinct indices and distinct middle vertices |
| Triangulation.TrianglesOfClockwise | germany3d/geometry/triangulation.py:48-51 | on a clockwise polygon the triangles are those of the reversed list, so index `i` names `v[n-1-i]` |
| Triangulation.TriangulateWithHoles | germany3d/geometry/triangulation.py:152-171 | without earcut the holes are ignored: the result is exactly the triangulation of the outer ring alone |
| Triangulation.PolygonArea | germany3d/geometry/triangulation.py:133-149 | the shoelace loop computes half the absolute signed area, which is never negative |
| Triangulation.AreaOfReverse | germany3d/geometry/triangulation.py:133-149 | the absolute area does not depend on the orientation of the vertex list |
| Occlusion.CullingRatio | germany3d/geometry/occlusion_culling.py:113-116 | the ratio is 0 without states, otherwise `occluded / total * 100`, within [0, 100] when 0 <= occluded <= total |
| Occlusion.OcclusionCullingSystem.constructor | germany3d/geometry/occlusion_culling.py:28-36 | depth buffer and early z test on, all counters 0 |
| Occlusion.OcclusionCullingSystem.RenderWithOcclusionCulling | germany3d/geometry/occlusion_culling.py:72-109 | the callback sees the sorted normal states, then the sorted city states; total is the number of states, rendered the number of calls and occluded their difference, which is 0 when the two lists together are a permutation of the states |
| Occlusion.OcclusionCullingSystem.GetStats | germany3d/geometry/occlusion_culling.py:111-123 | the statistics report the three counters and the culling ratio, at most 100 when the counters balance |
| Occlusion.BucketNear | germany3d/geometry/occlusion_culling.py:157 | `round(angle / 5) * 5` is a multiple of 5 within 2.5 degrees of the angle |
| Occlusion.BucketOfMultiple | germany3d/geometry/occlusion_culling.py:157 | a multiple of 5 degrees is its own cache key |
| Occlusion.MeanZWithin | germany3d/geometry/occlusion_culling.py:166 | the mean z of the top vertices lies between their smallest and largest z |
| Occlusion.ZPosition | germany3d/geometry/occlusion_culling.py:163-167 | a state without top vertices sorts at 0, any other at a mean between its extreme z values |
| Occlusion.Keyed | germany3d/geometry/occlusion_culling.py:171 | each state is paired with its z key, in list order |
| Occlusion.PainterOrderPermutes | germany3d/geometry/occlusion_culling.py:171 | `sorted` returns a permutation of the states |
| Occlusion.PainterOrderSorted | germany3d/geometry/occlusion_culling.py:169-171 | the states come out in non-decreasing mean z, back to front |
| Occlusion.PainterOrderStable | germany3d/geometry/occlusion_culling.py:171 | the sort is stable: states with equal z keep their relative order |
| Occlusion.PainterOrderIdempotent | germany3d/geometry/occlusion_culling.py:171 | sorting an already sorted list changes nothing |
| Occlusion.BundeslandPainterSort.constructor | germany3d/geometry/occlusion_culling.py:136-139 | the sort cache starts empty |
| Occlusion.BundeslandPainterSort.SortForPainterAlgorithm | germany3d/geometry/occlusion_culling.py:141-176 | a cached angle bucket returns the cached list whatever the states passed; otherwise the states are sorted by mean z and stored under the bucket |
| Occlusion.BundeslandPainterSort.ClearCache | germany3d/geometry/occlusion_culling.py:178-180 | empties the sort cache |
| Lod.LastAtMost | germany3d/windturbine/lod.py:72-77 | the backward scan picks the last level whose threshold is at most the distance, and falls back to level 0 when every threshold is above it |
| Lod.LastAtMostMonotone | germany3d/windturbine/lod.py:61-77 | over ascending thresholds a larger distance never selects a finer level |
| Lod.LastAtMostAscending | germany3d/windturbine/lod.py:61-77 | over ascending thresholds every level whose threshold the distance reaches is at or before the selected one |
| Lod.DefaultSelection | germany3d/windturbine/lod.py:46-50 | with the default table, distances below 0.3 select LOD0, from 0.3 below 0.8 LOD1, and from 0.8 LOD2 |
| Lod.DefaultsSorted | germany3d/windturbine/lod.py:46-59 | the default table is already in threshold order, so the sort in the constructor leaves it unchanged |
| Lod.LodManager.constructor | germany3d/windturbine/lod.py:52-59 | `lod_levels or DEFAULT_LODS`: a non-empty custom list is stably sorted by threshold, a missing or empty one gives the default table |
| Lod.LodManager.GetLodForDistance | germany3d/windturbine/lod.py:61-77 | the selected level is the last whose threshold is at most the distance, or level 0 when none is |
| Lod.LodManager.GetPolygonCount | germany3d/windturbine/lod.py:79-91 | the count is `int(base * ratio)` of the selected level, between 0 and base for a ratio in [0, 1] |
| Lod.PolygonsAt | germany3d/windturbine/lod.py:91 | `int(base * ratio)` lies in [0, base] for a nonnegative base and a ratio in [0, 1] |
| Lod.PolygonBound | germany3d/windturbine/lod.py:91 | truncating `base * ratio` toward zero stays within [0, base] |
| Lod.LodTurbine.constructor | germany3d/windturbine/lod.py:109-129 | a turbine with a shared manager starts without a level, at the base polygon count, distance 0 and zero switches and renders |
| Lod.LodTurbine.WithDefaultManager | germany3d/windturbine/lod.py:120 | without a manager the turbine gets a fresh one holding the default table, and the same initial state |
| Lod.LodTurbine.UpdateLod | germany3d/windturbine/lod.py:131-161 | the distance is recorded; the level for `min(1.0, distance)` becomes current; the call reports a change exactly when it differs from the previous level, counting one switch, and otherwise leaves the polygon count alone |
| Lod.LodTurbine.Render | germany3d/windturbine/lod.py:163-178 | every call counts one render; with LOD enabled and a current level the level's polygon count is returned, otherwise the base count |
| Lod.LodRenderBatch.constructor | germany3d/windturbine/lod.py:200-202 | a new batch set is empty with zero polygons |
| Lod.LodRenderBatch.AddTurbine | germany3d/windturbine/lod.py:204-212 | the turbine is appended to the batch of its level's name (LOD0 without a level), a new name is added in insertion order, and its polygon count is added to the total |
| Lod.LodRenderBatch.GetBatchStats | germany3d/windturbine/lod.py:222-230 | one entry per batch name, holding the number of turbines in that batch |
| LodAggressive.MakeLevel | germany3d/windturbine/lod_aggressive.py:51-56 | a level is built exactly when its ratio is in [0, 1], its threshold is nonnegative, it has at least 3 segments and 0 to 3 blades; the built level holds the given fields |
| LodAggressive.PresetsValid | germany3d/windturbine/lod_aggressive.py:67-102 | every preset level of every mode passes the validation |
| LodAggressive.PresetsInOrder | germany3d/windturbine/lod_aggressive.py:104-119 | every mode's table is non-empty and already sorted by threshold |
| LodAggressive.PresetExamples | germany3d/windturbine/lod_aggressive.py:67-86 | distance 0 selects full detail; 0.95 selects the aggressive billboard LOD4 at 2 %; 0.5 selects the standard LOD1 at 50 % |
| LodAggressive.BisectRight | germany3d/windturbine/lod_aggressive.py:137-138 | `bisect_right` returns the number of thresholds at most x: all before it are at most x, all from it on exceed x |
| LodAggressive.BisectAgreesWithScan | germany3d/windturbine/lod_aggressive.py:138-139 | `max(0, bisect_right - 1)` selects the same level as the backward scan of the standard manager |
| LodAggressive.AggressiveLodManager.constructor | germany3d/windturbine/lod_aggressive.py:104-122 | "standard" and "extreme" pick their tables, any other mode the aggressive one, sorted by threshold, with the thresholds precomputed |
| LodAggressive.AggressiveLodManager.GetLodForDistance | germany3d/windturbine/lod_aggressive.py:124-140 | the binary search selects the last level whose threshold is at most the distance, level 0 when none is |
| LodAggressive.AggressiveLodManager.LodPolygonsBounds | germany3d/windturbine/lod_aggressive.py:172-174 | the summed `100 * ratio` over n distances lies between 0 and 100 n |
| LodAggressive.AggressiveLodManager.TallyDistances | germany3d/windturbine/lod_aggressive.py:172-175 | the loop sums `100 * ratio` of each selected level and counts the selected level names, the counts adding up to the number of distances |
| LodAggressive.AggressiveLodManager.CalculatePolygonSavings | germany3d/windturbine/lod_aggressive.py:158-183 | with distances: base 100 per turbine, the summed LOD polygons, savings `(1 - lod / base) * 100`, the level-name counts and the mode; an empty list divides by zero and gives no result |
| LodAggressive.SavingsPercentBounds | germany3d/windturbine/lod_aggressive.py:180 | the savings percentage lies in [0, 100] |
| LodAggressive.ConfigModeMonotone | germany3d/windturbine/lod_aggressive.py:207-222 | more turbines never pick a less aggressive mode; "extreme" exactly above 25000 and "standard" exactly up to 10000 |
| LodAggressive.GetAggressiveLodConfig | germany3d/windturbine/lod_aggressive.py:207-222 | returns a fresh manager in the mode chosen by the turbine count, with that mode's table |
| LodAggressive.TargetLod | germany3d/windturbine/lod_aggressive.py:277-286 | the pixel thresholds give a target between 0 and 4, 0 for an infinite screen size |
| LodAggressive.TargetLodMonotone | germany3d/windturbine/lod_aggressive.py:277-286 | a larger screen size never gives a coarser target |
| LodAggressive.HybridLodSelector.constructor | germany3d/windturbine/lod_aggressive.py:238-249 | the selector keeps the screen height and the precomputed screen factor |
| LodAggressive.HybridLodSelector.GetScreenSize | germany3d/windturbine/lod_aggressive.py:251-264 | infinite exactly below distance 0.001, otherwise `height * factor / distance` |
| LodAggressive.HybridLodSelector.SelectLod | germany3d/windturbine/lod_aggressive.py:266-290 | the index is the pixel target capped at the last level; a distance below 0.001 gives level 0 |
| LodAggressive.HybridLodSelector.SelectLodMonotone | germany3d/windturbine/lod_aggressive.py:266-290 | for nonnegative heights and factor a farther object never gets a finer level |
| Frustum.Normalize | germany3d/windturbine/frustum_culling.py:36-46 | a plane with a zero normal is returned unchanged; otherwise every coefficient is divided by the normal's length |
| Frustum.NormalizeKeepsSide | germany3d/windturbine/frustum_culling.py:36-57 | normalising gives a unit normal when the length is positive and never moves a point to the other side of the plane |
| Frustum.SpherePassesSnoc | germany3d/windturbine/frustum_culling.py:274-277 | the sphere test over one more plane passes exactly when it passed before and the centre is at least `-radius` from the new plane |
| Frustum.PointImpliesSphere | germany3d/windturbine/frustum_culling.py:240-277 | a point inside all planes also passes the sphere test for any nonnegative radius |
| Frustum.PVertexMaximises | germany3d/windturbine/frustum_culling.py:296-300 | the p-vertex chosen by the signs of the normal is at least as far along the normal as any point of the box |
| Frustum.InsidePointKeepsBox | germany3d/windturbine/frustum_culling.py:279-305 | a box containing a visible point is never culled: the p-vertex test is conservative |
| Frustum.CameraTopBottomPass | germany3d/windturbine/frustum_culling.py:234-236 | the fixed top and bottom planes pass exactly the points with -10 <= y <= 10 |
| Frustum.MatMul | germany3d/windturbine/frustum_culling.py:96 | the product of two 4x4 matrices is a 4x4 matrix |
| Frustum.RawPlanes | germany3d/windturbine/frustum_culling.py:98-145 | the Gribb-Hartmann extraction yields six planes |
| Frustum.RawPlaneDistance | germany3d/windturbine/frustum_culling.py:98-145 | the distance to an extracted plane is the clip w coordinate plus or minus the clip x, y or z coordinate |
| Frustum.NormalizeAllSameSides | germany3d/windturbine/frustum_culling.py:100-145 | normalising all six planes leaves the set of points inside all of them unchanged |
| Frustum.PassesSix | germany3d/windturbine/frustum_culling.py:253-256 | the point test over six planes is the conjunction of the six distance tests |
| Frustum.RawPlanesAreClipVolume | germany3d/windturbine/frustum_culling.py:96-145 | a point is inside the six raw planes exactly when its clip coordinates satisfy -w <= x, y, z <= w |
| Frustum.ExtractedPlanesAreClipVolume | germany3d/windturbine/frustum_culling.py:85-147 | after normalisation the extracted frustum still holds exactly the points inside the clip volume |
| Frustum.ViewFrustum.constructor | germany3d/windturbine/frustum_culling.py:80-83 | six zero planes, not yet extracted |
| Frustum.ViewFrustum.ExtractFromMatrices | germany3d/windturbine/frustum_culling.py:85-147 | the planes become the normalised Gribb-Hartmann planes of projection times modelview, in the order near, far, left, right, top, bottom, and the frustum counts as extracted |
| Frustum.ViewFrustum.ExtractFromCamera | germany3d/windturbine/frustum_culling.py:149-238 | the planes become the given near, far, left and right planes and the fixed top and bottom planes at y = 10 and y = -10, and the frustum counts as extracted |
| Frustum.ViewFrustum.IsPointVisible | germany3d/windturbine/frustum_culling.py:240-256 | before extraction everything is visible; afterwards a point is visible exactly when no plane has it at negative distance |
| Frustum.ViewFrustum.IsSphereVisible | germany3d/windturbine/frustum_culling.py:258-277 | before extraction everything is visible; afterwards a sphere is visible exactly when no plane has its centre below `-radius` |
| Frustum.ViewFrustum.IsAabbVisible | germany3d/windturbine/frustum_culling.py:279-305 | before extraction everything is visible; afterwards a box is visible exactly when every plane has its p-vertex at nonnegative distance |
| Frustum.ViewFrustum.Get2dBounds | germany3d/windturbine/frustum_culling.py:307-328 | the 2D bounds are the fixed rectangle x in [-2, 2], z in [-2.5, 2.5] whatever the planes |
| Frustum.Culled | germany3d/windturbine/frustum_culling.py:396-400 | the kept turbines are a subsequence of the input and each passes the turbine test |
| Frustum.CulledComplete | germany3d/windturbine/frustum_culling.py:396-400 | every turbine that passes the test is kept |
| Frustum.CulledConcat | germany3d/windturbine/frustum_culling.py:396-400 | culling distributes over concatenation, so the order of the input is kept |
| Frustum.UnextractedKeepsAll | germany3d/windturbine/frustum_culling.py:250-251 | before any extraction culling keeps every turbine |
| Frustum.FrustumCuller.constructor | germany3d/windturbine/frustum_culling.py:338-345 | a fresh unextracted frustum and zero statistics |
| Frustum.FrustumCuller.IsTurbineVisible | germany3d/windturbine/frustum_culling.py:369-383 | a turbine is tested as a sphere of radius `height / 2` centred at half its height |
| Frustum.FrustumCuller.CullTurbines | germany3d/windturbine/frustum_culling.py:385-405 | returns the visible turbines in input order; total is the input size, visible the output size and culled their difference |
| Frustum.FrustumCuller.GetStats | germany3d/windturbine/frustum_culling.py:407-409 | returns the statistics of the last cull |
| Frustum.NarrowMask | germany3d/windturbine/frustum_culling.py:465-469 | one plane's pass narrows the mask to the positions passing all planes seen so far and this one |
| Frustum.VectorizedFrustumCuller.constructor | germany3d/windturbine/frustum_culling.py:425-427 | a fresh unextracted frustum |
| Frustum.VectorizedFrustumCuller.CullPositions | germany3d/windturbine/frustum_culling.py:441-471 | the mask has one entry per position, true exactly when the sphere at half height (0.18 by default) passes every plane; there is no fallback for an unextracted frustum |
| Frustum.MaskMatchesCull | germany3d/windturbine/frustum_culling.py:369-469 | after extraction, the vectorised mask with default heights agrees with the per-turbine cull |
| Instanced.ScaleLevels | germany3d/windturbine/instanced_rendering.py:100 | for levels 0, 1 and 2 or more both scale paths give 1.0, 0.7 and 0.4 |
| Instanced.ScaleNonIncreasing | germany3d/windturbine/instanced_rendering.py:100 | a coarser level never gets a larger scale |
| Instanced.ScalePathsDisagreeBelowZero | germany3d/windturbine/instanced_rendering.py:100-130 | on level -1 the list path indexes from the end (0.4) while the vectorised path clips to level 0 (1.0) |
| Instanced.PowerRamp | germany3d/windturbine/instanced_rendering.py:137-149 | green rises to yellow up to 4000 kW (red channel `p / 4000`), yellow falls to red up to 8000 kW, pure red from 8000 kW; channels stay in [0, 1] for nonnegative power and blue is always 0 |
| Instanced.PowerRampPaths | germany3d/windturbine/instanced_rendering.py:137-167 | for nonnegative power the per-instance and vectorised colours agree; a negative power gives green on the vectorised path but a negative red channel on the per-instance path |
| Instanced.InstanceBuffer.constructor | germany3d/windturbine/instanced_rendering.py:59-78 | fresh arrays of the given capacity with zero positions, rotations and levels, unit scales, white colours, no instances, and the GPU copy dirty |
| Instanced.InstanceBuffer.SetPowerColor | germany3d/windturbine/instanced_rendering.py:137-149 | only the colour of the given slot changes, to the power ramp's colour |
| Instanced.InstanceBuffer.SetInstances | germany3d/windturbine/instanced_rendering.py:80-106 | the first `min(len, max)` slots take each turbine's position, blade angle, level, list-indexed scale and ramp colour; later slots are untouched; the GPU copy is dirty |
| Instanced.InstanceBuffer.SetInstancesVectorized | germany3d/windturbine/instanced_rendering.py:108-135 | the first `min(len(x), max)` slots take the given positions, rotations and levels, the clipped scale and the clipped colour; later slots are untouched |
| Instanced.InstanceBuffer.UpdateRotations | germany3d/windturbine/instanced_rendering.py:169-178 | each live rotation becomes `(r + delta) % 360` with Python's floor modulo, so it lies in [0, 360); the rest are untouched |
| Instanced.GroupOf | germany3d/windturbine/instanced_rendering.py:358-362 | levels 0, 1 and 2 keep their group; every other level falls into group 0 |
| Instanced.InGroupSnoc | germany3d/windturbine/instanced_rendering.py:360-362 | one more turbine is appended to exactly its own group |
| Instanced.GroupsPartition | germany3d/windturbine/instanced_rendering.py:358-362 | the three groups together hold every turbine exactly once |
| Instanced.DrawCallsBounds | germany3d/windturbine/instanced_rendering.py:365-379 | at most three draw calls, and none exactly for an empty list |
| Instanced.InstancedTurbineRenderer.constructor | germany3d/windturbine/instanced_rendering.py:225-239 | a fresh buffer of the given capacity and zero statistics |
| Instanced.InstancedTurbineRenderer.RenderInstances | germany3d/windturbine/instanced_rendering.py:337-379 | the instance count is the list length, the turbines are grouped by level in list order, and one draw call is counted per non-empty group |
| Instanced.TrueIndices | germany3d/windturbine/instanced_rendering.py:473-475 | `np.where` lists, in increasing order, exactly the indices whose mask entry is true |
| Instanced.BatchTurbineData.constructor | germany3d/windturbine/instanced_rendering.py:441-450 | fresh arrays of the given capacity, no turbines, every slot visible |
| Instanced.BatchTurbineData.UpdateFromTurbines | germany3d/windturbine/instanced_rendering.py:452-462 | the first `min(len, max)` slots take each turbine's position, blade angle (0 without one) and level (0 without one); later slots are untouched |
| Instanced.BatchTurbineData.Animate | germany3d/windturbine/instanced_rendering.py:464-467 | each live blade angle advances by `speed * dt` modulo 360 and lies in [0, 360); the rest are untouched |
| Instanced.BatchTurbineData.ApplyCulling | germany3d/windturbine/instanced_rendering.py:469-471 | the live visibility flags are copied from the mask; the rest are untouched |
| Instanced.BatchTurbineData.GetVisibleIndices | germany3d/windturbine/instanced_rendering.py:473-475 | exactly the live indices marked visible, in increasing order |
| Quadtree.Box.Quadrant | germany3d/windturbine/quadtree.py:105-129 | the four children of a split are NW, NE, SW and SE, each bounded by the parent's edges and its centre |
| Quadtree.Box.Contains | germany3d/windturbine/quadtree.py:43-46 | the closed-bounds point test; QuadrantsCover states that a point is in a box exactly when it is in one of its four quadrants |
| Quadtree.Box.Intersects | germany3d/windturbine/quadtree.py:48-53 | the AABB overlap test on closed bounds; SharedPointIntersects states that two boxes sharing a point intersect |
| Quadtree.SharedPointIntersects | germany3d/windturbine/quadtree.py:43-53 | two boxes that both contain a point intersect, in either order |
| Quadtree.QuadrantsCover | germany3d/windturbine/quadtree.py:105-140 | a point lies in a box exactly when it lies in one of its four quadrants, so a split loses no turbine |
| Quadtree.FirstQuadrant | germany3d/windturbine/quadtree.py:136-140 | the first quadrant in NW, NE, SW, SE order that contains the point; 4 exactly when the parent box does not contain it |
| Quadtree.Node.WithChild | germany3d/windturbine/quadtree.py:161-166 | replacing one child keeps the bounds and the other three children |
| Quadtree.Insert | germany3d/windturbine/quadtree.py:145-168 | inserting keeps the node's bounds, and a turbine outside them leaves the subtree unchanged |
| Quadtree.InsertKeeps | germany3d/windturbine/quadtree.py:145-168 | insertion keeps the tree well formed (every child inside its parent's quadrant, every turbine inside its leaf), adds the turbine exactly once when it lies inside the root box and not at all otherwise, and keeps every leaf above depth 10 within capacity |
| Quadtree.RouteShape | germany3d/windturbine/quadtree.py:162-166 | an inner node hands the turbine to the first quadrant containing it and to no other |
| Quadtree.RouteKeeps | germany3d/windturbine/quadtree.py:162-166 | routing into an inner node keeps it well formed, within capacity, and adds the turbine exactly when the node's box contains it |
| Quadtree.RouteChildren | germany3d/windturbine/quadtree.py:162-166 | exactly the first containing quadrant gains the turbine; the other children keep their contents |
| Quadtree.Split | germany3d/windturbine/quadtree.py:105-143 | a split keeps the node's bounds |
| Quadtree.SplitKeeps | germany3d/windturbine/quadtree.py:105-143 | splitting a leaf whose turbines lie in its box keeps every turbine exactly once, yields a well-formed tree and respects the capacity above depth 10 |
| Quadtree.SplitRoutes | germany3d/windturbine/quadtree.py:105-143 | below the depth limit each child of a split has its quadrant as bounds and holds the parent's turbines routed to it |
| Quadtree.EmptySplit | germany3d/windturbine/quadtree.py:115-134 | four empty children bounded by the quadrants |
| Quadtree.Distribute | germany3d/windturbine/quadtree.py:136-140 | redistributing keeps the node inner and its bounds |
| Quadtree.DistributeKeeps | germany3d/windturbine/quadtree.py:136-140 | redistributing the parent's turbines adds each one exactly once and keeps the tree well formed and within capacity |
| Quadtree.DistributeRoutes | germany3d/windturbine/quadtree.py:136-140 | each child gains exactly the turbines routed to its quadrant |
| Quadtree.DistributeBounds | germany3d/windturbine/quadtree.py:136-140 | redistributing never changes a child's bounds |
| Quadtree.InBox | germany3d/windturbine/quadtree.py:207-210 | the turbines of a list the box contains, as a sub-multiset of the list holding every contained turbine |
| Quadtree.InBoxConcat | germany3d/windturbine/quadtree.py:212-214 | filtering a concatenation concatenates the filtered parts, as the query's `extend` does |
| Quadtree.InBoxSnoc | germany3d/windturbine/quadtree.py:207-210 | filtering one more turbine appends it exactly when the box contains it |
| Quadtree.ItemsInBounds | germany3d/windturbine/quadtree.py:145-168 | every turbine stored in a well-formed tree lies inside its root box |
| Quadtree.MaxDepth | germany3d/windturbine/quadtree.py:241-266 | the deepest level is at least the node's own depth |
| Quadtree.CapacityBoundsDepth | germany3d/windturbine/quadtree.py:112-113 | the depth cut-off bounds the tree's depth by 11 levels below the root |
| Quadtree.BuildShape | germany3d/windturbine/quadtree.py:170-188 | building from a list gives a well-formed tree over the given box that respects the capacity above depth 10 |
| Quadtree.BuildContents | germany3d/windturbine/quadtree.py:170-188 | the built tree holds, as a multiset, exactly the list's turbines inside the box |
| Quadtree.QueryIsFilter | germany3d/windturbine/quadtree.py:190-223 | the hierarchical query returns, in tree order, exactly the stored turbines the query box contains; pruning loses nothing |
| Quadtree.NoneInBox | germany3d/windturbine/quadtree.py:206-207 | a subtree whose box misses the query box contains no visible turbine |
| Quadtree.CountInBox | germany3d/windturbine/quadtree.py:231-234 | the leaf count equals the number of contained turbines |
| Quadtree.CountVisible | germany3d/windturbine/quadtree.py:225-239 | the count equals the length of the visible list |
| Quadtree.Stats | germany3d/windturbine/quadtree.py:241-268 | the turbine count is the number of stored turbines, leaves are at least one and at most the nodes, the depth is the deepest level, and the average is turbines over leaves |
| Quadtree.InsertAll | germany3d/windturbine/quadtree.py:170-188 | the insertion loop builds the same tree as inserting the list one by one from an empty leaf |
| Quadtree.QuadtreeManager.constructor | germany3d/windturbine/quadtree.py:295-307 | an empty leaf over the given bounds, no queries counted |
| Quadtree.QuadtreeManager.Build | germany3d/windturbine/quadtree.py:309-318 | the root is rebuilt from the list with capacity 8, stays valid, and holds exactly the list's turbines inside the bounds |
| Quadtree.QuadtreeManager.GetVisible | germany3d/windturbine/quadtree.py:320-331 | counts one more query and returns exactly the stored turbines the query box contains |
| TurbineGrid.Ceil | germany3d/windturbine/spatial_grid.py:40-48 | `math.ceil`: the least integer not below the value |
| TurbineGrid.MakeShape | germany3d/windturbine/spatial_grid.py:36-48 | the grid's cells span at least the bounds' extent on every axis |
| TurbineGrid.CeilCovers | germany3d/windturbine/spatial_grid.py:40-48 | `ceil(e / c)` cells of size `c` cover an extent `e` |
| TurbineGrid.AxisIndex | germany3d/windturbine/spatial_grid.py:69-76 | the truncated cell index clamped into `[0, dim - 1]`, and the unclamped index itself whenever it is already in range |
| TurbineGrid.AxisMonotone | germany3d/windturbine/spatial_grid.py:69-76 | a larger coordinate never gets a smaller cell index |
| TurbineGrid.CellInGrid | germany3d/windturbine/spatial_grid.py:57-78 | every position, even one outside the bounds, maps into a cell of the grid |
| TurbineGrid.SelectSplit | germany3d/windturbine/spatial_grid.py:126-133 | the objects selected by a box are those of its two disjoint parts together |
| TurbineGrid.SelectEmpty | germany3d/windturbine/spatial_grid.py:126-133 | an empty cell range selects nothing |
| TurbineGrid.SelectHas | germany3d/windturbine/spatial_grid.py:126-133 | every inserted object whose cell lies in the box is selected |
| TurbineGrid.ColumnSelect | germany3d/windturbine/spatial_grid.py:128-131 | the innermost `gz` loop gathers, as a multiset, exactly the inserted objects of its column of cells |
| TurbineGrid.SlabSelect | germany3d/windturbine/spatial_grid.py:127-131 | the `gy` loop gathers exactly the objects of its slab of cells |
| TurbineGrid.BlockSelect | germany3d/windturbine/spatial_grid.py:126-131 | the triple loop gathers exactly the inserted objects whose cell lies in the range |
| TurbineGrid.WithinQueryBox | germany3d/windturbine/spatial_grid.py:112-131 | a position inside the frustum bounds lies in a cell the query visits |
| TurbineGrid.NearMembers | germany3d/windturbine/spatial_grid.py:163-169 | the distance filter keeps exactly the candidates within the squared radius |
| TurbineGrid.SphereWithinBounds | germany3d/windturbine/spatial_grid.py:149-154 | a point within the radius lies inside the sphere's bounding box |
| TurbineGrid.CellSet | germany3d/windturbine/spatial_grid.py:89-91 | there are no more occupied cells than insertions |
| TurbineGrid.SelectedCell | germany3d/windturbine/spatial_grid.py:126-131 | a non-empty selection comes from an occupied cell inside the box |
| TurbineGrid.CellsAtMostEntries | germany3d/windturbine/spatial_grid.py:87-95 | the cell dictionary never has more keys than objects inserted |
| TurbineGrid.GatherCells | germany3d/windturbine/spatial_grid.py:126-131 | the triple loop returns the cells' lists concatenated in `gx`, `gy`, `gz` order |
| TurbineGrid.InsertMatches | germany3d/windturbine/spatial_grid.py:80-95 | appending the object to its cell keeps the cells consistent with the insertion history |
| TurbineGrid.NewKeyCount | germany3d/windturbine/spatial_grid.py:89-91 | adding a new key grows the dictionary by one |
| TurbineGrid.KeepNear | germany3d/windturbine/spatial_grid.py:163-171 | the filter loop keeps, in order, exactly the candidates within the squared radius |
| TurbineGrid.SpatialGrid.constructor | germany3d/windturbine/spatial_grid.py:28-55 | the grid shape from the bounds and cell size, no cells, no objects |
| TurbineGrid.SpatialGrid.Insert | germany3d/windturbine/spatial_grid.py:80-95 | the object is appended to its cell's list, one more object is counted, and one more cell exactly when the cell was new |
| TurbineGrid.SpatialGrid.QueryFrustum | germany3d/windturbine/spatial_grid.py:97-135 | the objects of the visited cells, as a multiset exactly the inserted objects whose cell lies in the range, including every object inside the bounds |
| TurbineGrid.SpatialGrid.QuerySphere | germany3d/windturbine/spatial_grid.py:137-171 | every result lies within the radius, and every inserted object positioned within a nonnegative radius is returned |
| TurbineGrid.SpatialGrid.Clear | germany3d/windturbine/spatial_grid.py:173-177 | no cells, no objects, zero counters |
| TurbineGrid.SpatialGrid.GetStats | germany3d/windturbine/spatial_grid.py:179-187 | the counters, and an average of objects per cell that is 0 without cells |
| TurbineGrid.SpatialGrid.AverageAtLeastOne | germany3d/windturbine/spatial_grid.py:179-183 | every occupied cell holds an object, so the average is at least one |
| Manager.BoundsFor | germany3d/windturbine/manager.py:348-365 | the box is symmetric with the 1.5 : 1.8 aspect, scaled by `max(0.5, 1 / zoom)` (so never below 0.75 by 0.9, and exactly that for a negative zoom), with view distance `camera_distance * max(0.8, zoom)` |
| Manager.BoundsShrinkWithZoom | germany3d/windturbine/manager.py:354-363 | zooming in never enlarges the box, and from zoom 2 on it stays at its minimum |
| Manager.VisibleMatchesRoot | germany3d/windturbine/manager.py:367-391 | with the distance taken as the square root, the test is exactly "inside the box and not farther than the view distance" |
| Manager.VisibleOf | germany3d/windturbine/manager.py:405-410 | the visible sub-list: no longer than the input and holding only visible input turbines |
| Manager.VisibleOfComplete | germany3d/windturbine/manager.py:405-410 | every visible input turbine is kept |
| Manager.BucketByYear | germany3d/windturbine/manager.py:83-92 | the loop builds the year dictionary in which each year maps to its turbines in list order |
| Manager.AppendNamed | germany3d/windturbine/manager.py:142-146 | appends exactly the bucket's turbines with a known state name, in order |
| Manager.CollectUntilYear | germany3d/windturbine/manager.py:130-148 | the turbines of the years up to `max_year`, taken in ascending year order, minus those without a state or with state "Unknown" |
| Manager.CountCacheUntilYear | germany3d/windturbine/manager.py:150-163 | the count equals the length of the list `get_turbines_until_year` returns |
| Manager.FilterVisible | germany3d/windturbine/manager.py:405-410 | the loop keeps exactly the visible candidates in order |
| Manager.NewDefaultLodManager | germany3d/windturbine/manager.py:51 | a fresh level-of-detail manager holding the default table |
| Manager.WindTurbineManager.constructor | germany3d/windturbine/manager.py:28-58 | no turbines, an invalid empty cache, the initial box, a quadtree over the fixed bounds, the default level table, and every toggle on |
| Manager.WindTurbineManager.AddTurbine | germany3d/windturbine/manager.py:60-81 | a fresh turbine with the given data, year 2000, no state, blade angle `(n * 37) % 360` for the n-th turbine, appended to the list; the cache becomes invalid |
| Manager.WindTurbineManager.BuildYearCache | germany3d/windturbine/manager.py:83-104 | the cache holds the year buckets and is valid, and the quadtree is rebuilt from all turbines exactly when it is enabled |
| Manager.WindTurbineManager.GetTurbinesUntilYear | germany3d/windturbine/manager.py:130-148 | the cache is rebuilt when invalid, and the result lists, in ascending year order, the turbines up to `max_year` that have a known state |
| Manager.WindTurbineManager.CountUntilYear | germany3d/windturbine/manager.py:150-163 | the cache is refreshed, and the count equals the length of the list `get_turbines_until_year` would return |
| Manager.WindTurbineManager.UpdateFrustum | germany3d/windturbine/manager.py:348-365 | the second (effective) definition: a zero zoom raises Python's division error and leaves the box unchanged; otherwise the box is the one computed from zoom and distance |
| Manager.WindTurbineManager.GetVisibleTurbinesUntilYear | germany3d/windturbine/manager.py:393-412 | the second (effective) definition: the visible turbines among those up to `max_year`, in the same order |
| Manager.WindTurbineManager.UpdateLodForTurbines | germany3d/windturbine/manager.py:279-301 | with level of detail on, each turbine gets its camera distance and the level chosen for `min(1, distance)`; with it off nothing changes |
| Manager.CameraDistancesAgree | germany3d/windturbine/manager.py:289-300 | a turbine listed twice has the same camera distance each time, so the in-place updates agree |
| Manager.DefaultDigits | germany3d/windturbine/manager.py:299 | the last character of each default level's name is its index, so `int(lod.name[-1])` gives the table position |
| OptimizedManager.SphereRadius | germany3d/windturbine/optimized_manager.py:279 | the bounding-sphere radius is 1.2 times the larger of height and rotor radius |
| OptimizedManager.SphereCulled | germany3d/windturbine/optimized_manager.py:257-287 | the turbines whose bounding sphere passes the frustum, as an order-preserving sub-list |
| OptimizedManager.SphereCulledComplete | germany3d/windturbine/optimized_manager.py:275-284 | every turbine whose sphere passes is kept |
| OptimizedManager.SphereCulledConcat | germany3d/windturbine/optimized_manager.py:275-284 | culling a concatenation concatenates the culled parts |
| OptimizedManager.UnextractedKeepsAll | germany3d/windturbine/optimized_manager.py:257-287 | before the planes are extracted every turbine is kept |
| OptimizedManager.BaseVisibleKept | germany3d/windturbine/optimized_manager.py:277-281 | a turbine whose sphere centre is inside the frustum is never culled |
| OptimizedManager.VisibleBoundingBox | germany3d/windturbine/optimized_manager.py:436-445 | a square around the camera with half side `max(0.5, 2 / zoom)` (0.5 for a negative zoom); a zero zoom raises Python's division error |
| OptimizedManager.VisibleBoxShrinks | germany3d/windturbine/optimized_manager.py:436-445 | the box contains the camera, zooming in never enlarges it, and from zoom 4 on it has its minimum half side 0.5 |
| OptimizedManager.NormalizedDistance | germany3d/windturbine/optimized_manager.py:334 | the level is chosen for half the ground distance, capped at 1 |
| OptimizedManager.GroundDistSq | germany3d/windturbine/optimized_manager.py:330-333 | the squared ground distance to the camera is nonnegative |
| OptimizedManager.ThresholdBySquares | germany3d/windturbine/optimized_manager.py:330-336 | a level threshold is passed by the normalised distance exactly when four times its square is passed by the squared distance |
| OptimizedManager.PresetDigits | germany3d/windturbine/optimized_manager.py:338 | every preset table ends each level name with its index, so `int(lod.name[-1])` is the level's position |
| OptimizedManager.NamesDigits | germany3d/windturbine/optimized_manager.py:338 | levels named `LOD0`, `LOD1`, … in order end in their index |
| OptimizedManager.NewStandardLodManager | germany3d/windturbine/optimized_manager.py:118 | a fresh manager on the standard preset |
| OptimizedManager.LodConfigFor | germany3d/windturbine/optimized_manager.py:179-180 | a fresh manager on the preset chosen for the turbine count |
| OptimizedManager.LevelAt | germany3d/windturbine/optimized_manager.py:334-338 | the chosen level is an index of the table |
| OptimizedManager.CameraDistances | germany3d/windturbine/optimized_manager.py:330-333 | one distance per turbine, the square root of its squared ground distance |
| OptimizedManager.CameraDistancesAgree | germany3d/windturbine/optimized_manager.py:330-339 | a turbine listed twice gets the same distance each time |
| OptimizedManager.LevelNames | germany3d/windturbine/optimized_manager.py:336-342 | one chosen level name per distance |
| OptimizedManager.CollectAllUntilYear | germany3d/windturbine/optimized_manager.py:191-198 | the buckets of the years up to `max_year`, concatenated in ascending year order, with no state filter |
| OptimizedManager.FreshCacheQuery | germany3d/windturbine/optimized_manager.py:157-198 | after a rebuild, the result holds for each year up to `max_year` exactly that year's turbines in list order and none later, sorted by year |
| OptimizedManager.BucketsWithin | germany3d/windturbine/optimized_manager.py:165-170 | the year cache holds only managed turbines |
| OptimizedManager.BuildWithin | germany3d/windturbine/optimized_manager.py:172-174 | the quadtree holds only managed turbines |
| OptimizedManager.UntilYearWithin | germany3d/windturbine/optimized_manager.py:191-198 | the year filter returns only managed turbines |
| OptimizedManager.Prefiltered | germany3d/windturbine/optimized_manager.py:399-404 | with the quadtree on and more than 1000 candidates, the list is replaced by the quadtree's turbines inside the camera box (undefined for zero zoom); otherwise it is unchanged |
| OptimizedManager.PrefilterIgnoresYear | germany3d/windturbine/optimized_manager.py:396-404 | a turbine built after `max_year` but inside the camera box comes back from the prefilter, because the quadtree query replaces the year-filtered list instead of narrowing it |
| OptimizedManager.OptimizedWindTurbineManager.constructor | germany3d/windturbine/optimized_manager.py:87-138 | no turbines, an invalid empty cache, the optimisation toggles from the argument, an unextracted frustum, the camera at the origin with zoom 1, the standard level preset, batch data of capacity 50000, a quadtree over the fixed bounds, zero statistics |
| OptimizedManager.OptimizedWindTurbineManager.AddTurbine | germany3d/windturbine/optimized_manager.py:144-155 | a fresh turbine with the given data and year, level 0, blade angle `(n * 37) % 360`, appended; the cache becomes invalid |
| OptimizedManager.OptimizedWindTurbineManager.RebuildIndexes | germany3d/windturbine/optimized_manager.py:171-182 | the quadtree is rebuilt when enabled, the level preset is chosen by turbine count when aggressive levels are on, and the batch data gets capacity `max(50000, n)` when instancing is on; each is untouched otherwise |
| OptimizedManager.OptimizedWindTurbineManager.BuildYearCache | germany3d/windturbine/optimized_manager.py:157-184 | the year buckets become the valid cache, together with the rebuilt indexes |
| OptimizedManager.OptimizedWindTurbineManager.GetTurbinesUntilYear | germany3d/windturbine/optimized_manager.py:186-198 | a valid cache is reused untouched, an invalid one is rebuilt, and the result is the year-filtered list of managed turbines |
| OptimizedManager.OptimizedWindTurbineManager.PrefilterCandidates | germany3d/windturbine/optimized_manager.py:399-404 | the prefiltered list, with `culled_by_quadtree` set to the total minus the survivors only when the quadtree was used; other statistics unchanged |
| OptimizedManager.OptimizedWindTurbineManager.CullResult | germany3d/windturbine/optimized_manager.py:257-287 | the culled list is a sub-list of the input made of managed turbines |
| OptimizedManager.OptimizedWindTurbineManager.FrustumCullTurbines | germany3d/windturbine/optimized_manager.py:257-287 | with culling off the list unchanged; with it on, the sphere-culled list, with `culled_by_frustum` set to the number removed; other statistics unchanged |
| OptimizedManager.OptimizedWindTurbineManager.SphereFilter | germany3d/windturbine/optimized_manager.py:274-285 | the loop keeps exactly the turbines whose sphere passes and counts the rest |
| OptimizedManager.OptimizedWindTurbineManager.UpdateLodForTurbines | germany3d/windturbine/optimized_manager.py:317-345 | with aggressive levels on, each turbine gets its camera distance and the level for half of it (capped at 1), and the level histogram counts the chosen names; with them off nothing changes |
| OptimizedManager.OptimizedWindTurbineManager.SelectVisible | germany3d/windturbine/optimized_manager.py:394-408 | the staged pipeline: year filter, optional quadtree prefilter (which fails on zero zoom), then frustum culling, with the total and quadtree statistics set from the stage sizes |
| OptimizedManager.OptimizedWindTurbineManager.FilterCandidates | germany3d/windturbine/optimized_manager.py:399-408 | the prefilter followed by the frustum cull, with the total and quadtree statistics |
| OptimizedManager.OptimizedWindTurbineManager.CullForRender | germany3d/windturbine/optimized_manager.py:375-411 | the visible count is stored, every visible turbine is managed, and with aggressive levels each visible turbine gets its distance and level while the histogram sums to the visible count |
| OptimizedManager.TallyLevels | germany3d/windturbine/optimized_manager.py:327-345 | the loop sets each turbine's distance and level and builds the histogram of chosen names |
| OptimizedManager.UpdateTurbineLod | germany3d/windturbine/optimized_manager.py:336-339 | one step of that loop: this turbine gets its distance and level while the earlier ones keep theirs |
| YearCache.OfYear | germany3d/windturbine/manager.py:88-92 | the turbines of one year, a sub-list of the input |
| YearCache.NamedOf | germany3d/windturbine/manager.py:143-146 | the turbines with a state name other than "Unknown", a sub-list of the input |
| YearCache.OfYearConcat | germany3d/windturbine/manager.py:88-92 | selecting one year distributes over concatenation |
| YearCache.NamedOfConcat | germany3d/windturbine/manager.py:143-146 | the state filter distributes over concatenation |
| YearCache.OfYearNamed | germany3d/windturbine/manager.py:139-146 | the year selection and the state filter commute |
| YearCache.OfYearUniform | germany3d/windturbine/manager.py:88-92 | a list of one year yields all of it for that year and nothing for any other |
| YearCache.BucketsSpec | germany3d/windturbine/manager.py:83-92 | the cache maps a year to that year's turbines in list order, and has a key exactly for the years that occur |
| YearCache.BucketsUniform | germany3d/windturbine/manager.py:83-92 | every bucket holds only turbines of its own year |
| YearCache.KeysAllIn | germany3d/windturbine/manager.py:139 | the sorted keys are all keys of the cache |
| YearCache.UntilYear | germany3d/windturbine/manager.py:139-146 | the collected turbines all come from the cache |
| YearCache.UntilYearConcat | germany3d/windturbine/manager.py:139-146 | collecting over two key lists concatenates the two collections |
| YearCache.NamedUntilYearStep | germany3d/windturbine/manager.py:139-146 | one more key appends that year's named turbines exactly when the year is at most `max_year` |
| YearCache.UntilYearOfYear | germany3d/windturbine/manager.py:139-146 | for distinct keys, the collection holds each year's whole bucket when the year is listed and at most `max_year`, and nothing of it otherwise |
| YearCache.BlockOfYear | germany3d/windturbine/manager.py:140-141 | one bucket contributes to year `y` only when it is that year's bucket and not after `max_year` |
| YearCache.UntilYearGroups | germany3d/windturbine/manager.py:83-148 | for a fresh cache, year `y`'s turbines in the result are all of that year's turbines in list order when `y <= max_year`, and none otherwise |
| YearCache.NamedUntilYearGroups | germany3d/windturbine/manager.py:83-148 | the same with the state filter: exactly the named turbines of each year up to `max_year` |
| YearCache.UntilYearSorted | germany3d/windturbine/manager.py:139-146 | with ascending keys the result is sorted by year, and every year in it is a key not after `max_year` |
| YearCache.AppendBlockSorted | germany3d/windturbine/manager.py:139-146 | appending a later year's bucket keeps the list sorted by year |
| YearCache.UntilYearMonotone | germany3d/windturbine/manager.py:139-146 | a later `max_year` never returns fewer turbines |
| YearCache.CountOverRemove | germany3d/windturbine/manager.py:150-163 | the count does not depend on the order in which the dictionary's keys are visited: any year can be counted first |
| YearCache.CountOverUnfold | germany3d/windturbine/manager.py:150-163 | counting in ascending order starts with the least year's contribution |
| WindStatistics.AccumValue | germany3d/data/wind_statistics.py:54-70 | accumulation keeps the table's states and adds to each (state, year) the power in MW of the turbines located in that state and built in that year |
| WindStatistics.LocateTurbine | germany3d/data/wind_statistics.py:56-60 | the first state, in list order, whose top outline contains the turbine, or none |
| WindStatistics.AccumulateTurbines | germany3d/data/wind_statistics.py:54-70 | the loop adds every located turbine's power to its state and year |
| WindStatistics.ResetSpec | germany3d/data/wind_statistics.py:46-47 | every listed state gets an empty table, and states left over from an earlier call keep theirs |
| WindStatistics.ResetStates | germany3d/data/wind_statistics.py:46-47 | the loop gives every listed state an empty table |
| WindStatistics.PrefixSumIsSumUpTo | germany3d/data/wind_statistics.py:87-98 | the running sum over the first `n` sorted years is the sum over all years up to `y`, when exactly those `n` years are at most `y` |
| WindStatistics.PrefixSumSlice | germany3d/data/wind_statistics.py:94-96 | the running sum depends only on the years already visited |
| WindStatistics.PrefixSumMonotone | germany3d/data/wind_statistics.py:94-96 | with nonnegative powers the running sum never decreases |
| WindStatistics.CumulatedAt | germany3d/data/wind_statistics.py:94-96 | the cumulative table stores, at each visited year, the running sum up to and including it |
| WindStatistics.CumulatedKeyListed | germany3d/data/wind_statistics.py:94-96 | the cumulative table has no year that was not visited |
| WindStatistics.CumulativeKeys | germany3d/data/wind_statistics.py:87-98 | the cumulative table has the same years as the raw one |
| WindStatistics.Cumulative | germany3d/data/wind_statistics.py:87-98 | the running sums over the ascending years of one state; CumulativeKeys and CumulativeAt state its keys and values |
| WindStatistics.CumulativeAt | germany3d/data/wind_statistics.py:87-98 | each year maps to the total power of all years up to it |
| WindStatistics.PowerIsPrefixSum | germany3d/data/wind_statistics.py:116-143 | the lookup returns the running sum at the last year not after the query year |
| WindStatistics.PowerIsSumUpTo | germany3d/data/wind_statistics.py:87-143 | the power for a year is the total power installed in all years up to it |
| WindStatistics.CumulateState | germany3d/data/wind_statistics.py:89-98 | the loop over sorted years builds the cumulative table of one state |
| WindStatistics.CumulateAll | germany3d/data/wind_statistics.py:87-98 | the loop replaces every state's table by its cumulative table |
| WindStatistics.MaxValue | germany3d/data/wind_statistics.py:78-82 | the result is at least the previous maximum, bounds every stored value, and is either the previous maximum or one of the values |
| WindStatistics.Leading | germany3d/data/wind_statistics.py:135-141 | the number of leading sorted years not after the query year, where the lookup loop breaks |
| WindStatistics.LeadingMonotone | germany3d/data/wind_statistics.py:135-141 | a later query year never stops the lookup earlier |
| WindStatistics.PowerForZero | germany3d/data/wind_statistics.py:127-143 | an unknown state, an empty table, or a year before every stored year gives 0 |
| WindStatistics.PowerFor | germany3d/data/wind_statistics.py:116-143 | the lookup with 0 for an unknown or empty state; PowerIsSumUpTo states it is the total up to the year |
| WindStatistics.LeadingAtLast | germany3d/data/wind_statistics.py:135-141 | the loop stops right after the latest stored year not after the query year |
| WindStatistics.PowerForLatest | germany3d/data/wind_statistics.py:135-143 | the power is the stored value of the latest year not after the query year |
| WindStatistics.PowerMonotone | germany3d/data/wind_statistics.py:87-143 | with nonnegative powers the installed power never decreases from one year to a later one |
| WindStatistics.HeightFor | germany3d/data/wind_statistics.py:158-169 | the base height when the maximum is not positive; otherwise a linear map sending 0 MW to the minimum and the maximum to the maximum height, staying in that range |
| WindStatistics.HeightMonotone | germany3d/data/wind_statistics.py:158-169 | more power never gives a lower state |
| WindStatistics.Calculate | germany3d/data/wind_statistics.py:33-85 | the name map of the states, the cumulative table of the reset and accumulated powers, and a maximum that bounds every value and never drops below the previous one |
| WindStatistics.PowerForListedState | germany3d/data/wind_statistics.py:33-143 | for every listed state, after a calculation, the power for a year is the sum up to that year of the power of the turbines located in it |
| WindStatistics.WindPowerStatistics.constructor | germany3d/data/wind_statistics.py:25-31 | empty tables and a zero maximum |
| WindStatistics.WindPowerStatistics.CalculateFromTurbines | germany3d/data/wind_statistics.py:33-85 | the object's state becomes the result of the calculation over its old table and maximum |
| WindStatistics.WindPowerStatistics.GetPowerForYear | germany3d/data/wind_statistics.py:116-143 | the lookup loop returns the specified power for the state and year |
| WindStatistics.WindPowerStatistics.GetHeightForYear | germany3d/data/wind_statistics.py:145-169 | the height of that power under the current maximum |
| WindStatistics.WindPowerStatistics.UpdateBundeslandHeights | germany3d/data/wind_statistics.py:171-184 | each state's extrusion becomes its new height when it differs by more than 0.001 and is kept otherwise, and states stay valid |
| DataLoader.FirstHit | germany3d/data/data_loader.py:159-179 | the first state at or after `k` in the chosen group (city states or the others) whose bounding-box precheck and outline contain the point, with no earlier one in that group; none when no such state exists |
| DataLoader.Locate | germany3d/data/data_loader.py:155-180 | a state containing the point, none exactly when no state contains it, and a city state whenever some city state contains it |
| DataLoader.FindHit | germany3d/data/data_loader.py:159-168 | the scan loop returns the first hit in the group |
| DataLoader.GetHeightForPosition | germany3d/data/data_loader.py:149-180 | the extrusion of the located state, city states first; the default height 0.14 outside every state |
| DataLoader.GetBundeslandNameForPosition | germany3d/data/data_loader.py:183-219 | the name of the located state, city states first; none outside every state |
| DataLoader.PrecomputeBboxes | germany3d/data/data_loader.py:140-146 | every state with a top outline gets the min/max box of it; states without one keep theirs |
| DataLoader.PrecheckIrrelevant | germany3d/data/data_loader.py:162-166 | with a box that really bounds the outline, the box precheck never changes the polygon test's answer |
| DataLoader.PrecheckNeverChangesLookup | germany3d/data/data_loader.py:159-179 | with correct boxes, the lookup finds the same state as the plain polygon scan |
| DataLoader.Nearest | germany3d/data/data_loader.py:227-241 | among the states with an outline, the first one whose centroid is nearest; none when no state has an outline |
| DataLoader.FindNearestBundesland | germany3d/data/data_loader.py:222-243 | the nearest state's name, or "Unknown" when there is none or its name is empty |
| DataLoader.LargestRing | germany3d/data/data_loader.py:131 | the index of the first ring of largest area |
| DataLoader.ProcessFeature | germany3d/data/data_loader.py:115-137 | no state for a geometry other than Polygon/MultiPolygon or a MultiPolygon without parts; otherwise the first largest ring is the state's outline, a ring of three or more points yields a state, and a state returned carries the name, the height for that name, a valid triangulation and no holes |
| DataLoader.HolesOfEmpty | germany3d/data/data_loader.py:100-109 | a parent gets no holes exactly when none of its city states is loaded |
| DataLoader.HolesOfAgree | germany3d/data/data_loader.py:100-107 | the holes depend only on the outlines of the named city states |
| DataLoader.CollectHoles | germany3d/data/data_loader.py:100-107 | the loop collects the (x, z) outlines of the loaded city states in table order |
| DataLoader.DoneAfterStep | germany3d/data/data_loader.py:95-111 | one table entry punches its parent exactly when the parent is loaded and receives at least one hole |
| DataLoader.TableEntry | germany3d/data/data_loader.py:77-82 | parents are not city states, each parent appears once, and every hole is a city state |
| DataLoader.DoneAfterAll | germany3d/data/data_loader.py:95-111 | after the whole table, exactly the loaded parents with holes are punched, each with its own holes |
| DataLoader.DoneAfterNoCity | germany3d/data/data_loader.py:95-111 | no city state is ever punched |
| DataLoader.CityOutlines | germany3d/data/data_loader.py:95-111 | the city states' outlines are untouched, so later holes see the original outlines |
| DataLoader.ShapeStep | germany3d/data/data_loader.py:109-111 | punching one parent extends its 2-D vertex list by the flattened holes and changes no other state |
| DataLoader.PunchParent | germany3d/data/data_loader.py:95-111 | one table entry: a loaded parent with holes gets them added, every other state is unchanged, and all stay valid |
| DataLoader.PunchStep | germany3d/data/data_loader.py:95-111 | the loop body keeps the progress invariant for one more table entry |
| DataLoader.PunchAll | germany3d/data/data_loader.py:95-111 | after the loop every state matches its original shape with exactly the table's holes added |
| DataLoader.PunchHolesForCityStates | germany3d/data/data_loader.py:84-111 | every parent chosen by the name map that has loaded city states gets exactly their outlines as holes; every other state is untouched |
| DataLoader.TurbineSize | germany3d/data/data_loader.py:267-269 | at a positive scale a stronger turbine is taller, heights are at least `0.04 * scale`, and the rotor radius is positive and smaller than the height |
| DataLoader.SortByYear | germany3d/data/data_loader.py:343 | the sorted records are a permutation of the input ordered by year |
| DataLoader.SortByYearSorted | germany3d/data/data_loader.py:343 | records already in year order are unchanged |
| DataLoader.SortByYearStable | germany3d/data/data_loader.py:343 | the sort is stable: each year's records keep their order |
| Hardware.ParseVendorIgnoresLower | germany3d/hardware.py:245-258 | the vendor does not depend on letter case: lower-casing the string first gives the same vendor |
| Hardware.ParseVendorIgnoresUpper | germany3d/hardware.py:245-258 | upper-casing the string first gives the same vendor |
| Hardware.ParseVendorNvidiaAnywhere | germany3d/hardware.py:249-250 | "nvidia" anywhere in the string, in any case, wins over every other vendor |
| Hardware.IntelCorporationParsesAsAmd | germany3d/hardware.py:251-254 | "Intel Corporation" parses as AMD, because "ati" occurs inside "corporation" and the AMD test comes first |
| Hardware.GlVersionOf | germany3d/hardware.py:260-271 | a version string starting with `major.minor`, optionally followed by a patch number and then by a space and more text, gives that major and minor |
| Hardware.VersionWord | germany3d/hardware.py:266 | such a first word is non-empty and free of whitespace, so `split()[0]` returns it whole |
| Hardware.VersionPieces | germany3d/hardware.py:266 | splitting that word on '.' gives the major and minor digit strings first |
| Hardware.GlVersionOfPieces | germany3d/hardware.py:266-268 | when the first two dot-separated pieces of the first word parse, they are the version |
| Hardware.GlVersionFallback | germany3d/hardware.py:269-271 | an empty string or an unparsable major number falls back to version 2.0 |
| Hardware.HasExtensionSpec | germany3d/hardware.py:322-355 | an extension is reported exactly when its name is in the list |
| Hardware.FeaturesGrowWithExtensions | germany3d/hardware.py:316-356 | more extensions never switch a feature off |
| Hardware.LaterVersionKeepsFeatures | germany3d/hardware.py:319-339 | a later OpenGL version never loses VBOs, geometry shaders or tessellation |
| Hardware.MinorTestQuirks | germany3d/hardware.py:326-348 | the minor-number tests are not version comparisons: 3.1 has instancing but 4.0 does not, 4.3 has compute shaders but 5.0 does not, and 5.0 has no multi-draw-indirect |
| Hardware.TierByVendor | germany3d/hardware.py:362-393 | NVIDIA and AMD are high exactly when a high-end marker occurs in the upper-cased name and medium otherwise; Intel is medium for "Iris" or "Arc" (case-sensitive) and low otherwise; Apple is medium; any other vendor is minimal |
| Hardware.LodModeCoarserForLowerTier | germany3d/hardware.py:415-443 | a lower tier never gets a finer level-of-detail mode: standard for high, extreme for minimal, aggressive otherwise |
| Hardware.MaxTurbinesByRam | germany3d/hardware.py:415-449 | the recommended turbine count grows with RAM up to 50000: 5000 below 4 GB, 50000 from 8 GB |
| Hardware.HardwareCapabilities.constructor | germany3d/hardware.py:58-109 | the dataclass defaults: unknown vendor, no name, no RAM, version 0.0, no extensions, no features, default settings |
| Hardware.HardwareCapabilities.ParseOpenGlVersion | germany3d/hardware.py:260-271 | stores the string and the parsed major and minor |
| Hardware.HardwareCapabilities.DeriveCapabilities | germany3d/hardware.py:316-356 | the features derived from the version and the extensions |
| Hardware.HardwareCapabilities.CalculateRecommendations | germany3d/hardware.py:358-449 | the tier from vendor and name, then the tier's settings: shadows on, the tier's level mode, VBOs when available, instancing only on high and medium tiers with instancing support, and the RAM cap |
| Hardware.HardwareCapabilities.ApplyTierSettings | germany3d/hardware.py:415-449 | the settings for the current tier and RAM, leaving the tier and the level/culling toggles as they are |
| Hardware.HardwareCapabilities.ApplyProbe | germany3d/hardware.py:138-243 | the probed RAM and extensions are stored; vendor, renderer name and version are taken over only when reported and read before any exception in the GPU detection, and such an exception sets the vendor to NONE |
| Hardware.HardwareCapabilities.Detect | germany3d/hardware.py:112-136 | a fresh object holding the probed RAM, extensions, vendor (NONE after a failed GPU detection), name and OpenGL version with the fields defaults otherwise; features derived from them; the tier from vendor and name, the tier's level mode, VBO use equal to VBO support, instanced rendering exactly on high and medium tiers with instancing support, and the RAM cap; a failed detection gives the minimal tier |
| Hardware.CapabilitiesCache.constructor | germany3d/hardware.py:527 | nothing is cached at start |
| Hardware.CapabilitiesCache.GetCapabilities | germany3d/hardware.py:530-539 | the first call detects and caches; later calls return the cached object unchanged |
| Hardware.CapabilitiesCache.Reset | germany3d/hardware.py:542-545 | the cache is cleared |
| VideoExport.QualityParams | germany3d/video_export.py:59-67 | four ffmpeg arguments: `-crf`, the quality's constant-rate factor as a decimal string, `-preset`, the quality's preset |
| VideoExport.CrfOrdered | germany3d/video_export.py:59-67 | higher quality means a lower rate factor (lossless 0 < high < medium < low), all within x264's 0..51, only lossless gives 0, and an unknown quality falls back to 28 with "ultrafast" |
| VideoExport.QualityParamsMedium | germany3d/video_export.py:59-67 | the default quality gives `-crf 23 -preset veryfast` |
| VideoExport.TotalDuration | germany3d/video_export.py:76-79 | the duration is nonnegative for a forward year range and a nonnegative speed |
| VideoExport.TotalFrames | germany3d/video_export.py:70-73 | `int(duration * fps)`: the truncated frame count, for a nonnegative product its floor |
| VideoExport.DefaultLength | germany3d/video_export.py:33-79 | the default configuration lasts 8.75 seconds, 210 frames |
| VideoExport.Progress | germany3d/video_export.py:330-331 | for a positive frame count and a frame within it the progress lies in [0, 1]; with no frames it is 0 |
| VideoExport.YearFor | germany3d/video_export.py:334-335 | `start_year + int(progress * year_range)`; YearForMonotone states that more progress never gives an earlier year, and YearInRange that every frame's year lies in [start_year, end_year] |
| VideoExport.YearForMonotone | germany3d/video_export.py:334-335 | more progress never shows an earlier year |
| VideoExport.CameraStateAt | germany3d/video_export.py:316-353 | the rotation lies in [0, 360), and the state carries the frame's progress and year |
| VideoExport.YearInRange | germany3d/video_export.py:330-335 | every frame of the animation shows a year between the start and end years |
| VideoExport.YearAtEnds | germany3d/video_export.py:330-335 | frame 0 shows the start year and the frame after the last shows the end year |
| VideoExport.YearMonotone | germany3d/video_export.py:330-335 | a later frame never shows an earlier year |
| VideoExport.DefaultLastFrameYear | germany3d/video_export.py:330-335 | with the defaults the last recorded frame (209) shows 2024, never the end year 2025 |
| VideoExport.CinematicAnimator.constructor | germany3d/video_export.py:306-309 | the given configuration or the defaults, at frame 0 and the start year |
| VideoExport.CinematicAnimator.Reset | germany3d/video_export.py:311-314 | back to frame 0 and the start year |
| VideoExport.CinematicAnimator.GetCameraState | germany3d/video_export.py:316-353 | the state of the given frame, or of the current one when none is given, with constant tilt and zoom |
| VideoExport.CinematicAnimator.AdvanceFrame | germany3d/video_export.py:355-365 | returns the current frame's state, then moves one frame on and records its year |
| VideoExport.CinematicAnimator.Record | main.py:241-257 | from a reset, the loop yields exactly `total_frames` states, the i-th being frame i's, and ends finished |
| VideoExport.RecordedYears | main.py:241-260 | the recorded years start at the start year, never decrease and never leave the configured range |
| VideoExport.ResolutionProperties | germany3d/video_export.py:387-396 | every named resolution is 16:9, and the name is matched regardless of case |
| VideoExport.ResolutionUpperCase | germany3d/video_export.py:387-396 | "4K" selects 3840x2160 |
| VideoExport.CreateVideoConfigFromArgs | germany3d/video_export.py:372-407 | the defaults, with each field overridden only by a truthy argument; an unknown resolution keeps 1920x1080; every other field keeps its default |
| Preprocess.ExtractYear | scripts/preprocess_windmills.py:105-144 | the year is always below 10000 in absolute value, since at most four characters are parsed |
| Preprocess.ExtractYearBlank | scripts/preprocess_windmills.py:115-118 | an empty or all-blank date gives 0 |
| Preprocess.YearDigits | scripts/preprocess_windmills.py:125 | a four-digit year prints as four digits that parse back to it |
| Preprocess.ExtractYearByParts | scripts/preprocess_windmills.py:122-131 | a stripped date containing '/' is split on '/', and one containing '.' but no '/' is split on '.' |
| Preprocess.ThreeParts | scripts/preprocess_windmills.py:123-129 | splitting three separator-free parts joined by the separator gives back the three parts |
| Preprocess.ExtractYearThirdPart | scripts/preprocess_windmills.py:122-131 | a date of three parts gives the integer of the first four characters of the third part |
| Preprocess.ExtractYearSeparated | scripts/preprocess_windmills.py:122-131 | `MM/DD/YYYY…` and `DD.MM.YYYY…` give the four-digit year, whatever follows it |
| Preprocess.YearTail | scripts/preprocess_windmills.py:125-131 | a third part starting with a four-digit year has that year as its first four characters |
| Preprocess.ExtractYearIso | scripts/preprocess_windmills.py:134-135 | `YYYY-…` without '/' or '.' gives the year |
| Preprocess.ExtractYearBare | scripts/preprocess_windmills.py:138-139 | a bare four-digit year gives itself |
| Preprocess.ExtractYearTooFewParts | scripts/preprocess_windmills.py:122-131 | a date with only two parts gives 0 |
| Preprocess.TwoParts | scripts/preprocess_windmills.py:123-129 | splitting two separator-free parts joined by the separator gives back the two parts |
| Preprocess.Round6 | scripts/preprocess_windmills.py:102 | rounding to six decimals moves a value by at most half a millionth |
| Preprocess.Round6Idempotent | scripts/preprocess_windmills.py:102 | rounding a rounded value changes nothing |
| Preprocess.GpsTo3d | scripts/preprocess_windmills.py:89-102 | the state map's projection of the point, rounded to six decimals; GpsTo3dMatchesStates states that it is within half a millionth of the unrounded projection and already rounded |
| Preprocess.GpsTo3dMatchesStates | scripts/preprocess_windmills.py:89-102 | the stored coordinates are within half a millionth of the state outlines' projection of the same point, and already rounded |
| Preprocess.PlzOf | scripts/preprocess_windmills.py:52-62 | the postcode is zero-filled to at least five characters |
| Preprocess.PlzEntry | scripts/preprocess_windmills.py:62-67 | a row is kept only with a postcode of at least five characters and non-zero latitude and longitude |
| Preprocess.EntriesOf | scripts/preprocess_windmills.py:48-69 | one outcome per postcode row |
| Preprocess.AssignLastWins | scripts/preprocess_windmills.py:66-67 | every postcode maps to the coordinates of its last row |
| Preprocess.AssignCovers | scripts/preprocess_windmills.py:66-67 | every kept row's postcode is in the dictionary |
| Preprocess.LookupOfSpec | scripts/preprocess_windmills.py:44-69 | the lookup holds exactly the kept rows' postcodes, each with at least five characters and non-zero coordinates taken from its last row |
| Preprocess.AddMissingSpec | scripts/preprocess_windmills.py:81-83 | manual entries are added only for postcodes not already present; existing entries are kept |
| Preprocess.ManualPlzWellFormed | scripts/preprocess_windmills.py:72-79 | the six manual postcodes have five characters and are distinct |
| Preprocess.LoadPlzLookup | scripts/preprocess_windmills.py:37-86 | the loop builds the file's lookup completed by the manual entries |
| Preprocess.LoadedKeys | scripts/preprocess_windmills.py:37-86 | every postcode has at least five characters, and the file's entries win over manual ones |
| Preprocess.RowPlz | scripts/preprocess_windmills.py:194-206 | an accepted postcode has at least five characters and is not "00000" |
| Preprocess.ClassifyParts | scripts/preprocess_windmills.py:194-248 | a row gets past the postcode checks exactly when its postcode is in the lookup, and then carries that postcode |
| Preprocess.Classify | scripts/preprocess_windmills.py:189-248 | the same, stated on the raw row |
| Preprocess.OutcomesOf | scripts/preprocess_windmills.py:189-248 | one classification per register row |
| Preprocess.OutcomesKnown | scripts/preprocess_windmills.py:209-213 | every postcode used past the lookup check is in the lookup |
| Preprocess.RunSnoc | scripts/preprocess_windmills.py:189-248 | processing one more row is one more step of the run |
| Preprocess.RunCounts | scripts/preprocess_windmills.py:171-248 | every row is counted once: total = processed + no postcode + postcode not found + invalid, and there is one record per processed row |
| Preprocess.RunCounter | scripts/preprocess_windmills.py:215-217 | the per-postcode counter counts the rows that got past the lookup, including those later rejected for invalid power |
| Preprocess.RecordsValid | scripts/preprocess_windmills.py:189-248 | every record has a known postcode of at least five characters other than "00000" and a year below 10000 in absolute value |
| Preprocess.RecordsFromUsable | scripts/preprocess_windmills.py:236-244 | every record comes from a usable row with the same postcode and year |
| Preprocess.Placement | scripts/preprocess_windmills.py:213-244 | a usable row appends one record placed at the spiral offset given by how often its postcode was seen before, and the first row of a postcode sits at the postcode's centre |
| Preprocess.RejectedRowShiftsNext | scripts/preprocess_windmills.py:216-248 | a row rejected for invalid power still advances its postcode's counter, so the next row of that postcode is scattered as the second one |
| Preprocess.TallyAbsent | scripts/preprocess_windmills.py:180 | an unseen postcode has count 0 |
| Preprocess.ProcessRow | scripts/preprocess_windmills.py:190-248 | one loop iteration performs exactly the step for the row's classification |
| Preprocess.ParseRow | scripts/preprocess_windmills.py:194-234 | the parsed postcode, power and year classify the row as specified |
| Preprocess.PreprocessWindmills | scripts/preprocess_windmills.py:185-251 | the statistics and records the loop produces are those of running the specified steps over all rows |

## Left out

- **Drawing.** OpenGL, pygame and all drawing are not part of this model. This covers the `render*` methods, display lists, `_upload_to_gpu`, GL state calls, shaders, shadows and the viewer. They are presentation side effects with no result to state.
- **File and serialisation I/O:**
  - GeoJSON, CSV and cache reading in `load_bundeslaender`, `load_windturbines*` and `_add_demo_turbines`;
  - the JSON persistence of the triangulation cache: `_init_cache`, the file write of `save`, and `__del__`;
  - pickle caching;
  - the CSV loops of the preprocessing script, which here receives rows as field dictionaries.
  The model starts from the parsed values.
- **Hardware probing.** The subprocess, psutil, nvidia-smi and GL-context calls (`_detect_system`, `_detect_gpu`, `_detect_extensions`) are foreign I/O. `ApplyProbe` receives their results as a probe record, including the point at which the GPU detection raised, if it did. The GLSL version, driver string, OS and CPU fields are not modelled, since no modelled decision reads them.
- **Video recording.** `VideoRecorder`, `get_ffmpeg_path` and frame capture through ffmpeg and PIL are external processes.
- **Transcendental and library numerics.** The following values are parameters, not computed:
  - sqrt, sin, cos and tan: the plane normal length in `Plane.normalize`, the camera-derived side planes of `extract_from_camera` and `update_from_camera`, and `OptimizedWindTurbineManager.update_camera` and `update_camera_from_opengl`;
  - camera distances;
  - the field of view of `HybridLODSelector`;
  - the spiral scatter offsets of the preprocessing script;
  - float parsing and six-decimal float formatting;
  - SHA-256 inside `hash_polygon`, which is an uninterpreted function of the joined text.
- **Floating point.** Floats are mathematical reals. float32 rounding, NaN and infinity are not modelled. Python's `round` is modelled exactly on the real value, not on its binary approximation.
- **Python strings.** `lower`, `upper`, `isdigit` and `int(str)` cover ASCII letters and digits only. Unicode case mapping and non-ASCII digits are not modelled.
- **`AggressiveLODManager.get_lod_for_distance_squared`** needs a square root. `ThresholdBySquares` states the equivalent comparison on squared distances that the optimized manager relies on.
- **`VectorizedFrustumCuller.calculate_lod_distances`** and the vectorised sphere cull `_frustum_cull_vectorized` are left out. The latter calls a method that does not exist.
- **`OptimizedWindTurbineManager.update_camera`** passes ten positional arguments to a function that accepts seven. Its arithmetic is modelled through the frustum extraction, not the resulting TypeError.
- **The animation loops** `update` and `update_visible_only` of both managers apply `WindTurbine.Update` to each turbine of a list. The per-turbine step is modelled; the loops are not.
- **Year-cache arrays.** `_build_cache_optimized_arrays` of `WindTurbineManager` builds NumPy copies of the cache that no modelled operation reads.
- **Shadowed definitions.** The first definitions of `update_frustum`, `_is_visible`, `get_visible_turbines_until_year` and `update_visible_only` in windturbine/manager.py are replaced by the later ones when the class is created. Only the later definitions are modelled.
- **`WindTurbineManager.visible_count`** is a debug counter written by `get_visible_turbines_until_year` and is not modelled.
- **Rendering-pass code in `render_optimized`.** The instanced drawing, the shadow threshold, the animation step and the frame timing are not modelled. Its culling stages and statistics are modelled.
- **Diagnostics:**
  - text formatting: `print_*`, `_print_summary`, `get_config_summary`, `get_all_levels_info`, `get_stats_summary`, `to_dict` and `__repr__`;
  - timing: `build_time`, `_query_time` and `frame_time_ms`;
  - the grid size and memory estimate of the hash grid statistics;
  - `LODTurbine.get_stats`;
  - `LODRenderBatch.render_all`, which only sums the batch counts after drawing;
  - benchmark and comparison functions.
- **Quadtree nodes** are values. `Insert` returns the updated subtree instead of appending to a node's list in place, so aliasing of nodes shared between references is not modelled.
- **Lod.LodManager.constructor** models the level list as a fresh sorted copy. The source sorts the caller's list, or the class-level default list, in place, and that mutation of the caller's list is not modelled.
- DataLoader.ProcessFeature: states only that a ring of three or more points yields a state, not the converse. A cache hit may hold triangles for a degenerate ring.
- DataLoader.ProcessFeature: requires every candidate ring to exist (`Indexable`). The source raises an IndexError for a Polygon with an empty `coordinates` list (`coords[0]`, germany3d/data/data_loader.py:124) and for a MultiPolygon part without a ring (`poly[0]`, germany3d/data/data_loader.py:126); those crashes are not modelled.
- DataLoader.ProcessFeature: requires the largest ring to have a point. The source raises an IndexError there (`simplified[0]` at germany3d/geometry/bundesland.py:99), and that crash is not modelled; empty rings that are not the largest are accepted.
- **Default arguments.** Parameters with a default in the source are plain parameters here: the `rotation_speed` of `BatchTurbineData.animate` (50.0), the `base_polygon_count` of `LODTurbine` (150), the `height`, `rotor_radius` and `power_kw` of `add_turbine`, the `camera_distance` of `update_frustum` (3.0) and similar. Callers inside the model pass the source's default where the source relies on it.
- BundeslandGeometry.Bundesland.constructor: requires a non-empty polygon. The source raises an IndexError for an empty one at germany3d/geometry/bundesland.py:99, and that crash is not modelled.
- **The earcut path.** The `mapbox_earcut` branch (`HAS_EARCUT`, `_triangulate_with_earcut`) is not modelled. It calls a foreign library; the model follows the ear-clipping fallback used when the library is missing.
- **Configuration.** Constants are restated where they are used. germany3d/config.py and the package `__init__` files are not part of this model.
