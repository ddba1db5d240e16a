/**
 * Occlusion culling for the states (geometry/occlusion_culling.py): the
 * render pass that counts rendered and occluded states, and the painter's
 * sort that orders states back to front with a cache keyed by camera angle.
 */
module Occlusion {
  import opened Common
  import opened BundeslandGeometry
  import opened PointInPolygon

  // ---------------------------------------------------------------- culling statistics

  /** What `get_stats` reports; the ratio is in percent (its text formatting is not modelled). */
  datatype CullingStats = CullingStats(total: int, rendered: int, occluded: int, ratio: real)

  /** Share of occluded states in percent, 0 when there are no states. */
  function CullingRatio(total: int, occluded: int): (ratio: real)
    ensures total <= 0 ==> ratio == 0.0
    ensures total > 0 ==> ratio * total as real == occluded as real * 100.0
    ensures 0 <= occluded <= total ==> 0.0 <= ratio <= 100.0
  {
    if total > 0 then occluded as real / total as real * 100.0 else 0.0
  }

  class OcclusionCullingSystem {
    const depthBufferEnabled: bool
    const earlyZTest: bool
    var total: int
    var rendered: int
    var occluded: int

    /** Rendered and occluded states add up to all states. */
    predicate Balanced()
      reads this
    {
      rendered + occluded == total
    }

    constructor()
      ensures depthBufferEnabled && earlyZTest
      ensures total == 0 && rendered == 0 && occluded == 0
      ensures Balanced()
    {
      depthBufferEnabled := true;
      earlyZTest := true;
      total := 0;
      rendered := 0;
      occluded := 0;
    }

    /**
     * `render_with_occlusion_culling`: the render callback is invoked on each
     * normal state and then on each city state, in list order; `calls` is the
     * sequence of those invocations.
     */
    method RenderWithOcclusionCulling(bls: seq<Bundesland>, sortedNormal: seq<Bundesland>, sortedCities: seq<Bundesland>)
      returns (calls: seq<Bundesland>)
      modifies this
      ensures calls == sortedNormal + sortedCities
      ensures total == |bls|
      ensures rendered == |sortedNormal| + |sortedCities|
      ensures occluded == total - rendered
      ensures Balanced()
      ensures multiset(sortedNormal + sortedCities) == multiset(bls) ==> occluded == 0
    {
      total := |bls|;
      rendered := 0;
      occluded := 0;
      calls := [];
      for i := 0 to |sortedNormal|
        invariant calls == sortedNormal[..i]
        invariant rendered == i && total == |bls|
      {
        calls := calls + [sortedNormal[i]];
        rendered := rendered + 1;
      }
      for i := 0 to |sortedCities|
        invariant calls == sortedNormal + sortedCities[..i]
        invariant rendered == |sortedNormal| + i && total == |bls|
      {
        calls := calls + [sortedCities[i]];
        rendered := rendered + 1;
      }
      assert sortedCities[..|sortedCities|] == sortedCities;
      occluded := total - rendered;
      if multiset(sortedNormal + sortedCities) == multiset(bls) {
        assert |sortedNormal + sortedCities| == |multiset(sortedNormal + sortedCities)|;
      }
    }

    /** `get_stats`: the three counters and the occluded share in percent. */
    function GetStats(): (s: CullingStats)
      reads this
      ensures s.total == total && s.rendered == rendered && s.occluded == occluded
      ensures total <= 0 ==> s.ratio == 0.0
      ensures total > 0 ==> s.ratio * total as real == occluded as real * 100.0
      ensures Balanced() && 0 <= rendered ==> s.ratio <= 100.0
    {
      CullingStats(total, rendered, occluded, CullingRatio(total, occluded))
    }
  }

  // ---------------------------------------------------------------- painter's sort

  /** `round(camera_angle / 5) * 5`: the cache bucket of an angle. */
  function Bucket(angle: real): int
  {
    RoundHalfEven(angle / 5.0) * 5
  }

  /** A bucket is a multiple of 5 within 2.5 degrees of its angle. */
  lemma BucketNear(angle: real)
    ensures Bucket(angle) % 5 == 0
    ensures Bucket(angle) as real - 2.5 <= angle <= Bucket(angle) as real + 2.5
  {
    var n := RoundHalfEven(angle / 5.0);
    assert n as real - 0.5 <= angle / 5.0 <= n as real + 0.5;
  }

  /** An angle that is a multiple of 5 is its own bucket. */
  lemma BucketOfMultiple(k: int)
    ensures Bucket(5.0 * k as real) == 5 * k
  {
    assert 5.0 * k as real / 5.0 == k as real;
    RoundHalfEvenUnique(k as real, k);
  }

  /** Sum of the z values is bounded by the count times the extreme z values. */
  lemma {:induction false} SumZBounds(vs: seq<Vertex3>, lo: real, hi: real)
    requires forall i :: 0 <= i < |vs| ==> lo <= vs[i].2 <= hi
    ensures |vs| as real * lo <= SumZ(vs) <= |vs| as real * hi
  {
    if vs != [] {
      SumZBounds(vs[..|vs| - 1], lo, hi);
    }
  }

  /** A mean lies between the bounds of the values it averages. */
  lemma MeanBetween(sum: real, n: real, lo: real, hi: real)
    requires n > 0.0 && n * lo <= sum <= n * hi
    ensures lo <= sum / n <= hi
  {
    assert (sum - n * lo) / n == sum / n - lo;
    assert (sum - n * lo) / n >= 0.0;
    assert (n * hi - sum) / n == hi - sum / n;
    assert (n * hi - sum) / n >= 0.0;
  }

  /** The mean z of a non-empty vertex list lies within any bounds of its z values. */
  lemma MeanZWithin(vs: seq<Vertex3>, lo: real, hi: real)
    requires vs != []
    requires forall i :: 0 <= i < |vs| ==> lo <= vs[i].2 <= hi
    ensures lo <= SumZ(vs) / |vs| as real <= hi
  {
    SumZBounds(vs, lo, hi);
    MeanBetween(SumZ(vs), |vs| as real, lo, hi);
  }

  /** `get_z_position`: mean z of the top vertices, 0 for a state without vertices. */
  function ZPosition(bl: Bundesland): (z: real)
    reads bl
    ensures bl.verticesTop == [] ==> z == 0.0
    ensures bl.verticesTop != [] ==> MinZ(bl.verticesTop) <= z <= MaxZ(bl.verticesTop)
  {
    var vs := bl.verticesTop;
    if vs == [] then 0.0
    else
      var lo, hi := MinZ(vs), MaxZ(vs);
      assert forall i :: 0 <= i < |vs| ==> lo <= vs[i].2 <= hi;
      MeanZWithin(vs, lo, hi);
      SumZ(vs) / |vs| as real
  }

  /** The sort key of a decorated entry. */
  function PairKey(p: (Bundesland, real)): real
  {
    p.1
  }

  /** Each state paired with its key, which `sorted(key=...)` evaluates once per element. */
  function Keyed(bls: seq<Bundesland>): (ps: seq<(Bundesland, real)>)
    reads bls
    ensures |ps| == |bls|
    ensures forall i :: 0 <= i < |bls| ==> ps[i] == (bls[i], ZPosition(bls[i]))
  {
    if bls == [] then [] else [(bls[0], ZPosition(bls[0]))] + Keyed(bls[1..])
  }

  /** Every entry carries the key of its state. */
  ghost predicate KeysMatch(ps: seq<(Bundesland, real)>)
    reads set i | 0 <= i < |ps| :: ps[i].0
  {
    forall i :: 0 <= i < |ps| ==> ps[i].1 == ZPosition(ps[i].0)
  }

  /** `sorted(bundeslaender, key=get_z_position)`: a stable sort ascending by mean z. */
  function PainterOrder(bls: seq<Bundesland>): seq<Bundesland>
    reads bls
  {
    Firsts(SortBy(Keyed(bls), PairKey))
  }

  /** States whose mean z is `z`, in their order in `s`. */
  function AtDepth(s: seq<Bundesland>, z: real): seq<Bundesland>
    reads s
  {
    if s == [] then [] else (if ZPosition(s[0]) == z then [s[0]] else []) + AtDepth(s[1..], z)
  }

  /** The decorated entries of a list are exactly its states with their keys. */
  lemma KeyedMatch(bls: seq<Bundesland>)
    ensures KeysMatch(Keyed(bls)) && Firsts(Keyed(bls)) == bls
  {
  }

  /** A permutation of entries whose keys match keeps its keys matching. */
  lemma SortedKeysMatch(bls: seq<Bundesland>)
    ensures KeysMatch(SortBy(Keyed(bls), PairKey))
  {
    var ks := Keyed(bls);
    var ss := SortBy(ks, PairKey);
    forall i | 0 <= i < |ss| ensures ss[i].1 == ZPosition(ss[i].0) {
      assert ss[i] in multiset(ks);
      var j :| 0 <= j < |ks| && ks[j] == ss[i];
    }
  }

  /** Filtering the states of matching entries by depth is filtering the entries by key. */
  lemma {:induction false} AtDepthFirsts(ps: seq<(Bundesland, real)>, z: real)
    requires KeysMatch(ps)
    ensures AtDepth(Firsts(ps), z) == Firsts(WithKey(ps, PairKey, z))
  {
    if ps != [] {
      assert KeysMatch(ps[1..]) by {
        forall i | 0 <= i < |ps[1..]| ensures ps[1..][i].1 == ZPosition(ps[1..][i].0) {
          assert ps[1..][i] == ps[i + 1];
        }
      }
      AtDepthFirsts(ps[1..], z);
      assert Firsts(ps)[1..] == Firsts(ps[1..]);
      var head := if PairKey(ps[0]) == z then [ps[0]] else [];
      assert Firsts(head + WithKey(ps[1..], PairKey, z)) == Firsts(head) + Firsts(WithKey(ps[1..], PairKey, z));
    }
  }

  /** The painter's order is a permutation of the input. */
  lemma PainterOrderPermutes(bls: seq<Bundesland>)
    ensures |PainterOrder(bls)| == |bls|
    ensures multiset(PainterOrder(bls)) == multiset(bls)
  {
    KeyedMatch(bls);
    FirstsSortBy(Keyed(bls), PairKey);
  }

  /** The painter's order runs from the smallest mean z (farthest back) to the largest. */
  lemma PainterOrderSorted(bls: seq<Bundesland>)
    ensures forall i, j :: 0 <= i < j < |PainterOrder(bls)| ==> ZPosition(PainterOrder(bls)[i]) <= ZPosition(PainterOrder(bls)[j])
  {
    var ss := SortBy(Keyed(bls), PairKey);
    SortedKeysMatch(bls);
    forall i, j | 0 <= i < j < |ss| ensures ZPosition(ss[i].0) <= ZPosition(ss[j].0) {
      assert PairKey(ss[i]) <= PairKey(ss[j]);
    }
  }

  /** States with equal mean z keep their input order: the sort is stable. */
  lemma PainterOrderStable(bls: seq<Bundesland>, z: real)
    ensures AtDepth(PainterOrder(bls), z) == AtDepth(bls, z)
  {
    var ks := Keyed(bls);
    KeyedMatch(bls);
    SortedKeysMatch(bls);
    AtDepthFirsts(SortBy(ks, PairKey), z);
    AtDepthFirsts(ks, z);
    SortByStable(ks, PairKey, z);
  }

  /** Decorating the states of matching entries gives back the entries. */
  lemma KeyedFirsts(ps: seq<(Bundesland, real)>)
    requires KeysMatch(ps)
    ensures Keyed(Firsts(ps)) == ps
  {
  }

  /** Sorting an already painter-ordered list changes nothing. */
  lemma PainterOrderIdempotent(bls: seq<Bundesland>)
    ensures PainterOrder(PainterOrder(bls)) == PainterOrder(bls)
  {
    var ss := SortBy(Keyed(bls), PairKey);
    SortedKeysMatch(bls);
    KeyedFirsts(ss);
    SortBySorted(ss, PairKey);
  }

  class BundeslandPainterSort {
    /** `sort_cache`: the sorted list computed for each angle bucket. */
    var sortCache: map<int, seq<Bundesland>>

    constructor()
      ensures sortCache == map[]
    {
      sortCache := map[];
    }

    /**
     * `sort_for_painter_algorithm`: the list cached for the angle's bucket if
     * there is one, whatever `bls` is now; otherwise the painter's order of
     * `bls`, which is stored under the bucket.
     */
    method SortForPainterAlgorithm(bls: seq<Bundesland>, cameraAngle: real) returns (sorted: seq<Bundesland>)
      modifies this`sortCache
      ensures Bucket(cameraAngle) in old(sortCache) ==>
                sorted == old(sortCache)[Bucket(cameraAngle)] && sortCache == old(sortCache)
      ensures Bucket(cameraAngle) !in old(sortCache) ==>
                sorted == PainterOrder(bls) && sortCache == old(sortCache)[Bucket(cameraAngle) := sorted]
    {
      var bucket := Bucket(cameraAngle);
      if bucket in sortCache {
        return sortCache[bucket];
      }
      sorted := PainterOrder(bls);
      sortCache := sortCache[bucket := sorted];
    }

    /** `clear_cache`: forget every bucket, so the next call sorts again. */
    method ClearCache()
      modifies this`sortCache
      ensures sortCache == map[]
    {
      sortCache := map[];
    }
  }
}
