/**
 * The year cache both turbine managers keep (windturbine/manager.py and
 * windturbine/optimized_manager.py): turbines bucketed by commissioning
 * year, read back in ascending year order up to a maximum year.
 *
 * The functions read the turbines' mutable `year` and `blName` fields, so
 * they describe the cache for the heap in which they are evaluated.
 */
module YearCache {
  import opened Common
  import opened Turbine

  /** The turbines of year `y`, in list order. */
  function OfYear(ts: seq<WindTurbine>, y: int): (r: seq<WindTurbine>)
    reads set t | t in ts
    ensures |r| <= |ts|
    ensures forall i :: 0 <= i < |r| ==> r[i].year == y && r[i] in ts
  {
    if ts == [] then []
    else
      var last := ts[|ts| - 1];
      OfYear(ts[..|ts| - 1], y) + (if last.year == y then [last] else [])
  }

  /** `bl_name and bl_name != 'Unknown'`: a non-empty state name other than "Unknown". */
  predicate Named(t: WindTurbine)
    reads t
  {
    t.blName.Some? && t.blName.value != "" && t.blName.value != "Unknown"
  }

  /** The turbines that carry a state name, in list order. */
  function NamedOf(ts: seq<WindTurbine>): (r: seq<WindTurbine>)
    reads set t | t in ts
    ensures |r| <= |ts|
    ensures forall i :: 0 <= i < |r| ==> Named(r[i]) && r[i] in ts
  {
    if ts == [] then []
    else
      var last := ts[|ts| - 1];
      NamedOf(ts[..|ts| - 1]) + (if Named(last) then [last] else [])
  }

  lemma {:induction false} OfYearConcat(a: seq<WindTurbine>, b: seq<WindTurbine>, y: int)
    ensures OfYear(a + b, y) == OfYear(a, y) + OfYear(b, y)
  {
    if b == [] {
      assert a + b == a;
    } else {
      assert (a + b)[..|a + b| - 1] == a + b[..|b| - 1];
      OfYearConcat(a, b[..|b| - 1], y);
    }
  }

  lemma {:induction false} NamedOfConcat(a: seq<WindTurbine>, b: seq<WindTurbine>)
    ensures NamedOf(a + b) == NamedOf(a) + NamedOf(b)
  {
    if b == [] {
      assert a + b == a;
    } else {
      assert (a + b)[..|a + b| - 1] == a + b[..|b| - 1];
      NamedOfConcat(a, b[..|b| - 1]);
    }
  }

  /** The year filter and the name filter commute. */
  lemma {:induction false} OfYearNamed(ts: seq<WindTurbine>, y: int)
    ensures OfYear(NamedOf(ts), y) == NamedOf(OfYear(ts, y))
  {
    if ts != [] {
      var init, last := ts[..|ts| - 1], ts[|ts| - 1];
      OfYearNamed(init, y);
      OfYearConcat(NamedOf(init), if Named(last) then [last] else [], y);
      NamedOfConcat(OfYear(init, y), if last.year == y then [last] else []);
    }
  }

  /** A list whose turbines all have year `k` passes the filter for `k` whole and nothing else. */
  lemma {:induction false} OfYearUniform(ts: seq<WindTurbine>, k: int, y: int)
    requires forall i :: 0 <= i < |ts| ==> ts[i].year == k
    ensures OfYear(ts, y) == if k == y then ts else []
  {
    if ts != [] {
      OfYearUniform(ts[..|ts| - 1], k, y);
      assert ts[..|ts| - 1] + [ts[|ts| - 1]] == ts;
    }
  }

  /** The loop of `build_year_cache`: append each turbine to the list of its year, creating it on first use. */
  function Buckets(ts: seq<WindTurbine>): map<int, seq<WindTurbine>>
    reads set t | t in ts
  {
    if ts == [] then map[]
    else
      var m := Buckets(ts[..|ts| - 1]);
      var last := ts[|ts| - 1];
      m[last.year := Get(m, last.year) + [last]]
  }

  /** The bucket of year `y` is exactly the turbines of that year in list order, and exists iff there is one. */
  lemma {:induction false} BucketsSpec(ts: seq<WindTurbine>, y: int)
    ensures Get(Buckets(ts), y) == OfYear(ts, y)
    ensures y in Buckets(ts) <==> OfYear(ts, y) != []
  {
    if ts != [] {
      BucketsSpec(ts[..|ts| - 1], y);
    }
  }

  /** Every bucket holds only turbines of its own year. */
  ghost predicate Uniform(cache: map<int, seq<WindTurbine>>)
    reads CacheObjects(cache)
  {
    forall k, i :: k in cache && 0 <= i < |cache[k]| ==> cache[k][i].year == k
  }

  lemma BucketsUniform(ts: seq<WindTurbine>)
    ensures Uniform(Buckets(ts))
  {
    forall k, i | k in Buckets(ts) && 0 <= i < |Buckets(ts)[k]|
      ensures Buckets(ts)[k][i].year == k
    {
      BucketsSpec(ts, k);
    }
  }

  /** Every turbine stored in the cache. */
  ghost function CacheObjects(cache: map<int, seq<WindTurbine>>): set<WindTurbine>
  {
    set y, i | y in cache && 0 <= i < |cache[y]| :: cache[y][i]
  }

  predicate AllIn(keys: seq<int>, cache: map<int, seq<WindTurbine>>)
  {
    forall i :: 0 <= i < |keys| ==> keys[i] in cache
  }

  /** The ascending key list of a cache names only its own keys. */
  lemma KeysAllIn(cache: map<int, seq<WindTurbine>>)
    ensures AllIn(SortedKeys(cache.Keys), cache)
  {
    SortedKeysSpec(cache.Keys);
    var keys := SortedKeys(cache.Keys);
    forall i | 0 <= i < |keys|
      ensures keys[i] in cache
    {
      assert keys[i] in keys;
    }
  }

  /** The buckets of the keys up to `maxYear`, concatenated in key order. */
  function UntilYear(cache: map<int, seq<WindTurbine>>, keys: seq<int>, maxYear: int): (r: seq<WindTurbine>)
    requires AllIn(keys, cache)
    ensures forall i :: 0 <= i < |r| ==> r[i] in CacheObjects(cache)
  {
    if keys == [] then []
    else
      var y := keys[|keys| - 1];
      UntilYear(cache, keys[..|keys| - 1], maxYear) + (if y <= maxYear then cache[y] else [])
  }

  lemma {:induction false} UntilYearConcat(cache: map<int, seq<WindTurbine>>, a: seq<int>, b: seq<int>, maxYear: int)
    requires AllIn(a, cache) && AllIn(b, cache)
    ensures AllIn(a + b, cache)
    ensures UntilYear(cache, a + b, maxYear) == UntilYear(cache, a, maxYear) + UntilYear(cache, b, maxYear)
  {
    if b == [] {
      assert a + b == a;
    } else {
      assert (a + b)[..|a + b| - 1] == a + b[..|b| - 1];
      UntilYearConcat(cache, a, b[..|b| - 1], maxYear);
    }
  }

  /** One more key: its named turbines, when its year is at most `maxYear`, follow the earlier ones. */
  lemma NamedUntilYearStep(cache: map<int, seq<WindTurbine>>, keys: seq<int>, k: nat, maxYear: int)
    requires AllIn(keys, cache) && k < |keys|
    ensures AllIn(keys[..k], cache) && AllIn(keys[..k + 1], cache)
    ensures NamedOf(UntilYear(cache, keys[..k + 1], maxYear)) ==
            NamedOf(UntilYear(cache, keys[..k], maxYear)) + (if keys[k] <= maxYear then NamedOf(cache[keys[k]]) else [])
  {
    var block := if keys[k] <= maxYear then cache[keys[k]] else [];
    assert keys[..k + 1][..k] == keys[..k];
    assert UntilYear(cache, keys[..k + 1], maxYear) == UntilYear(cache, keys[..k], maxYear) + block;
    NamedOfConcat(UntilYear(cache, keys[..k], maxYear), block);
  }

  /**
   * Over distinct keys of a uniform cache, the turbines of year `y` in the
   * result are the bucket of `y` when that key is listed and at most
   * `maxYear`, and nothing otherwise.
   */
  lemma {:induction false} UntilYearOfYear(cache: map<int, seq<WindTurbine>>, keys: seq<int>, maxYear: int, y: int)
    requires AllIn(keys, cache) && Distinct(keys) && Uniform(cache)
    ensures OfYear(UntilYear(cache, keys, maxYear), y) == if y in keys && y <= maxYear then cache[y] else []
  {
    if keys != [] {
      var init, k := keys[..|keys| - 1], keys[|keys| - 1];
      DistinctSnoc(keys);
      assert AllIn(init, cache);
      UntilYearOfYear(cache, init, maxYear, y);
      var block := if k <= maxYear then cache[k] else [];
      assert UntilYear(cache, keys, maxYear) == UntilYear(cache, init, maxYear) + block;
      OfYearConcat(UntilYear(cache, init, maxYear), block, y);
      BlockOfYear(cache, k, maxYear, y);
    }
  }

  lemma BlockOfYear(cache: map<int, seq<WindTurbine>>, k: int, maxYear: int, y: int)
    requires k in cache && Uniform(cache)
    ensures OfYear(if k <= maxYear then cache[k] else [], y) == if k == y && k <= maxYear then cache[k] else []
  {
    if k <= maxYear {
      OfYearUniform(cache[k], k, y);
    }
  }

  /**
   * `get_turbines_until_year` of the optimised manager, read against the
   * turbine list: the turbines of each year up to `maxYear` appear in list
   * order, and later years contribute nothing.
   */
  lemma UntilYearGroups(ts: seq<WindTurbine>, maxYear: int, y: int)
    ensures AllIn(SortedKeys(Buckets(ts).Keys), Buckets(ts))
    ensures OfYear(UntilYear(Buckets(ts), SortedKeys(Buckets(ts).Keys), maxYear), y) ==
            if y <= maxYear then OfYear(ts, y) else []
  {
    var cache := Buckets(ts);
    var keys := SortedKeys(cache.Keys);
    SortedKeysSpec(cache.Keys);
    assert Distinct(keys);
    BucketsUniform(ts);
    UntilYearOfYear(cache, keys, maxYear, y);
    BucketsSpec(ts, y);
  }

  /** The same for `WindTurbineManager`, whose result keeps only the turbines with a state name. */
  lemma NamedUntilYearGroups(ts: seq<WindTurbine>, maxYear: int, y: int)
    ensures AllIn(SortedKeys(Buckets(ts).Keys), Buckets(ts))
    ensures OfYear(NamedOf(UntilYear(Buckets(ts), SortedKeys(Buckets(ts).Keys), maxYear)), y) ==
            if y <= maxYear then NamedOf(OfYear(ts, y)) else []
  {
    UntilYearGroups(ts, maxYear, y);
    OfYearNamed(UntilYear(Buckets(ts), SortedKeys(Buckets(ts).Keys), maxYear), y);
  }

  /** Over ascending keys of a uniform cache the result is in non-decreasing year order, and every year lies in `keys` and is at most `maxYear`. */
  lemma {:induction false} UntilYearSorted(cache: map<int, seq<WindTurbine>>, keys: seq<int>, maxYear: int)
    requires AllIn(keys, cache) && StrictlyIncreasing(keys) && Uniform(cache)
    ensures forall i :: 0 <= i < |UntilYear(cache, keys, maxYear)| ==>
              UntilYear(cache, keys, maxYear)[i].year in keys && UntilYear(cache, keys, maxYear)[i].year <= maxYear
    ensures forall i, j :: 0 <= i < j < |UntilYear(cache, keys, maxYear)| ==>
              UntilYear(cache, keys, maxYear)[i].year <= UntilYear(cache, keys, maxYear)[j].year
  {
    if keys != [] {
      var init, k := keys[..|keys| - 1], keys[|keys| - 1];
      assert AllIn(init, cache) && StrictlyIncreasing(init);
      UntilYearSorted(cache, init, maxYear);
      var front := UntilYear(cache, init, maxYear);
      var block := if k <= maxYear then cache[k] else [];
      var r := front + block;
      assert r == UntilYear(cache, keys, maxYear);
      assert forall i :: 0 <= i < |block| ==> block[i].year == k && k <= maxYear;
      assert forall i :: 0 <= i < |front| ==> front[i].year in init && front[i].year < k by {
        forall i | 0 <= i < |front|
          ensures front[i].year in init && front[i].year < k
        {
          assert front[i].year in init;
          var p :| 0 <= p < |init| && init[p] == front[i].year;
          assert keys[p] < keys[|keys| - 1];
        }
      }
      forall i | 0 <= i < |r|
        ensures r[i].year in keys && r[i].year <= maxYear
      {
        if i >= |front| {
          assert r[i] == block[i - |front|];
        } else {
          assert r[i] == front[i];
          assert front[i].year in init;
        }
      }
      AppendBlockSorted(front, block, k);
    }
  }

  /** Turbines of one year `k` appended behind turbines in year order, all of earlier years, stay in year order. */
  lemma AppendBlockSorted(front: seq<WindTurbine>, block: seq<WindTurbine>, k: int)
    requires forall i, j :: 0 <= i < j < |front| ==> front[i].year <= front[j].year
    requires forall i :: 0 <= i < |front| ==> front[i].year < k
    requires forall i :: 0 <= i < |block| ==> block[i].year == k
    ensures forall i, j :: 0 <= i < j < |front + block| ==> (front + block)[i].year <= (front + block)[j].year
  {
    var r := front + block;
    forall i, j | 0 <= i < j < |r|
      ensures r[i].year <= r[j].year
    {
      if j >= |front| {
        assert r[j] == block[j - |front|];
        if i < |front| {
          assert r[i] == front[i];
        } else {
          assert r[i] == block[i - |front|];
        }
      } else {
        assert r[i] == front[i] && r[j] == front[j];
      }
    }
  }

  /** Raising the maximum year never shortens the result with state names. */
  lemma {:induction false} UntilYearMonotone(cache: map<int, seq<WindTurbine>>, keys: seq<int>, y1: int, y2: int)
    requires AllIn(keys, cache) && y1 <= y2
    ensures |NamedOf(UntilYear(cache, keys, y1))| <= |NamedOf(UntilYear(cache, keys, y2))|
  {
    if keys != [] {
      var init, k := keys[..|keys| - 1], keys[|keys| - 1];
      UntilYearMonotone(cache, init, y1, y2);
      NamedOfConcat(UntilYear(cache, init, y1), if k <= y1 then cache[k] else []);
      NamedOfConcat(UntilYear(cache, init, y2), if k <= y2 then cache[k] else []);
    }
  }

  /** The number of named turbines `count_until_year` contributes for the bucket of `y`. */
  function Contribution(cache: map<int, seq<WindTurbine>>, y: int, maxYear: int): nat
    requires y in cache
    reads CacheObjects(cache)
  {
    if y <= maxYear then |NamedOf(cache[y])| else 0
  }

  /** Named turbines up to `maxYear` over the keys in `s`, counted in ascending key order. */
  ghost function CountOver(cache: map<int, seq<WindTurbine>>, s: set<int>, maxYear: int): nat
    requires s <= cache.Keys
    reads CacheObjects(cache)
  {
    SortedKeysSpec(s);
    |NamedOf(UntilYear(cache, SortedKeys(s), maxYear))|
  }

  /** The count does not depend on the order of the keys: any key can be taken out first. */
  lemma {:induction false} CountOverRemove(cache: map<int, seq<WindTurbine>>, s: set<int>, y: int, maxYear: int)
    requires s <= cache.Keys && y in s
    ensures CountOver(cache, s, maxYear) == Contribution(cache, y, maxYear) + CountOver(cache, s - {y}, maxYear)
    decreases |s|
  {
    var m := MinKey(s);
    CountOverUnfold(cache, s, m, maxYear);
    if m != y {
      CountOverRemove(cache, s - {m}, y, maxYear);
      CountOverUnfold(cache, s - {y}, m, maxYear);
      assert s - {m} - {y} == s - {y} - {m};
    }
  }

  /** Counting over `s` starts with its least key `m`. */
  lemma CountOverUnfold(cache: map<int, seq<WindTurbine>>, s: set<int>, m: int, maxYear: int)
    requires s <= cache.Keys && m in s && forall k :: k in s ==> m <= k
    ensures CountOver(cache, s, maxYear) == Contribution(cache, m, maxYear) + CountOver(cache, s - {m}, maxYear)
  {
    SortedKeysUnfold(s, m);
    SortedKeysSpec(s - {m});
    var rest := SortedKeys(s - {m});
    assert AllIn(rest, cache) by {
      forall i | 0 <= i < |rest|
        ensures rest[i] in cache
      {
        assert rest[i] in rest;
      }
    }
    UntilYearConcat(cache, [m], rest, maxYear);
    assert [m][..0] == [];
    NamedOfConcat(UntilYear(cache, [m], maxYear), UntilYear(cache, rest, maxYear));
    NamedOfConcat([], if m <= maxYear then cache[m] else []);
  }
}
