/** Installed wind power per state and year, and the state heights derived from it (data/wind_statistics.py). */
module WindStatistics {
  import opened Common
  import opened BundeslandGeometry
  import opened PointInPolygon
  import opened Turbine

  /** Height of a state without wind power, and the range heights are mapped into. */
  const MinHeight: real := 0.08
  const MaxHeight: real := 0.35
  const BaseHeight: real := 0.10

  /** Megawatts per year for one state. */
  type YearPower = map<int, real>

  /** The value stored for a year, 0 when absent (`dict.get(y, 0)`). */
  function Value(m: YearPower, y: int): real
  {
    if y in m then m[y] else 0.0
  }

  /** The state a turbine counts for: the first state in list order containing it, unless its name is empty. */
  function StateOf(bls: seq<Bundesland>, t: WindTurbine): Option<string>
    reads bls, t
  {
    var k := FirstFrom(bls, t.x, t.z, 0);
    if k.Some? && bls[k.value].name != "" then Some(bls[k.value].name) else None
  }

  /** Per-state, per-year sums after adding the turbines of `ts` in order, in megawatts. */
  function Accum(m: map<string, YearPower>, ts: seq<WindTurbine>, bls: seq<Bundesland>): map<string, YearPower>
    reads ts, bls
    decreases |ts|
  {
    if ts == [] then m
    else
      var t := ts[|ts| - 1];
      AddPower(Accum(m, ts[..|ts| - 1], bls), StateOf(bls, t), t.year, t.powerKw)
  }

  /** One turbine's megawatts added to the year of its state, when that state is known. */
  function AddPower(m: map<string, YearPower>, state: Option<string>, year: int, powerKw: real): map<string, YearPower>
  {
    if state.Some? && state.value in m then
      m[state.value := m[state.value][year := Value(m[state.value], year) + powerKw / 1000.0]]
    else m
  }

  /** Reference sum: the megawatts of the turbines of `ts` that count for state `s` in year `y`. */
  function Contribution(ts: seq<WindTurbine>, bls: seq<Bundesland>, s: string, y: int): real
    reads ts, bls
    decreases |ts|
  {
    if ts == [] then 0.0
    else
      var t := ts[|ts| - 1];
      Contribution(ts[..|ts| - 1], bls, s, y) + (if StateOf(bls, t) == Some(s) && t.year == y then t.powerKw / 1000.0 else 0.0)
  }

  /**
   * Accumulation keeps the set of states and adds to each known state and
   * year exactly the power of its located turbines of that year.
   */
  lemma {:induction false} AccumValue(m: map<string, YearPower>, ts: seq<WindTurbine>, bls: seq<Bundesland>, s: string, y: int)
    ensures Accum(m, ts, bls).Keys == m.Keys
    ensures s in m ==> Value(Accum(m, ts, bls)[s], y) == Value(m[s], y) + Contribution(ts, bls, s, y)
    decreases |ts|
  {
    if ts != [] {
      AccumValue(m, ts[..|ts| - 1], bls, s, y);
    }
  }

  /** The state lookup for one turbine in `calculate_from_turbines`: the found state's name unless it is empty. */
  method LocateTurbine(t: WindTurbine, bls: seq<Bundesland>) returns (s: Option<string>)
    ensures s == StateOf(bls, t)
  {
    var found := FindBundeslandForPoint(t.x, t.z, bls);
    s := if found.Some? && found.value.name != "" then Some(found.value.name) else None;
  }

  /** The turbine loop of `calculate_from_turbines`. */
  method AccumulateTurbines(m: map<string, YearPower>, ts: seq<WindTurbine>, bls: seq<Bundesland>)
    returns (m': map<string, YearPower>)
    ensures m' == Accum(m, ts, bls)
  {
    m' := m;
    for i := 0 to |ts|
      invariant m' == Accum(m, ts[..i], bls)
    {
      assert ts[..i + 1][..i] == ts[..i];
      var t := ts[i];
      ghost var next := Accum(m, ts[..i + 1], bls);
      assert next == AddPower(m', StateOf(bls, t), t.year, t.powerKw);
      var state := LocateTurbine(t, bls);
      m' := AddPower(m', state, t.year, t.powerKw);
      assert m' == next;
    }
    assert ts[..|ts|] == ts;
  }

  /** The state-initialisation loop of `calculate_from_turbines` on a snapshot: each listed state set to no data. */
  function Reset(m: map<string, YearPower>, bls: seq<Bundesland>): map<string, YearPower>
    decreases |bls|
  {
    if bls == [] then m
    else Reset(m, bls[..|bls| - 1])[bls[|bls| - 1].name := map[]]
  }

  /** Every listed state starts over with no data; other states keep theirs. */
  lemma {:induction false} ResetSpec(m: map<string, YearPower>, bls: seq<Bundesland>, s: string)
    ensures s in Reset(m, bls) <==> s in m || exists i :: 0 <= i < |bls| && bls[i].name == s
    ensures (exists i :: 0 <= i < |bls| && bls[i].name == s) ==> Reset(m, bls)[s] == map[]
    ensures s in m && (forall i :: 0 <= i < |bls| ==> bls[i].name != s) ==> Reset(m, bls)[s] == m[s]
    decreases |bls|
  {
    if bls != [] {
      var bls' := bls[..|bls| - 1];
      ResetSpec(m, bls', s);
      assert forall i :: 0 <= i < |bls'| ==> bls'[i] == bls[i];
      if s != bls[|bls| - 1].name && exists i :: 0 <= i < |bls| && bls[i].name == s {
        var i :| 0 <= i < |bls| && bls[i].name == s;
        assert bls'[i].name == s;
      }
    }
  }

  /** The state-initialisation loop of `calculate_from_turbines`. */
  method ResetStates(m: map<string, YearPower>, bls: seq<Bundesland>) returns (m': map<string, YearPower>)
    ensures m' == Reset(m, bls)
  {
    m' := m;
    for i := 0 to |bls|
      invariant m' == Reset(m, bls[..i])
    {
      assert bls[..i + 1][..i] == bls[..i];
      m' := m'[bls[i].name := map[]];
    }
    assert bls[..|bls|] == bls;
  }

  /** Sum of the values of the first `n` listed years. */
  function PrefixSum(m: YearPower, ks: seq<int>, n: nat): real
    requires n <= |ks|
  {
    if n == 0 then 0.0 else PrefixSum(m, ks, n - 1) + Value(m, ks[n - 1])
  }

  /** Reference sum: the values of the listed years up to and including `y`. */
  function SumUpTo(m: YearPower, ks: seq<int>, y: int): real
  {
    if ks == [] then 0.0
    else SumUpTo(m, ks[..|ks| - 1], y) + (if ks[|ks| - 1] <= y then Value(m, ks[|ks| - 1]) else 0.0)
  }

  /** In ascending key order, the running sum at the `n`-th key is the sum over all years up to it. */
  lemma {:induction false} PrefixSumIsSumUpTo(m: YearPower, ks: seq<int>, n: nat, y: int)
    requires StrictlyIncreasing(ks) && n <= |ks|
    requires n > 0 ==> ks[n - 1] <= y
    requires n < |ks| ==> ks[n] > y
    ensures PrefixSum(m, ks, n) == SumUpTo(m, ks, y)
    decreases |ks|
  {
    if |ks| > n {
      var ks' := ks[..|ks| - 1];
      assert StrictlyIncreasing(ks');
      assert forall i :: 0 <= i < n ==> ks'[i] == ks[i];
      PrefixSumSlice(m, ks, ks', n);
      PrefixSumIsSumUpTo(m, ks', n, y);
    } else if |ks| > 0 {
      var ks' := ks[..|ks| - 1];
      assert StrictlyIncreasing(ks');
      PrefixSumSlice(m, ks, ks', n - 1);
      PrefixSumIsSumUpTo(m, ks', n - 1, y);
    }
  }

  /** The running sum only looks at the first `n` keys. */
  lemma {:induction false} PrefixSumSlice(m: YearPower, ks: seq<int>, ks': seq<int>, n: nat)
    requires n <= |ks| && n <= |ks'| && forall i :: 0 <= i < n ==> ks[i] == ks'[i]
    ensures PrefixSum(m, ks, n) == PrefixSum(m, ks', n)
  {
    if n > 0 {
      PrefixSumSlice(m, ks, ks', n - 1);
    }
  }

  /** With non-negative values the running sum never decreases. */
  lemma {:induction false} PrefixSumMonotone(m: YearPower, ks: seq<int>, a: nat, b: nat)
    requires a <= b <= |ks|
    requires forall y :: y in m ==> m[y] >= 0.0
    ensures PrefixSum(m, ks, a) <= PrefixSum(m, ks, b)
    decreases b
  {
    if a < b {
      PrefixSumMonotone(m, ks, a, b - 1);
    }
  }

  /** The cumulative table over the first `n` listed years: each year maps to the running sum through it. */
  function Cumulated(m: YearPower, ks: seq<int>, n: nat): YearPower
    requires n <= |ks|
  {
    if n == 0 then map[] else Cumulated(m, ks, n - 1)[ks[n - 1] := PrefixSum(m, ks, n)]
  }

  /** For distinct keys, the `i`-th listed year is in the cumulative table with the running sum through it. */
  lemma {:induction false} CumulatedAt(m: YearPower, ks: seq<int>, n: nat, i: nat)
    requires StrictlyIncreasing(ks) && i < n <= |ks|
    ensures ks[i] in Cumulated(m, ks, n) && Cumulated(m, ks, n)[ks[i]] == PrefixSum(m, ks, i + 1)
  {
    if i < n - 1 {
      CumulatedAt(m, ks, n - 1, i);
    }
  }

  /** The cumulative table holds listed years only. */
  lemma {:induction false} CumulatedKeyListed(m: YearPower, ks: seq<int>, n: nat, y: int)
    requires n <= |ks| && y in Cumulated(m, ks, n)
    ensures y in ks
  {
    if y != ks[n - 1] {
      CumulatedKeyListed(m, ks, n - 1, y);
    }
  }

  /** `_calculate_cumulative` for one state: the years in ascending order with their running sums. */
  ghost function Cumulative(m: YearPower): YearPower
  {
    var ks := SortedKeys(m.Keys);
    Cumulated(m, ks, |ks|)
  }

  /** `_calculate_cumulative`: every state's table replaced by its cumulative table. */
  ghost function CumulativeAll(m: map<string, YearPower>): map<string, YearPower>
  {
    map s | s in m :: Cumulative(m[s])
  }

  /** The cumulative table has exactly the years of the original. */
  lemma CumulativeKeys(m: YearPower)
    ensures Cumulative(m).Keys == m.Keys
  {
    var ks := SortedKeys(m.Keys);
    SortedKeysSpec(m.Keys);
    forall y | y in m
      ensures y in Cumulative(m)
    {
      var i :| 0 <= i < |ks| && ks[i] == y;
      CumulatedAt(m, ks, |ks|, i);
    }
    forall y | y in Cumulative(m)
      ensures y in m
    {
      CumulatedKeyListed(m, ks, |ks|, y);
    }
  }

  /** A year of the cumulative table holds the sum of the original values of all years up to it. */
  lemma CumulativeAt(m: YearPower, y: int)
    requires y in m
    ensures y in Cumulative(m) && Cumulative(m)[y] == SumUpTo(m, SortedKeys(m.Keys), y)
  {
    var ks := SortedKeys(m.Keys);
    SortedKeysSpec(m.Keys);
    var i :| 0 <= i < |ks| && ks[i] == y;
    CumulatedAt(m, ks, |ks|, i);
    PrefixSumIsSumUpTo(m, ks, i + 1, y);
  }

  /** The scan of `get_power_for_year` over a cumulative table stops at the running sum of the leading years. */
  lemma PowerIsPrefixSum(m: YearPower, year: int)
    ensures PowerAt(Cumulative(m), SortedKeys(m.Keys), year) == PrefixSum(m, SortedKeys(m.Keys), Leading(SortedKeys(m.Keys), year))
  {
    var ks := SortedKeys(m.Keys);
    var c := Leading(ks, year);
    if c > 0 {
      SortedKeysIncreasing(m.Keys);
      CumulatedAt(m, ks, |ks|, c - 1);
    }
  }

  /** On a cumulative table, the power for a year is the sum of the original values of all years up to it. */
  lemma PowerIsSumUpTo(m: YearPower, year: int)
    ensures PowerAt(Cumulative(m), SortedKeys(m.Keys), year) == SumUpTo(m, SortedKeys(m.Keys), year)
  {
    var ks := SortedKeys(m.Keys);
    PowerIsPrefixSum(m, year);
    SortedKeysIncreasing(m.Keys);
    PrefixSumIsSumUpTo(m, ks, Leading(ks, year), year);
  }

  /** The per-state body of `_calculate_cumulative`. */
  method CumulateState(m: YearPower) returns (c: YearPower)
    ensures c == Cumulative(m)
  {
    var years := OrderKeys(m.Keys);
    assert forall i :: 0 <= i < |years| ==> years[i] in m by {
      SortedKeysSpec(m.Keys);
    }
    var cumulative := 0.0;
    c := map[];
    for i := 0 to |years|
      invariant cumulative == PrefixSum(m, years, i)
      invariant c == Cumulated(m, years, i)
    {
      cumulative := cumulative + m[years[i]];
      c := c[years[i] := cumulative];
    }
  }

  /** The state loop of `_calculate_cumulative`. */
  method CumulateAll(m: map<string, YearPower>) returns (r: map<string, YearPower>)
    ensures r == CumulativeAll(m)
  {
    r := m;
    var todo := m.Keys;
    while todo != {}
      invariant todo <= m.Keys && r.Keys == m.Keys
      invariant forall s :: s in m && s !in todo ==> r[s] == Cumulative(m[s])
      invariant forall s :: s in todo ==> r[s] == m[s]
      decreases |todo|
    {
      var s :| s in todo;
      var c := CumulateState(r[s]);
      r := r[s := c];
      todo := todo - {s};
    }
  }

  /** The maximum loop: the start value raised to every stored value. */
  method MaxValue(m: map<string, YearPower>, start: real) returns (mx: real)
    ensures mx >= start
    ensures forall s, y :: s in m && y in m[s] ==> m[s][y] <= mx
    ensures mx == start || exists s, y :: s in m && y in m[s] && m[s][y] == mx
  {
    mx := start;
    var states := m.Keys;
    while states != {}
      invariant states <= m.Keys && mx >= start
      invariant forall s, y :: s in m && s !in states && y in m[s] ==> m[s][y] <= mx
      invariant mx == start || exists s, y :: s in m && y in m[s] && m[s][y] == mx
      decreases |states|
    {
      var s :| s in states;
      var years := m[s].Keys;
      while years != {}
        invariant years <= m[s].Keys && mx >= start
        invariant forall s', y :: s' in m && s' !in states && y in m[s'] ==> m[s'][y] <= mx
        invariant forall y :: y in m[s] && y !in years ==> m[s][y] <= mx
        invariant mx == start || exists s, y :: s in m && y in m[s] && m[s][y] == mx
        decreases |years|
      {
        NonEmpty(years);
        var y :| y in years;
        if m[s][y] > mx {
          mx := m[s][y];
        }
        years := years - {y};
      }
      states := states - {s};
    }
  }

  /** Leading keys up to `year`: how far the `for y in sorted(...)` loop of `get_power_for_year` gets. */
  function Leading(ks: seq<int>, year: int): (c: nat)
    ensures c <= |ks|
    ensures forall i :: 0 <= i < c ==> ks[i] <= year
    ensures c < |ks| ==> ks[c] > year
  {
    if ks == [] || ks[0] > year then 0 else 1 + Leading(ks[1..], year)
  }

  /** A later year never stops the scan earlier. */
  lemma {:induction false} LeadingMonotone(ks: seq<int>, y1: int, y2: int)
    requires y1 <= y2
    ensures Leading(ks, y1) <= Leading(ks, y2)
  {
    if ks != [] && ks[0] <= y1 {
      LeadingMonotone(ks[1..], y1, y2);
    }
  }

  /**
   * `get_power_for_year` on one state's table: the value of the greatest
   * recorded year not after `year`, or 0 when every year is later.
   */
  function PowerAt(data: YearPower, ks: seq<int>, year: int): real
  {
    var c := Leading(ks, year);
    if c == 0 then 0.0 else Value(data, ks[c - 1])
  }

  /** `get_power_for_year`, with 0 for an unknown or empty state. */
  ghost function PowerFor(table: map<string, YearPower>, state: string, year: int): real
  {
    if state !in table || table[state] == map[] then 0.0
    else PowerAt(table[state], SortedKeys(table[state].Keys), year)
  }

  /** `get_power_for_year` gives 0 for an unknown state, for empty data and for a year before every recorded year. */
  lemma PowerForZero(table: map<string, YearPower>, state: string, year: int)
    requires state in table ==> forall y :: y in table[state] ==> y > year
    ensures PowerFor(table, state, year) == 0.0
  {
    if state in table && table[state] != map[] {
      var ks := SortedKeys(table[state].Keys);
      SortedKeysIncreasing(table[state].Keys);
      assert |ks| > 0 ==> ks[0] in ks;
    }
  }

  /** In ascending keys, the scan stops right after the greatest key not after `year`. */
  lemma LeadingAtLast(ks: seq<int>, year: int, j: nat)
    requires StrictlyIncreasing(ks) && j < |ks| && ks[j] <= year
    requires forall i :: 0 <= i < |ks| && ks[i] <= year ==> ks[i] <= ks[j]
    ensures Leading(ks, year) == j + 1
  {
    var c := Leading(ks, year);
    assert j < c;
    assert ks[c - 1] <= ks[j];
  }

  /** Otherwise it is the value stored at the greatest recorded year not after `year`. */
  lemma PowerForLatest(table: map<string, YearPower>, state: string, year: int, latest: int)
    requires state in table && latest in table[state] && latest <= year
    requires forall y :: y in table[state] && y <= year ==> y <= latest
    ensures PowerFor(table, state, year) == table[state][latest]
  {
    var data := table[state];
    var ks := SortedKeys(data.Keys);
    assert StrictlyIncreasing(ks) && latest in ks by {
      SortedKeysSpec(data.Keys);
    }
    var j :| 0 <= j < |ks| && ks[j] == latest;
    forall i | 0 <= i < |ks| && ks[i] <= year
      ensures ks[i] <= latest
    {
      assert ks[i] in data by {
        SortedKeysSpec(data.Keys);
        assert ks[i] in ks;
      }
    }
    LeadingAtLast(ks, year, j);
    assert PowerAt(data, ks, year) == data[latest];
  }

  /** Over a cumulative table of non-negative values, the power for a year never decreases with the year. */
  lemma PowerMonotone(m: YearPower, y1: int, y2: int)
    requires forall y :: y in m ==> m[y] >= 0.0
    requires y1 <= y2
    ensures PowerAt(Cumulative(m), SortedKeys(m.Keys), y1) <= PowerAt(Cumulative(m), SortedKeys(m.Keys), y2)
  {
    var ks := SortedKeys(m.Keys);
    PowerIsPrefixSum(m, y1);
    PowerIsPrefixSum(m, y2);
    LeadingMonotone(ks, y1, y2);
    PrefixSumMonotone(m, ks, Leading(ks, y1), Leading(ks, y2));
  }

  /** `get_height_for_year` given the power: linear from MIN to MAX over [0, max_power], or the base height. */
  function HeightFor(power: real, maxPower: real): (h: real)
    ensures maxPower <= 0.0 ==> h == BaseHeight
    ensures maxPower > 0.0 && 0.0 <= power <= maxPower ==> MinHeight <= h <= MaxHeight
    ensures maxPower > 0.0 && power == 0.0 ==> h == MinHeight
    ensures maxPower > 0.0 && power == maxPower ==> h == MaxHeight
  {
    if maxPower <= 0.0 then BaseHeight
    else
      var normalized := power / maxPower;
      assert 0.0 <= power <= maxPower ==> 0.0 <= normalized <= 1.0;
      MinHeight + normalized * (MaxHeight - MinHeight)
  }

  /** A larger power never gives a lower state. */
  lemma HeightMonotone(p1: real, p2: real, maxPower: real)
    requires p1 <= p2
    ensures HeightFor(p1, maxPower) <= HeightFor(p2, maxPower)
  {
    if maxPower > 0.0 {
      assert p1 / maxPower <= p2 / maxPower;
    }
  }

  /** The steps of `calculate_from_turbines` on the previous tables and maximum. */
  method Calculate(prev: map<string, YearPower>, prevMax: real, turbines: seq<WindTurbine>, bls: seq<Bundesland>)
    returns (names: map<string, Bundesland>, table: map<string, YearPower>, mx: real)
    ensures names == NameMap(bls)
    ensures table == CumulativeAll(Accum(Reset(prev, bls), turbines, bls))
    ensures mx >= prevMax
    ensures forall s, y :: s in table && y in table[s] ==> table[s][y] <= mx
  {
    names := BuildNameMap(bls);
    var reset := ResetStates(prev, bls);
    var raw := AccumulateTurbines(reset, turbines, bls);
    table := CumulateAll(raw);
    mx := MaxValue(table, prevMax);
  }

  /**
   * After `calculate_from_turbines`, the power of a listed state for a year
   * is the sum over its recorded years up to that year, and each recorded
   * year holds exactly the megawatts of the turbines located in the state
   * with that year.
   */
  lemma PowerForListedState(prev: map<string, YearPower>, ts: seq<WindTurbine>, bls: seq<Bundesland>, i: nat, year: int)
    requires i < |bls|
    ensures bls[i].name in Accum(Reset(prev, bls), ts, bls)
    ensures var raw := Accum(Reset(prev, bls), ts, bls)[bls[i].name];
      PowerFor(CumulativeAll(Accum(Reset(prev, bls), ts, bls)), bls[i].name, year) == SumUpTo(raw, SortedKeys(raw.Keys), year)
    ensures forall y :: Value(Accum(Reset(prev, bls), ts, bls)[bls[i].name], y) == Contribution(ts, bls, bls[i].name, y)
  {
    var s := bls[i].name;
    var reset := Reset(prev, bls);
    ResetSpec(prev, bls, s);
    AccumValue(reset, ts, bls, s, year);
    forall y
      ensures Value(Accum(reset, ts, bls)[s], y) == Contribution(ts, bls, s, y)
    {
      AccumValue(reset, ts, bls, s, y);
    }
    var m := Accum(reset, ts, bls)[s];
    CumulativeKeys(m);
    PowerIsSumUpTo(m, year);
  }

  /** `WindPowerStatistics`: the per-state tables, the running maximum and the name map. */
  class WindPowerStatistics {
    var powerByStateYear: map<string, YearPower>
    var maxPower: real
    var bundeslandMap: map<string, Bundesland>

    constructor ()
      ensures powerByStateYear == map[] && maxPower == 0.0 && bundeslandMap == map[]
    {
      powerByStateYear := map[];
      maxPower := 0.0;
      bundeslandMap := map[];
    }

    /**
     * `calculate_from_turbines`: the listed states start over, each located
     * turbine adds its megawatts to its state and year, every table becomes
     * cumulative, and the maximum only grows.
     */
    method CalculateFromTurbines(turbines: seq<WindTurbine>, bls: seq<Bundesland>)
      modifies this`powerByStateYear, this`maxPower, this`bundeslandMap
      ensures bundeslandMap == NameMap(bls)
      ensures powerByStateYear == old(CumulativeAll(Accum(Reset(powerByStateYear, bls), turbines, bls)))
      ensures maxPower >= old(maxPower)
      ensures forall s, y :: s in powerByStateYear && y in powerByStateYear[s] ==> powerByStateYear[s][y] <= maxPower
    {
      var names, table, mx := Calculate(powerByStateYear, maxPower, turbines, bls);
      bundeslandMap := names;
      powerByStateYear := table;
      maxPower := mx;
    }

    /** `get_power_for_year`: the scan over the ascending years of the state. */
    method GetPowerForYear(state: string, year: int) returns (power: real)
      ensures power == PowerFor(powerByStateYear, state, year)
    {
      if state !in powerByStateYear {
        return 0.0;
      }
      var data := powerByStateYear[state];
      if data == map[] {
        return 0.0;
      }
      var years := OrderKeys(data.Keys);
      assert forall k :: 0 <= k < |years| ==> years[k] in data by {
        SortedKeysSpec(data.Keys);
      }
      power := 0.0;
      var i := 0;
      while i < |years|
        invariant 0 <= i <= |years|
        invariant i <= Leading(years, year)
        invariant power == (if i == 0 then 0.0 else Value(data, years[i - 1]))
      {
        if years[i] <= year {
          power := data[years[i]];
        } else {
          break;
        }
        i := i + 1;
      }
    }

    /** `get_height_for_year`. */
    method GetHeightForYear(state: string, year: int) returns (h: real)
      ensures h == HeightFor(PowerFor(powerByStateYear, state, year), maxPower)
    {
      var power := GetPowerForYear(state, year);
      h := HeightFor(power, maxPower);
    }

    /** The target height of a state in a year. */
    ghost function Target(name: string, year: int): real
      reads this
    {
      HeightFor(PowerFor(powerByStateYear, name, year), maxPower)
    }

    /**
     * `update_bundesland_heights`: a state moves to its target height only
     * when it is more than 0.001 away from it; a state listed twice is
     * already at or near its target the second time.
     */
    method UpdateBundeslandHeights(bls: seq<Bundesland>, year: int)
      modifies set b | b in bls :: b`extrusion, set b | b in bls :: b`verticesTop
      ensures forall b :: b in bls ==> b.extrusion == Adjusted(old(b.extrusion), Target(b.name, year))
      ensures forall b :: b in bls && old(b.Valid()) ==> b.Valid()
    {
      for i := 0 to |bls|
        invariant forall b :: b in bls && b !in bls[..i] ==>
          b.extrusion == old(b.extrusion) && b.verticesTop == old(b.verticesTop)
        invariant forall b :: b in bls[..i] ==> b.extrusion == Adjusted(old(b.extrusion), Target(b.name, year))
        invariant forall b :: b in bls && old(b.Valid()) ==> b.Valid()
      {
        var bl := bls[i];
        assert bl in bls;
        var h := GetHeightForYear(bl.name, year);
        if Far(bl.extrusion, h) {
          bl.UpdateHeight(h);
        }
        assert bls[..i + 1] == bls[..i] + [bl];
      }
      assert bls[..|bls|] == bls;
    }
  }

  /** `abs(a - b) > 0.001`. */
  predicate Far(a: real, b: real)
  {
    a - b > 0.001 || b - a > 0.001
  }

  /** The height after one update step: the target when more than 0.001 away from it, else unchanged. */
  function Adjusted(current: real, target: real): real
  {
    if Far(current, target) then target else current
  }
}
