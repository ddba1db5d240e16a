/**
 * The preprocessing script that turns the market-register export into the
 * turbine CSV: the date-to-year parser, the rounded GPS-to-scene map, the
 * postcode lookup with its manual additions, and the per-row filter that
 * counts what it skips. Reading and writing the CSV files is not modelled:
 * rows arrive as field dictionaries, float parsing and the spiral offset
 * (cos/sin) are parameters.
 */
module Preprocess {
  import opened Common
  import opened PyStrings
  import BG = BundeslandGeometry

  // ---------------------------------------------------------------------------
  // extract_year
  // ---------------------------------------------------------------------------

  /** `int(s)`, with the `ValueError` caught as 0. */
  function IntOrZero(s: string): int
  {
    match ParseInt(s)
    case Some(v) => v
    case None => 0
  }

  /** `int(parts[2][:4])` after splitting on `sep`, or 0 when there are fewer than three parts. */
  function ThirdPartYear(t: string, sep: char): int
  {
    var parts := SplitOn(t, sep);
    if |parts| >= 3 then IntOrZero(Take(parts[2], 4)) else 0
  }

  /**
   * `extract_year`: the year of an MM/DD/YYYY, DD.MM.YYYY, YYYY-MM-DD or bare
   * YYYY date, 0 for anything else. The first separator found decides the
   * format; no other format is tried after it. An empty string stands for
   * both `''` and `None`. At most four characters are ever converted.
   */
  function ExtractYear(dateStr: string): (year: int)
    ensures -10000 < year < 10000
  {
    if dateStr == [] then 0
    else
      var t := Strip(dateStr);
      if '/' in t then ThirdPartYearBounded(t, '/')
      else if '.' in t then ThirdPartYearBounded(t, '.')
      else if '-' in t then IntOrZeroBounded(Take(t, 4))
      else if |t| == 4 && AllDigits(t) then IntOrZeroBounded(t)
      else 0
  }

  function IntOrZeroBounded(s: string): (v: int)
    requires |s| <= 4
    ensures v == IntOrZero(s) && -10000 < v < 10000
  {
    ParseIntBound(s);
    Pow10Monotone(|s|, 4);
    IntOrZero(s)
  }

  function ThirdPartYearBounded(t: string, sep: char): (v: int)
    ensures v == ThirdPartYear(t, sep) && -10000 < v < 10000
  {
    var parts := SplitOn(t, sep);
    if |parts| >= 3 then IntOrZeroBounded(Take(parts[2], 4)) else 0
  }

  /** Blank input (empty, `None` or whitespace only) gives 0. */
  lemma ExtractYearBlank(s: string)
    requires forall i :: 0 <= i < |s| ==> IsSpace(s[i])
    ensures ExtractYear(s) == 0
  {
    StripAllSpace(s);
  }

  /** A decimal digit is neither whitespace nor one of the date separators. */
  lemma DigitIsPlain(c: char)
    requires IsDigit(c)
    ensures !IsSpace(c) && c != '/' && c != '.' && c != '-'
  {
  }

  /** The digits of a four-digit year hold no separator and parse back to the year. */
  lemma YearDigits(y: nat)
    requires 1000 <= y <= 9999
    ensures |NatToString(y)| == 4 && IntOrZero(NatToString(y)) == y
    ensures '/' !in NatToString(y) && '.' !in NatToString(y) && '-' !in NatToString(y)
    ensures !IsSpace(NatToString(y)[0]) && !IsSpace(NatToString(y)[3])
  {
    var digits := NatToString(y);
    FourDigits(y);
    ParseIntNatural(digits, y);
    forall i | 0 <= i < 4
      ensures !IsSpace(digits[i]) && digits[i] != '/' && digits[i] != '.' && digits[i] != '-'
    {
      DigitIsPlain(digits[i]);
    }
  }

  /** A string that strips to itself and holds `sep` (a dot only when no slash occurs) is read by its third part. */
  lemma ExtractYearByParts(s: string, sep: char)
    requires Strip(s) == s && sep in s
    requires sep == '/' || (sep == '.' && '/' !in s)
    ensures ExtractYear(s) == ThirdPartYear(s, sep)
  {
  }

  /** The three parts of `a<sep>b<sep>c` when no part holds the separator. */
  lemma ThreeParts(a: string, b: string, c: string, sep: char)
    requires sep !in a && sep !in b && sep !in c
    ensures SplitOn(a + [sep] + b + [sep] + c, sep) == [a, b, c]
  {
    assert a + [sep] + b + [sep] + c == a + [sep] + (b + [sep] + c);
    SplitOnFirst(a, sep, b + [sep] + c);
    SplitOnFirst(b, sep, c);
    SplitNoSeparator(c, sep);
  }

  /** `a<sep>b<sep>c` is read from the first four characters of `c`. */
  lemma ExtractYearThirdPart(s: string, a: string, b: string, c: string, sep: char)
    requires s == a + [sep] + b + [sep] + c
    requires sep == '/' || (sep == '.' && '/' !in a && '/' !in b && '/' !in c)
    requires sep !in a && sep !in b && sep !in c
    requires a == [] || !IsSpace(a[0])
    requires c != [] && !IsSpace(c[|c| - 1])
    ensures ExtractYear(s) == IntOrZero(Take(c, 4))
  {
    StripTrimmed(s);
    assert s[|a|] == sep;
    assert sep == '.' ==> '/' !in s;
    ExtractYearByParts(s, sep);
    ThreeParts(a, b, c, sep);
  }

  /**
   * `a<sep>b<sep>YYYY<rest>` gives the year, for `/` and, when no slash occurs,
   * for `.`: the MM/DD/YYYY and DD.MM.YYYY formats, a time may follow.
   */
  lemma ExtractYearSeparated(a: string, b: string, y: nat, rest: string, sep: char)
    requires sep == '/' || (sep == '.' && '/' !in a && '/' !in b && '/' !in rest)
    requires sep !in a && sep !in b && sep !in rest
    requires 1000 <= y <= 9999
    requires a == [] || !IsSpace(a[0])
    requires rest == [] || !IsSpace(rest[|rest| - 1])
    ensures ExtractYear(a + [sep] + b + [sep] + NatToString(y) + rest) == y
  {
    var c := NatToString(y) + rest;
    YearTail(y, rest, sep);
    ExtractYearThirdPart(a + [sep] + b + [sep] + NatToString(y) + rest, a, b, c, sep);
  }

  /** A four-digit year followed by `rest` is a third part that reads as the year. */
  lemma YearTail(y: nat, rest: string, sep: char)
    requires sep == '/' || sep == '.'
    requires sep !in rest && (sep == '.' ==> '/' !in rest)
    requires 1000 <= y <= 9999
    requires rest == [] || !IsSpace(rest[|rest| - 1])
    ensures var c := NatToString(y) + rest;
            sep !in c && (sep == '.' ==> '/' !in c) &&
            c != [] && !IsSpace(c[|c| - 1]) && IntOrZero(Take(c, 4)) == y
  {
    var digits := NatToString(y);
    YearDigits(y);
    var c := digits + rest;
    assert Take(c, 4) == digits;
  }

  /** `YYYY-<rest>` gives the year when no slash or dot follows: the ISO format. */
  lemma ExtractYearIso(y: nat, rest: string)
    requires 1000 <= y <= 9999
    requires '/' !in rest && '.' !in rest
    requires rest == [] || !IsSpace(rest[|rest| - 1])
    ensures ExtractYear(NatToString(y) + "-" + rest) == y
  {
    var digits := NatToString(y);
    YearDigits(y);
    var s := digits + "-" + rest;
    StripTrimmed(s);
    assert s[4] == '-';
    assert '/' !in s && '.' !in s;
    assert Take(s, 4) == digits;
  }

  /** A bare four-digit year gives itself. */
  lemma ExtractYearBare(y: nat)
    requires 1000 <= y <= 9999
    ensures ExtractYear(NatToString(y)) == y
  {
    YearDigits(y);
    StripTrimmed(NatToString(y));
  }

  /**
   * A string with exactly one slash (or, with no slash, exactly one dot) gives
   * 0 whatever it holds: an ISO timestamp with fractional seconds such as
   * `2020-01-01T10:00:00.000` is not read as 2020.
   */
  lemma ExtractYearTooFewParts(a: string, b: string, sep: char)
    requires sep == '/' || (sep == '.' && '/' !in a && '/' !in b)
    requires sep !in a && sep !in b
    requires a == [] || !IsSpace(a[0])
    requires b == [] || !IsSpace(b[|b| - 1])
    ensures ExtractYear(a + [sep] + b) == 0
  {
    var s := a + [sep] + b;
    StripTrimmed(s);
    assert s[|a|] == sep;
    assert sep == '.' ==> '/' !in s;
    ExtractYearByParts(s, sep);
    TwoParts(a, b, sep);
  }

  /** The two parts of `a<sep>b` when neither holds the separator. */
  lemma TwoParts(a: string, b: string, sep: char)
    requires sep !in a && sep !in b
    ensures SplitOn(a + [sep] + b, sep) == [a, b]
  {
    SplitOnFirst(a, sep, b);
    SplitNoSeparator(b, sep);
  }

  // ---------------------------------------------------------------------------
  // gps_to_3d
  // ---------------------------------------------------------------------------

  /** `round(v, 6)`: to the nearest millionth, ties to even. */
  function Round6(v: real): (r: real)
    ensures -0.0000005 <= r - v <= 0.0000005
  {
    RoundHalfEven(v * 1000000.0) as real / 1000000.0
  }

  /** Rounding an already rounded value changes nothing. */
  lemma Round6Idempotent(v: real)
    ensures Round6(Round6(v)) == Round6(v)
  {
    var n := RoundHalfEven(v * 1000000.0);
    assert Round6(v) * 1000000.0 == n as real;
    RoundHalfEvenUnique(n as real, n);
  }

  /** `gps_to_3d(lat, lon)`: the scene position of the state map, rounded to six decimals. */
  function GpsTo3d(lat: real, lon: real): (p: (real, real))
  {
    var q := BG.GpsToXZ(lon, lat);
    (Round6(q.0), Round6(q.1))
  }

  /** The script's positions agree with the state geometry's to within half a millionth, and are already rounded. */
  lemma GpsTo3dMatchesStates(lat: real, lon: real)
    ensures -0.0000005 <= GpsTo3d(lat, lon).0 - BG.GpsToXZ(lon, lat).0 <= 0.0000005
    ensures -0.0000005 <= GpsTo3d(lat, lon).1 - BG.GpsToXZ(lon, lat).1 <= 0.0000005
    ensures Round6(GpsTo3d(lat, lon).0) == GpsTo3d(lat, lon).0
    ensures Round6(GpsTo3d(lat, lon).1) == GpsTo3d(lat, lon).1
  {
    Round6Idempotent(BG.GpsToXZ(lon, lat).0);
    Round6Idempotent(BG.GpsToXZ(lon, lat).1);
  }

  // ---------------------------------------------------------------------------
  // load_plz_lookup
  // ---------------------------------------------------------------------------

  /** A latitude/longitude pair in degrees. */
  type Coords = (real, real)

  /** A row of the postcode file: its fields by column name, and the value of its first column. */
  datatype PlzRow = PlzRow(fields: map<string, string>, firstValue: string)

  /**
   * The row's postcode: the value under the first present column of `''`,
   * `plz`, `PLZ`, or the first column's value when that is empty; stripped
   * and zero-padded to five characters.
   */
  function PlzOf(row: PlzRow): (plz: string)
    ensures |plz| >= 5
  {
    var named :=
      if "" in row.fields then row.fields[""]
      else if "plz" in row.fields then row.fields["plz"]
      else if "PLZ" in row.fields then row.fields["PLZ"]
      else "";
    var raw := if named != "" then named else row.firstValue;
    ZFillSpec(Strip(raw), 5);
    ZFill(Strip(raw), 5)
  }

  /** `float(row.get(key, 0))`; `None` is the `ValueError`. */
  function CoordOf(row: PlzRow, key: string, parseFloat: string -> Option<real>): Option<real>
  {
    if key in row.fields then parseFloat(row.fields[key]) else Some(0.0)
  }

  /**
   * What one row contributes: its postcode and coordinates when both parse
   * and both are non-zero. The postcode test of the source always passes,
   * since a padded postcode is never empty.
   */
  function PlzEntry(row: PlzRow, parseFloat: string -> Option<real>): (e: Option<(string, Coords)>)
    ensures e.Some? ==> |e.value.0| >= 5 && e.value.1.0 != 0.0 && e.value.1.1 != 0.0
  {
    var lat := CoordOf(row, "lat", parseFloat);
    var lon := CoordOf(row, "lng", parseFloat);
    if lat.None? || lon.None? then None
    else if PlzOf(row) != "" && lat.value != 0.0 && lon.value != 0.0 then Some((PlzOf(row), (lat.value, lon.value)))
    else None
  }

  /** The entry of each row, in file order. */
  function EntriesOf(rows: seq<PlzRow>, parseFloat: string -> Option<real>): (es: seq<Option<(string, Coords)>>)
    ensures |es| == |rows| && forall i :: 0 <= i < |rows| ==> es[i] == PlzEntry(rows[i], parseFloat)
  {
    seq(|rows|, i requires 0 <= i < |rows| => PlzEntry(rows[i], parseFloat))
  }

  /** The dictionary a loop of assignments builds: later entries overwrite earlier ones. */
  function Assign(es: seq<Option<(string, Coords)>>): map<string, Coords>
  {
    if es == [] then map[]
    else
      var m := Assign(es[..|es| - 1]);
      match es[|es| - 1]
      case Some(e) => m[e.0 := e.1]
      case None => m
  }

  /** The dictionary the row loop of `load_plz_lookup` builds. */
  function LookupOf(rows: seq<PlzRow>, parseFloat: string -> Option<real>): map<string, Coords>
  {
    Assign(EntriesOf(rows, parseFloat))
  }

  /** Entry `i` assigns `k := c`, and no later entry assigns `k`. */
  predicate LastEntryFor(es: seq<Option<(string, Coords)>>, k: string, c: Coords, i: int)
  {
    0 <= i < |es| && es[i] == Some((k, c)) &&
    forall j :: i < j < |es| ==> es[j].None? || es[j].value.0 != k
  }

  /** Every key of the dictionary holds the value of the last entry that assigns it. */
  lemma {:induction false} AssignLastWins(es: seq<Option<(string, Coords)>>)
    ensures forall k :: k in Assign(es) ==> exists i :: LastEntryFor(es, k, Assign(es)[k], i)
  {
    if es != [] {
      var init := es[..|es| - 1];
      AssignLastWins(init);
      var m := Assign(init);
      var r := Assign(es);
      forall k | k in r
        ensures exists i :: LastEntryFor(es, k, r[k], i)
      {
        if es[|es| - 1].Some? && es[|es| - 1].value.0 == k {
          assert LastEntryFor(es, k, r[k], |es| - 1);
        } else {
          var i :| LastEntryFor(init, k, m[k], i);
          assert LastEntryFor(es, k, r[k], i);
        }
      }
    }
  }

  /** Every key an entry assigns is in the dictionary. */
  lemma {:induction false} AssignCovers(es: seq<Option<(string, Coords)>>)
    ensures forall i :: 0 <= i < |es| && es[i].Some? ==> es[i].value.0 in Assign(es)
  {
    if es != [] {
      var init := es[..|es| - 1];
      AssignCovers(init);
      assert forall i :: 0 <= i < |init| ==> init[i] == es[i];
    }
  }

  /**
   * The postcode lookup: every usable row's postcode is a key, every key is
   * padded to at least five characters with non-zero coordinates, and it holds
   * the coordinates of the last row naming it.
   */
  lemma LookupOfSpec(rows: seq<PlzRow>, parseFloat: string -> Option<real>)
    ensures forall i :: 0 <= i < |rows| && PlzEntry(rows[i], parseFloat).Some? ==>
              PlzEntry(rows[i], parseFloat).value.0 in LookupOf(rows, parseFloat)
    ensures forall k :: k in LookupOf(rows, parseFloat) ==>
              |k| >= 5 && LookupOf(rows, parseFloat)[k].0 != 0.0 && LookupOf(rows, parseFloat)[k].1 != 0.0 &&
              exists i :: LastEntryFor(EntriesOf(rows, parseFloat), k, LookupOf(rows, parseFloat)[k], i)
  {
    var es := EntriesOf(rows, parseFloat);
    AssignCovers(es);
    AssignLastWins(es);
    forall k | k in Assign(es)
      ensures |k| >= 5 && Assign(es)[k].0 != 0.0 && Assign(es)[k].1 != 0.0
    {
      var i :| LastEntryFor(es, k, Assign(es)[k], i);
      assert es[i] == PlzEntry(rows[i], parseFloat);
    }
  }

  /** The postcodes the source adds by hand, with coordinates of a neighbouring postcode. */
  const ManualPlz: seq<(string, Coords)> := [
    ("39628", (52.7891, 11.7223)),
    ("15713", (52.2949, 13.6267)),
    ("15712", (52.2949, 13.6267)),
    ("06772", (51.0184, 12.1519)),
    ("06868", (51.6867, 12.3245)),
    ("99095", (50.9754, 11.0262))]

  /** Adds each entry whose postcode is still missing, in order. */
  function AddMissing(m: map<string, Coords>, entries: seq<(string, Coords)>): map<string, Coords>
    decreases |entries|
  {
    if entries == [] then m
    else AddMissing(if entries[0].0 in m then m else m[entries[0].0 := entries[0].1], entries[1..])
  }

  /**
   * Adding the manual entries never overwrites a loaded postcode; the keys
   * become the loaded ones plus the manual ones, and a missing postcode gets
   * the coordinates of its first manual entry.
   */
  lemma {:induction false} AddMissingSpec(m: map<string, Coords>, entries: seq<(string, Coords)>)
    ensures forall k :: k in m ==> k in AddMissing(m, entries) && AddMissing(m, entries)[k] == m[k]
    ensures forall k :: k in AddMissing(m, entries) <==> k in m || exists i :: 0 <= i < |entries| && entries[i].0 == k
    ensures |entries| > 0 && entries[0].0 !in m ==> AddMissing(m, entries)[entries[0].0] == entries[0].1
    decreases |entries|
  {
    if entries != [] {
      var m' := if entries[0].0 in m then m else m[entries[0].0 := entries[0].1];
      AddMissingSpec(m', entries[1..]);
      forall k | k in AddMissing(m, entries)
        ensures k in m || exists i :: 0 <= i < |entries| && entries[i].0 == k
      {
        if k !in m' {
          var i :| 0 <= i < |entries[1..]| && entries[1..][i].0 == k;
          assert entries[i + 1].0 == k;
        }
      }
      forall k | k in m || exists i :: 0 <= i < |entries| && entries[i].0 == k
        ensures k in AddMissing(m, entries)
      {
        if k !in m' {
          var i :| 0 <= i < |entries| && entries[i].0 == k;
          assert i > 0 && entries[1..][i - 1].0 == k;
        }
      }
    }
  }

  /** The manual entries have distinct five-digit postcodes. */
  lemma ManualPlzWellFormed()
    ensures forall i :: 0 <= i < |ManualPlz| ==> |ManualPlz[i].0| == 5
    ensures forall i, j :: 0 <= i < j < |ManualPlz| ==> ManualPlz[i].0 != ManualPlz[j].0
  {
  }

  /** The loading loop, then the manual additions. */
  method LoadPlzLookup(rows: seq<PlzRow>, parseFloat: string -> Option<real>) returns (lookup: map<string, Coords>)
    ensures lookup == AddMissing(LookupOf(rows, parseFloat), ManualPlz)
  {
    ghost var es := EntriesOf(rows, parseFloat);
    lookup := map[];
    for i := 0 to |rows|
      invariant lookup == Assign(es[..i])
    {
      assert es[..i + 1][..i] == es[..i];
      var entry := PlzEntry(rows[i], parseFloat);
      if entry.Some? {
        lookup := lookup[entry.value.0 := entry.value.1];
      }
    }
    assert es[..|rows|] == es;
    ghost var loaded := lookup;
    for j := 0 to |ManualPlz|
      invariant AddMissing(lookup, ManualPlz[j..]) == AddMissing(loaded, ManualPlz)
    {
      var (plz, coords) := ManualPlz[j];
      if plz !in lookup {
        lookup := lookup[plz := coords];
      }
    }
  }

  /** After loading, every postcode key is padded to at least five characters and all loaded keys survive unchanged. */
  lemma LoadedKeys(rows: seq<PlzRow>, parseFloat: string -> Option<real>)
    ensures forall k :: k in AddMissing(LookupOf(rows, parseFloat), ManualPlz) ==> |k| >= 5
    ensures forall k :: k in LookupOf(rows, parseFloat) ==>
              k in AddMissing(LookupOf(rows, parseFloat), ManualPlz) &&
              AddMissing(LookupOf(rows, parseFloat), ManualPlz)[k] == LookupOf(rows, parseFloat)[k]
  {
    var m := LookupOf(rows, parseFloat);
    LookupOfSpec(rows, parseFloat);
    AddMissingSpec(m, ManualPlz);
    ManualPlzWellFormed();
  }

  // ---------------------------------------------------------------------------
  // The row loop of preprocess_windmills
  // ---------------------------------------------------------------------------

  /** A row of the register export, its fields by column name. */
  datatype RegisterRow = RegisterRow(fields: map<string, string>)

  /** `row.get(key, default)`. */
  function FieldOr(row: RegisterRow, key: string, default: string): string
  {
    if key in row.fields then row.fields[key] else default
  }

  /** The counters of the `stats` dictionary. */
  datatype Stats = Stats(total: nat, processed: nat, skippedNoPlz: nat, skippedPlzNotFound: nat, skippedInvalid: nat)

  /** One output record. */
  datatype WindmillRecord = WindmillRecord(plz: string, x: real, z: real, powerKw: real, year: int)

  /** The loop's state: counters, occurrences per postcode, records so far. */
  datatype RunState = RunState(stats: Stats, counter: map<string, nat>, results: seq<WindmillRecord>)

  /** The postcode the row is filed under, or `None` when it is empty, `0`, the header text or `00000`. */
  function RowPlz(row: RegisterRow): (plz: Option<string>)
    ensures plz.Some? ==> |plz.value| >= 5 && plz.value != "00000"
  {
    var raw := Strip(FieldOr(row, "Postleitzahl", ""));
    if raw == "" || raw == "0" || raw == "Postleitzahl" then None
    else
      var padded := ZFill(raw, 5);
      ZFillSpec(raw, 5);
      if padded == "00000" then None else Some(padded)
  }

  /**
   * The postcode of a row that reaches the lookup: it has a postcode and the
   * lookup knows it. These are the rows that bump the occurrence counter.
   */
  function FoundPlz(row: RegisterRow, lookup: map<string, Coords>): Option<string>
  {
    match RowPlz(row)
    case Some(plz) => if plz in lookup then Some(plz) else None
    case None => None
  }

  /** `float(power_str) if power_str else 3000.0`, the column defaulting to `'3000'`. */
  function PowerOf(row: RegisterRow, parseFloat: string -> Option<real>): Option<real>
  {
    var powerStr := FieldOr(row, "Bruttoleistung der Einheit", "3000");
    if powerStr != "" then parseFloat(powerStr) else Some(3000.0)
  }

  /**
   * The coordinates of the `n`-th earlier occurrence of a postcode: the
   * lookup's own for the first, an offset on the spiral after that.
   */
  function ScatteredAt(n: nat, c: Coords, scatter: (nat, Coords) -> Coords): Coords
  {
    if n > 0 then scatter(n, c) else c
  }

  /** How the loop body ends for one row. */
  datatype Outcome =
    | NoPlz
    | PlzNotFound
    | InvalidPower(plz: string)
    | Usable(plz: string, power: real, year: int)

  /**
   * The checks of the loop body, in the source's order, on the row's postcode,
   * power and year: no postcode, a postcode the lookup lacks, an unreadable
   * power value, or a usable row.
   */
  function ClassifyParts(plz: Option<string>, lookup: map<string, Coords>, power: Option<real>, year: int): (o: Outcome)
    ensures (o.InvalidPower? || o.Usable?) <==> plz.Some? && plz.value in lookup
    ensures (o.InvalidPower? || o.Usable?) ==> o.plz == plz.value
  {
    match plz
    case None => NoPlz
    case Some(p) =>
      if p !in lookup then PlzNotFound
      else
        match power
        case None => InvalidPower(p)
        case Some(kw) => Usable(p, kw, year)
  }

  /** How the loop body ends for a row. */
  function Classify(row: RegisterRow, lookup: map<string, Coords>, parseFloat: string -> Option<real>): (o: Outcome)
    ensures (o.InvalidPower? || o.Usable?) <==> FoundPlz(row, lookup).Some?
    ensures (o.InvalidPower? || o.Usable?) ==> o.plz == FoundPlz(row, lookup).value
  {
    ClassifyParts(RowPlz(row), lookup, PowerOf(row, parseFloat), ExtractYear(FieldOr(row, "Inbetriebnahmedatum der Einheit", "")))
  }

  /** The outcome of each row, in file order. */
  function OutcomesOf(rows: seq<RegisterRow>, lookup: map<string, Coords>, parseFloat: string -> Option<real>): (os: seq<Outcome>)
    ensures |os| == |rows| && forall i :: 0 <= i < |rows| ==> os[i] == Classify(rows[i], lookup, parseFloat)
  {
    seq(|rows|, i requires 0 <= i < |rows| => Classify(rows[i], lookup, parseFloat))
  }

  /** One pass of the loop body: count the row, bump the postcode's counter once it is found, store a usable row. */
  function Step(st: RunState, o: Outcome, lookup: map<string, Coords>, scatter: (nat, Coords) -> Coords): RunState
    requires (o.InvalidPower? || o.Usable?) ==> o.plz in lookup
  {
    var stats := st.stats.(total := st.stats.total + 1);
    match o
    case NoPlz => RunState(stats.(skippedNoPlz := stats.skippedNoPlz + 1), st.counter, st.results)
    case PlzNotFound => RunState(stats.(skippedPlzNotFound := stats.skippedPlzNotFound + 1), st.counter, st.results)
    case InvalidPower(plz) => RunState(stats.(skippedInvalid := stats.skippedInvalid + 1), Bump(st.counter, plz), st.results)
    case Usable(plz, power, year) =>
      var counter := Bump(st.counter, plz);
      var pos := ScatteredAt(CountOf(counter, plz) - 1, lookup[plz], scatter);
      var xz := GpsTo3d(pos.0, pos.1);
      RunState(stats.(processed := stats.processed + 1), counter,
               st.results + [WindmillRecord(plz, xz.0, xz.1, power, year)])
  }

  /** Outcomes whose postcode is known to the lookup. */
  predicate KnownPlz(os: seq<Outcome>, lookup: map<string, Coords>)
  {
    forall i :: 0 <= i < |os| && (os[i].InvalidPower? || os[i].Usable?) ==> os[i].plz in lookup
  }

  const Start := RunState(Stats(0, 0, 0, 0, 0), map[], [])

  /** The state after the loop body has run on each outcome in turn. */
  function RunOutcomes(os: seq<Outcome>, lookup: map<string, Coords>, scatter: (nat, Coords) -> Coords): RunState
    requires KnownPlz(os, lookup)
  {
    if os == [] then Start
    else Step(RunOutcomes(os[..|os| - 1], lookup, scatter), os[|os| - 1], lookup, scatter)
  }

  lemma OutcomesKnown(rows: seq<RegisterRow>, lookup: map<string, Coords>, parseFloat: string -> Option<real>)
    ensures KnownPlz(OutcomesOf(rows, lookup, parseFloat), lookup)
  {
  }

  /** Running one more outcome is one more step of the loop body. */
  lemma RunSnoc(os: seq<Outcome>, i: nat, lookup: map<string, Coords>, scatter: (nat, Coords) -> Coords)
    requires KnownPlz(os, lookup) && i < |os|
    ensures KnownPlz(os[..i], lookup) && KnownPlz(os[..i + 1], lookup)
    ensures RunOutcomes(os[..i + 1], lookup, scatter) == Step(RunOutcomes(os[..i], lookup, scatter), os[i], lookup, scatter)
  {
    assert os[..i + 1][..i] == os[..i];
  }

  /** The postcodes of the outcomes that reached the lookup, in order. */
  function FoundKeys(os: seq<Outcome>): seq<string>
  {
    if os == [] then []
    else
      var init := FoundKeys(os[..|os| - 1]);
      var o := os[|os| - 1];
      if o.InvalidPower? || o.Usable? then init + [o.plz] else init
  }

  /** Every row is counted once, as processed or under exactly one skip reason, and each processed row leaves one record. */
  lemma {:induction false} RunCounts(os: seq<Outcome>, lookup: map<string, Coords>, scatter: (nat, Coords) -> Coords)
    requires KnownPlz(os, lookup)
    ensures var st := RunOutcomes(os, lookup, scatter);
            st.stats.total == |os| &&
            st.stats.total == st.stats.processed + st.stats.skippedNoPlz + st.stats.skippedPlzNotFound + st.stats.skippedInvalid &&
            |st.results| == st.stats.processed
  {
    if os != [] {
      RunCounts(os[..|os| - 1], lookup, scatter);
    }
  }

  /**
   * The occurrence counter tallies the rows that reached the lookup,
   * including those then rejected for an unreadable power value.
   */
  lemma {:induction false} RunCounter(os: seq<Outcome>, lookup: map<string, Coords>, scatter: (nat, Coords) -> Coords)
    requires KnownPlz(os, lookup)
    ensures var st := RunOutcomes(os, lookup, scatter);
            st.counter == Tally(FoundKeys(os)) &&
            |FoundKeys(os)| == st.stats.processed + st.stats.skippedInvalid
  {
    if os != [] {
      RunCounter(os[..|os| - 1], lookup, scatter);
    }
  }

  /** Every record carries a known postcode that is padded and not `00000`, and a year below five digits. */
  lemma {:induction false} RecordsValid(rows: seq<RegisterRow>, lookup: map<string, Coords>,
                                        parseFloat: string -> Option<real>, scatter: (nat, Coords) -> Coords)
    ensures var os := OutcomesOf(rows, lookup, parseFloat);
            KnownPlz(os, lookup) &&
            forall r :: r in RunOutcomes(os, lookup, scatter).results ==>
              r.plz in lookup && |r.plz| >= 5 && r.plz != "00000" && -10000 < r.year < 10000
  {
    var os := OutcomesOf(rows, lookup, parseFloat);
    forall i | 0 <= i < |os| && os[i].Usable?
      ensures |os[i].plz| >= 5 && os[i].plz != "00000" && -10000 < os[i].year < 10000
    {
      assert os[i] == Classify(rows[i], lookup, parseFloat);
    }
    RecordsFromUsable(os, lookup, scatter);
  }

  /** Records come only from usable outcomes, with their postcode and year. */
  lemma {:induction false} RecordsFromUsable(os: seq<Outcome>, lookup: map<string, Coords>, scatter: (nat, Coords) -> Coords)
    requires KnownPlz(os, lookup)
    ensures forall r :: r in RunOutcomes(os, lookup, scatter).results ==>
              r.plz in lookup && exists i :: 0 <= i < |os| && os[i].Usable? && os[i].plz == r.plz && os[i].year == r.year
  {
    if os != [] {
      var init := os[..|os| - 1];
      RecordsFromUsable(init, lookup, scatter);
      forall r | r in RunOutcomes(os, lookup, scatter).results
        ensures r.plz in lookup && exists i :: 0 <= i < |os| && os[i].Usable? && os[i].plz == r.plz && os[i].year == r.year
      {
        if r in RunOutcomes(init, lookup, scatter).results {
          var i :| 0 <= i < |init| && init[i].Usable? && init[i].plz == r.plz && init[i].year == r.year;
          assert os[i] == init[i];
        } else {
          assert os[|os| - 1].Usable? && r.plz == os[|os| - 1].plz && r.year == os[|os| - 1].year;
        }
      }
    }
  }

  /**
   * The first row of a postcode to reach the lookup is placed at the
   * postcode's own coordinates; a later one is scattered by the number of
   * earlier rows that reached the lookup with it.
   */
  lemma Placement(os: seq<Outcome>, lookup: map<string, Coords>, scatter: (nat, Coords) -> Coords,
                  plz: string, power: real, year: int)
    requires KnownPlz(os, lookup) && plz in lookup
    ensures KnownPlz(os + [Usable(plz, power, year)], lookup)
    ensures var st := RunOutcomes(os, lookup, scatter);
            var r := RunOutcomes(os + [Usable(plz, power, year)], lookup, scatter);
            var n := CountOf(Tally(FoundKeys(os)), plz);
            var pos := ScatteredAt(n, lookup[plz], scatter);
            |r.results| == |st.results| + 1 &&
            r.results[|st.results|] == WindmillRecord(plz, GpsTo3d(pos.0, pos.1).0, GpsTo3d(pos.0, pos.1).1, power, year) &&
            (plz !in FoundKeys(os) ==> pos == lookup[plz])
  {
    var os' := os + [Usable(plz, power, year)];
    assert os'[..|os|] == os;
    RunCounter(os, lookup, scatter);
    if plz !in FoundKeys(os) {
      TallyAbsent(FoundKeys(os), plz);
    }
  }

  /**
   * A row rejected for its power value still counts as an occurrence: the
   * next row of the same postcode is the first one stored, yet it is
   * scattered once.
   */
  lemma RejectedRowShiftsNext(os: seq<Outcome>, lookup: map<string, Coords>, scatter: (nat, Coords) -> Coords,
                              plz: string, power: real, year: int)
    requires KnownPlz(os, lookup) && plz in lookup && plz !in FoundKeys(os)
    ensures KnownPlz(os + [InvalidPower(plz)], lookup)
    ensures var before := os + [InvalidPower(plz)];
            var r := RunOutcomes(before + [Usable(plz, power, year)], lookup, scatter);
            var pos := scatter(1, lookup[plz]);
            r.results[|RunOutcomes(before, lookup, scatter).results|] ==
              WindmillRecord(plz, GpsTo3d(pos.0, pos.1).0, GpsTo3d(pos.0, pos.1).1, power, year)
  {
    var before := os + [InvalidPower(plz)];
    assert KnownPlz(before, lookup) by {
      assert forall i :: 0 <= i < |os| ==> before[i] == os[i];
    }
    assert FoundKeys(before) == FoundKeys(os) + [plz] by {
      assert before[..|os|] == os;
    }
    assert CountOf(Tally(FoundKeys(before)), plz) == 1 by {
      TallyAbsent(FoundKeys(os), plz);
      assert (FoundKeys(os) + [plz])[..|FoundKeys(os)|] == FoundKeys(os);
    }
    Placement(before, lookup, scatter, plz, power, year);
  }

  lemma {:induction false} TallyAbsent(s: seq<string>, k: string)
    requires k !in s
    ensures CountOf(Tally(s), k) == 0
  {
    if s != [] {
      TallyAbsent(s[..|s| - 1], k);
    }
  }

  /**
   * The loop body on one row, given its postcode (after the skip tests and
   * padding), its parsed power and its year: count the row, then, for a
   * postcode the lookup knows, bump its counter, scatter and convert the
   * position, and store the record unless the power value was unreadable.
   */
  method ProcessRow(st: RunState, plz: Option<string>, power: Option<real>, year: int,
                    lookup: map<string, Coords>, scatter: (nat, Coords) -> Coords)
    returns (next: RunState)
    ensures var o := ClassifyParts(plz, lookup, power, year);
            ((o.InvalidPower? || o.Usable?) ==> o.plz in lookup) && next == Step(st, o, lookup, scatter)
  {
    var stats := st.stats.(total := st.stats.total + 1);
    if plz.None? {
      return RunState(stats.(skippedNoPlz := stats.skippedNoPlz + 1), st.counter, st.results);
    }
    if plz.value !in lookup {
      return RunState(stats.(skippedPlzNotFound := stats.skippedPlzNotFound + 1), st.counter, st.results);
    }
    var coords := lookup[plz.value];
    var counter := Bump(st.counter, plz.value);
    var n := counter[plz.value] - 1;
    if n > 0 {
      coords := scatter(n, coords);
    }
    var xz := GpsTo3d(coords.0, coords.1);
    if power.None? {
      return RunState(stats.(skippedInvalid := stats.skippedInvalid + 1), counter, st.results);
    }
    next := RunState(stats.(processed := stats.processed + 1), counter,
                     st.results + [WindmillRecord(plz.value, xz.0, xz.1, power.value, year)]);
  }

  /** The stripped and padded postcode, the power and the year of a row. */
  method ParseRow(row: RegisterRow, lookup: map<string, Coords>, parseFloat: string -> Option<real>)
    returns (plz: Option<string>, power: Option<real>, year: int)
    ensures ClassifyParts(plz, lookup, power, year) == Classify(row, lookup, parseFloat)
  {
    plz := RowPlz(row);
    power := PowerOf(row, parseFloat);
    year := ExtractYear(FieldOr(row, "Inbetriebnahmedatum der Einheit", ""));
  }

  /** The loop over the register rows, against the lookup built before. */
  method PreprocessWindmills(rows: seq<RegisterRow>, lookup: map<string, Coords>,
                             parseFloat: string -> Option<real>, scatter: (nat, Coords) -> Coords)
    returns (stats: Stats, results: seq<WindmillRecord>)
    ensures KnownPlz(OutcomesOf(rows, lookup, parseFloat), lookup)
    ensures stats == RunOutcomes(OutcomesOf(rows, lookup, parseFloat), lookup, scatter).stats
    ensures results == RunOutcomes(OutcomesOf(rows, lookup, parseFloat), lookup, scatter).results
  {
    ghost var os := OutcomesOf(rows, lookup, parseFloat);
    OutcomesKnown(rows, lookup, parseFloat);
    var st := Start;
    for i := 0 to |rows|
      invariant KnownPlz(os[..i], lookup) && st == RunOutcomes(os[..i], lookup, scatter)
    {
      var plz, power, year := ParseRow(rows[i], lookup, parseFloat);
      RunSnoc(os, i, lookup, scatter);
      st := ProcessRow(st, plz, power, year, lookup, scatter);
    }
    assert os[..|rows|] == os;
    stats, results := st.stats, st.results;
  }
}
