/** Name-and-hash cache of triangulations (geometry/triangulation_cache.py). */
module TriangulationCache {
  import opened Common
  import opened Triangulation

  /** One vertex as `"{x:.6f},{z:.6f}"`; `fmt` is the six-decimal float formatting. */
  function Cell(v: Point2, fmt: real -> string): string
  {
    fmt(v.0) + "," + fmt(v.1)
  }

  /** `"|".join(...)` of the formatted vertices. */
  function Joined(vs: seq<Point2>, fmt: real -> string): string
    decreases |vs|
  {
    if |vs| == 0 then ""
    else if |vs| == 1 then Cell(vs[0], fmt)
    else Cell(vs[0], fmt) + "|" + Joined(vs[1..], fmt)
  }

  /** Two vertex lists whose coordinates format alike are joined to the same text. */
  lemma {:induction false} JoinedSeesOnlyFormatted(v1: seq<Point2>, v2: seq<Point2>, fmt: real -> string)
    requires |v1| == |v2|
    requires forall i :: 0 <= i < |v1| ==> fmt(v1[i].0) == fmt(v2[i].0) && fmt(v1[i].1) == fmt(v2[i].1)
    ensures Joined(v1, fmt) == Joined(v2, fmt)
    decreases |v1|
  {
    if |v1| > 1 {
      assert Cell(v1[0], fmt) == Cell(v2[0], fmt);
      JoinedSeesOnlyFormatted(v1[1..], v2[1..], fmt);
    }
  }

  /**
   * `hash_polygon`: the first 16 hex digits of the SHA-256 digest of the
   * joined text. `sha256Hex` stands for `hashlib.sha256(...).hexdigest()`,
   * whose result is 64 characters long.
   */
  function HashPolygon(vs: seq<Point2>, fmt: real -> string, sha256Hex: string -> string): (h: string)
    requires forall s :: |sha256Hex(s)| == 64
    ensures |h| == 16
    ensures h == sha256Hex(Joined(vs, fmt))[..16]
  {
    sha256Hex(Joined(vs, fmt))[..16]
  }

  /** The hash depends on the vertices only through their six-decimal rounding. */
  lemma HashSeesOnlyRounded(v1: seq<Point2>, v2: seq<Point2>, fmt: real -> string, sha256Hex: string -> string)
    requires forall s :: |sha256Hex(s)| == 64
    requires |v1| == |v2|
    requires forall i :: 0 <= i < |v1| ==> fmt(v1[i].0) == fmt(v2[i].0) && fmt(v1[i].1) == fmt(v2[i].1)
    ensures HashPolygon(v1, fmt, sha256Hex) == HashPolygon(v2, fmt, sha256Hex)
  {
    JoinedSeesOnlyFormatted(v1, v2, fmt);
  }

  /** One cache entry; an entry read from disk may lack its `hash` key (`None`). */
  datatype Entry = Entry(hash: Option<string>, triangles: seq<Triangle>)

  /** `get` on a snapshot of the entries: the triangles when the name is present with exactly this hash. */
  function Lookup(entries: map<string, Entry>, name: string, polyHash: string): (r: Option<seq<Triangle>>)
    ensures r.Some? <==> name in entries && entries[name].hash == Some(polyHash)
    ensures r.Some? ==> r.value == entries[name].triangles
  {
    if name in entries && entries[name].hash == Some(polyHash) then Some(entries[name].triangles) else None
  }

  /** `set` then `get` round-trips; other names are unaffected, and a different hash misses. */
  lemma LookupAfterStore(entries: map<string, Entry>, name: string, polyHash: string, tris: seq<Triangle>,
                         other: string, otherHash: string)
    ensures Lookup(entries[name := Entry(Some(polyHash), tris)], name, polyHash) == Some(tris)
    ensures other != name ==>
      Lookup(entries[name := Entry(Some(polyHash), tris)], other, otherHash) == Lookup(entries, other, otherHash)
    ensures otherHash != polyHash ==> Lookup(entries[name := Entry(Some(polyHash), tris)], name, otherHash) == None
  {
  }

  /**
   * `TriangulationCache`: the in-memory entries, the modified flag, and the
   * content of the cache file (`None` when the file does not exist).
   */
  class TriangulationCache {
    var entries: map<string, Entry>
    var modified: bool
    var file: Option<map<string, Entry>>

    /** `_init_cache`: the file's entries if it exists and parses, else an empty cache. */
    constructor (file: Option<map<string, Entry>>, parses: bool)
      ensures this.file == file && !modified
      ensures entries == (if file.Some? && parses then file.value else map[])
    {
      this.file := file;
      modified := false;
      entries := if file.Some? && parses then file.value else map[];
    }

    /** `get`. */
    method Get(name: string, polyHash: string) returns (r: Option<seq<Triangle>>)
      ensures r == Lookup(entries, name, polyHash)
    {
      if name in entries {
        var entry := entries[name];
        if entry.hash == Some(polyHash) {
          return Some(entry.triangles);
        }
      }
      return None;
    }

    /** `set`: replaces the entry for `name` only and marks the cache modified. */
    method Set(name: string, polyHash: string, tris: seq<Triangle>)
      modifies this`entries, this`modified
      ensures entries == old(entries)[name := Entry(Some(polyHash), tris)]
      ensures modified
      ensures Lookup(entries, name, polyHash) == Some(tris)
    {
      entries := entries[name := Entry(Some(polyHash), tris)];
      modified := true;
    }

    /**
     * `save`: nothing when unmodified; otherwise the entries are written and
     * the flag cleared, unless the write fails (`writeOk` false), which is ignored.
     */
    method Save(writeOk: bool)
      modifies this`file, this`modified
      ensures !old(modified) ==> file == old(file) && !modified
      ensures old(modified) && writeOk ==> file == Some(entries) && !modified
      ensures old(modified) && !writeOk ==> file == old(file) && modified
    {
      if !modified {
        return;
      }
      if writeOk {
        file := Some(entries);
        modified := false;
      }
    }

    /** `clear`: empties the cache and marks it modified; the file is removed unless that fails. */
    method Clear(unlinkOk: bool)
      modifies this`entries, this`modified, this`file
      ensures entries == map[] && modified
      ensures file == (if unlinkOk then None else old(file))
    {
      entries := map[];
      modified := true;
      if file.Some? && unlinkOk {
        file := None;
      }
    }
  }
}
