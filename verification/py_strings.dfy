/**
 * The Python string operations the parsing code relies on: `lower`/`upper`
 * (ASCII letters), `in` on substrings, `strip`, `split()` and `split(sep)`,
 * slicing a prefix, `zfill`, `isdigit` (ASCII digits) and `int(str)` in base 10.
 */
module PyStrings {
  import opened Common

  /** `str.isspace` for one character: the characters `str.split()` and `str.strip()` treat as whitespace. */
  predicate IsSpace(c: char)
  {
    var n := c as int;
    n == 32 || 9 <= n <= 13 || 28 <= n <= 31 || n == 0x85 || n == 0xA0 || n == 0x1680 ||
    0x2000 <= n <= 0x200A || n == 0x2028 || n == 0x2029 || n == 0x202F || n == 0x205F || n == 0x3000
  }

  predicate IsDigit(c: char)
  {
    '0' <= c <= '9'
  }

  function DigitValue(c: char): nat
    requires IsDigit(c)
  {
    c as int - '0' as int
  }

  function DigitChar(d: nat): (c: char)
    requires d < 10
    ensures IsDigit(c) && DigitValue(c) == d
  {
    ('0' as int + d) as char
  }

  /** `str.isdigit` on ASCII: non-empty and every character a digit. */
  predicate AllDigits(s: string)
  {
    |s| > 0 && forall i :: 0 <= i < |s| ==> IsDigit(s[i])
  }

  function LowerChar(c: char): char
  {
    if 'A' <= c <= 'Z' then (c as int + 32) as char else c
  }

  function UpperChar(c: char): char
  {
    if 'a' <= c <= 'z' then (c as int - 32) as char else c
  }

  /** `str.lower` on ASCII letters. */
  function Lower(s: string): (r: string)
    ensures |r| == |s| && forall i :: 0 <= i < |s| ==> r[i] == LowerChar(s[i])
  {
    if s == [] then [] else [LowerChar(s[0])] + Lower(s[1..])
  }

  /** `str.upper` on ASCII letters. */
  function Upper(s: string): (r: string)
    ensures |r| == |s| && forall i :: 0 <= i < |s| ==> r[i] == UpperChar(s[i])
  {
    if s == [] then [] else [UpperChar(s[0])] + Upper(s[1..])
  }

  /** Lower-casing twice changes nothing more, and leaves no upper-case ASCII letter. */
  lemma LowerIdempotent(s: string)
    ensures Lower(Lower(s)) == Lower(s)
    ensures forall i :: 0 <= i < |s| ==> !('A' <= Lower(s)[i] <= 'Z')
  {
    assert forall i :: 0 <= i < |s| ==> LowerChar(LowerChar(s[i])) == LowerChar(s[i]);
  }

  /** Lower-casing forgets an earlier upper-casing, so a lower-cased comparison ignores case either way. */
  lemma LowerOfUpper(s: string)
    ensures Lower(Upper(s)) == Lower(s)
  {
    assert forall i :: 0 <= i < |s| ==> LowerChar(UpperChar(s[i])) == LowerChar(s[i]);
  }

  /** Upper-casing twice changes nothing more. */
  lemma UpperIdempotent(s: string)
    ensures Upper(Upper(s)) == Upper(s)
  {
    assert forall i :: 0 <= i < |s| ==> UpperChar(UpperChar(s[i])) == UpperChar(s[i]);
  }

  /** `sub` occurs in `s` starting at index `i`. */
  predicate OccursAt(s: string, sub: string, i: int)
  {
    0 <= i && i + |sub| <= |s| && s[i..i + |sub|] == sub
  }

  /** Python's `sub in s`, scanning from the left. */
  function Contains(s: string, sub: string): (r: bool)
    decreases |s|
  {
    if |sub| > |s| then false
    else if s[..|sub|] == sub then true
    else Contains(s[1..], sub)
  }

  /** The scan finds `sub` exactly when it occurs at some index. */
  lemma {:induction false} ContainsSpec(s: string, sub: string)
    ensures Contains(s, sub) <==> exists i :: OccursAt(s, sub, i)
    decreases |s|
  {
    if |sub| > |s| {
    } else if s[..|sub|] == sub {
      assert OccursAt(s, sub, 0);
    } else {
      ContainsSpec(s[1..], sub);
      if exists i :: OccursAt(s[1..], sub, i) {
        var i :| OccursAt(s[1..], sub, i);
        assert s[i + 1..i + 1 + |sub|] == s[1..][i..i + |sub|];
        assert OccursAt(s, sub, i + 1);
      }
      if exists i :: OccursAt(s, sub, i) {
        var i :| OccursAt(s, sub, i);
        assert i != 0;
        assert s[1..][i - 1..i - 1 + |sub|] == s[i..i + |sub|];
        assert OccursAt(s[1..], sub, i - 1);
      }
    }
  }

  /** An occurrence at a known index is found. */
  lemma ContainsAt(s: string, sub: string, i: int)
    requires OccursAt(s, sub, i)
    ensures Contains(s, sub)
  {
    ContainsSpec(s, sub);
  }

  /** A string lacking one of the characters of `sub` does not contain `sub`. */
  lemma NotContainsMissingChar(s: string, sub: string, k: int)
    requires 0 <= k < |sub| && sub[k] !in s
    ensures !Contains(s, sub)
  {
    ContainsSpec(s, sub);
    forall i | 0 <= i && i + |sub| <= |s| ensures !OccursAt(s, sub, i) {
      assert s[i..i + |sub|][k] == s[i + k] && s[i + k] in s;
    }
  }

  /** The first `n` characters, or all of them when there are fewer (`s[:n]`). */
  function Take(s: string, n: nat): (r: string)
    ensures |r| == if |s| < n then |s| else n
    ensures r <= s
  {
    if |s| <= n then s else s[..n]
  }

  /** The number of whitespace characters `s` starts with. */
  function LeadingSpaces(s: string): (k: nat)
    ensures k <= |s| && (k < |s| ==> !IsSpace(s[k]))
    ensures forall i :: 0 <= i < k ==> IsSpace(s[i])
  {
    if s != [] && IsSpace(s[0]) then 1 + LeadingSpaces(s[1..]) else 0
  }

  /** `s` without leading whitespace. */
  function LStrip(s: string): (r: string)
    ensures r == [] || !IsSpace(r[0])
  {
    s[LeadingSpaces(s)..]
  }

  /** The length of `s` without its trailing whitespace. */
  function TrimmedLength(s: string): (k: nat)
    ensures k <= |s| && (k > 0 ==> !IsSpace(s[k - 1]))
    ensures forall i :: k <= i < |s| ==> IsSpace(s[i])
  {
    if s != [] && IsSpace(s[|s| - 1]) then TrimmedLength(s[..|s| - 1]) else |s|
  }

  /** `s` without trailing whitespace. */
  function RStrip(s: string): (r: string)
    ensures r == [] || !IsSpace(r[|r| - 1])
  {
    s[..TrimmedLength(s)]
  }

  /** `str.strip()`. */
  function Strip(s: string): string
  {
    RStrip(LStrip(s))
  }

  /** A string with no whitespace at either end is its own strip. */
  lemma StripTrimmed(s: string)
    requires s == [] || (!IsSpace(s[0]) && !IsSpace(s[|s| - 1]))
    ensures Strip(s) == s
  {
  }

  /** Index of the first character of `s` that is whitespace, `|s|` if none. */
  function SpaceIndex(s: string): (k: nat)
    ensures k <= |s| && (k < |s| ==> IsSpace(s[k]))
    ensures forall i :: 0 <= i < k ==> !IsSpace(s[i])
  {
    if s == [] || IsSpace(s[0]) then 0 else 1 + SpaceIndex(s[1..])
  }

  /** `s.split()[0]`: the first whitespace-separated word, `None` (the `IndexError`) when there is none. */
  function FirstWord(s: string): (r: Option<string>)
    ensures r.Some? ==> |r.value| > 0 && forall i :: 0 <= i < |r.value| ==> !IsSpace(r.value[i])
  {
    var t := LStrip(s);
    if t == [] then None else Some(t[..SpaceIndex(t)])
  }

  /** `w` is the word of `s` that starts at `k`, behind whitespace only and followed by whitespace or the end. */
  predicate WordAt(s: string, k: int, w: string)
  {
    0 <= k && k + |w| <= |s| && (forall i :: 0 <= i < k ==> IsSpace(s[i])) &&
    s[k..k + |w|] == w && (k + |w| == |s| || IsSpace(s[k + |w|]))
  }

  /** There is no word exactly when the string is all whitespace. */
  lemma FirstWordNone(s: string)
    ensures FirstWord(s).None? <==> forall i :: 0 <= i < |s| ==> IsSpace(s[i])
  {
    var k := LeadingSpaces(s);
    var t := LStrip(s);
    if t != [] {
      assert s[k] == t[0];
    }
  }

  /** Otherwise the word is the first one, behind the leading whitespace. */
  lemma FirstWordSome(s: string)
    requires FirstWord(s).Some?
    ensures exists k :: WordAt(s, k, FirstWord(s).value)
  {
    var k := LeadingSpaces(s);
    var t := LStrip(s);
    var w := t[..SpaceIndex(t)];
    assert s[k..k + |w|] == w;
    assert WordAt(s, k, w);
  }

  /** A word followed by whitespace or nothing is the first word. */
  lemma FirstWordOf(w: string, rest: string)
    requires |w| > 0 && forall i :: 0 <= i < |w| ==> !IsSpace(w[i])
    requires rest == [] || IsSpace(rest[0])
    ensures FirstWord(w + rest) == Some(w)
  {
    var s := w + rest;
    assert LStrip(s) == s by { assert s[0] == w[0]; }
    SpaceIndexAfterWord(w, rest);
    assert s[..|w|] == w;
  }

  lemma SpaceIndexAfterWord(w: string, rest: string)
    requires forall i :: 0 <= i < |w| ==> !IsSpace(w[i])
    requires rest == [] || IsSpace(rest[0])
    ensures SpaceIndex(w + rest) == |w|
  {
    var s := w + rest;
    var k := SpaceIndex(s);
    assert forall i :: 0 <= i < |w| ==> !IsSpace(s[i]) by {
      forall i | 0 <= i < |w| ensures !IsSpace(s[i]) { assert s[i] == w[i]; }
    }
    if rest != [] {
      assert s[|w|] == rest[0];
    }
  }

  /** Index of the first `c` in `s`. */
  function IndexOf(s: string, c: char): (k: nat)
    requires c in s
    ensures k < |s| && s[k] == c && c !in s[..k]
  {
    if s[0] == c then 0 else 1 + IndexOf(s[1..], c)
  }

  /** `s.split(sep)` for a one-character separator: the pieces between separators, at least one. */
  function SplitOn(s: string, sep: char): (parts: seq<string>)
    ensures |parts| >= 1
    ensures forall p :: p in parts ==> sep !in p
    decreases |s|
  {
    if sep !in s then [s]
    else
      var k := IndexOf(s, sep);
      [s[..k]] + SplitOn(s[k + 1..], sep)
  }

  /** `sep.join(parts)`. */
  function Join(parts: seq<string>, sep: char): string
  {
    if parts == [] then [] else if |parts| == 1 then parts[0] else parts[0] + [sep] + Join(parts[1..], sep)
  }

  /** Joining the pieces with the separator gives back the string. */
  lemma {:induction false} SplitJoin(s: string, sep: char)
    ensures Join(SplitOn(s, sep), sep) == s
    decreases |s|
  {
    if sep in s {
      var k := IndexOf(s, sep);
      SplitJoin(s[k + 1..], sep);
      assert s == s[..k] + [sep] + s[k + 1..];
    }
  }

  /** Splitting at the first separator gives the piece before it, then the pieces of the rest. */
  lemma SplitOnFirst(a: string, sep: char, b: string)
    requires sep !in a
    ensures SplitOn(a + [sep] + b, sep) == [a] + SplitOn(b, sep)
  {
    var s := a + [sep] + b;
    assert s[|a|] == sep;
    var k := IndexOf(s, sep);
    assert k == |a|;
    assert s[..k] == a && s[k + 1..] == b;
  }

  /** The first piece is everything before the first separator. */
  lemma SplitOnHead(a: string, sep: char, rest: string)
    requires sep !in a && (rest == [] || rest[0] == sep)
    ensures SplitOn(a + rest, sep)[0] == a
  {
    var s := a + rest;
    if rest == [] {
      assert s == a;
    } else {
      assert s[|a|] == sep;
      var k := IndexOf(s, sep);
      assert k == |a|;
      assert s[..k] == a;
    }
  }

  /** The pieces come from the separators: with no separator there is one piece, the string itself. */
  lemma SplitNoSeparator(s: string, sep: char)
    requires sep !in s
    ensures SplitOn(s, sep) == [s]
  {
  }

  /** `n` copies of '0'. */
  function Zeros(n: nat): (r: string)
    ensures |r| == n && forall i :: 0 <= i < n ==> r[i] == '0'
  {
    if n == 0 then [] else Zeros(n - 1) + ['0']
  }

  /** `str.zfill(w)`: zeros on the left up to width `w`, after a leading sign. */
  function ZFill(s: string, w: nat): (r: string)
  {
    if |s| >= w then s
    else if s != [] && (s[0] == '+' || s[0] == '-') then [s[0]] + Zeros(w - |s|) + s[1..]
    else Zeros(w - |s|) + s
  }

  /** The result is `w` characters unless `s` was already longer; an unsigned `s` ends the result behind zeros. */
  lemma ZFillSpec(s: string, w: nat)
    ensures |ZFill(s, w)| == if |s| >= w then |s| else w
    ensures |s| < w && (s == [] || (s[0] != '+' && s[0] != '-')) ==>
              ZFill(s, w) == Zeros(w - |s|) + s
    ensures |s| >= w ==> ZFill(s, w) == s
  {
  }

  /** Padding again changes nothing. */
  lemma ZFillIdempotent(s: string, w: nat)
    ensures ZFill(ZFill(s, w), w) == ZFill(s, w)
  {
    ZFillSpec(s, w);
  }

  /** The digit body `int()` accepts: digits with single underscores between digits. */
  predicate DigitBody(b: string)
  {
    |b| > 0 && IsDigit(b[0]) && IsDigit(b[|b| - 1]) &&
    forall i :: 0 <= i < |b| ==> IsDigit(b[i]) || (b[i] == '_' && 0 < i < |b| - 1 && IsDigit(b[i - 1]) && IsDigit(b[i + 1]))
  }

  /** The number the digits of `b` spell, underscores skipped. */
  function BodyValue(b: string): nat
  {
    if b == [] then 0
    else if IsDigit(b[|b| - 1]) then BodyValue(b[..|b| - 1]) * 10 + DigitValue(b[|b| - 1])
    else BodyValue(b[..|b| - 1])
  }

  /**
   * `int(s)` in base 10 on ASCII digits: surrounding whitespace, then an
   * optional sign, then the digit body; `None` stands for the `ValueError`.
   */
  function ParseInt(s: string): (r: Option<int>)
  {
    var t := Strip(s);
    if t == [] then None
    else
      var negative := t[0] == '-';
      var body := if t[0] == '-' || t[0] == '+' then t[1..] else t;
      if DigitBody(body) then Some(if negative then -(BodyValue(body) as int) else BodyValue(body) as int)
      else None
  }

  /** Decimal digits of a natural number, most significant first. */
  function NatToString(n: nat): (r: string)
    ensures AllDigits(r)
  {
    if n < 10 then [DigitChar(n)] else NatToString(n / 10) + [DigitChar(n % 10)]
  }

  /** `str(n)` for an int. */
  function IntToString(n: int): (r: string)
    ensures |r| > 0
  {
    if n < 0 then "-" + NatToString(-n) else NatToString(n)
  }

  lemma {:induction false} NatToStringValue(n: nat)
    ensures DigitBody(NatToString(n)) && BodyValue(NatToString(n)) == n
  {
    var r := NatToString(n);
    if n >= 10 {
      NatToStringValue(n / 10);
      assert r[..|r| - 1] == NatToString(n / 10);
    }
  }

  /** `int(str(n)) == n`. */
  lemma ParseIntRoundTrip(n: int)
    ensures ParseInt(IntToString(n)) == Some(n)
  {
    var s := IntToString(n);
    if n < 0 {
      ParseIntNegative(s, -n);
    } else {
      ParseIntNatural(s, n);
    }
  }

  lemma ParseIntNatural(s: string, m: nat)
    requires s == NatToString(m)
    ensures ParseInt(s) == Some(m)
  {
    NatToStringValue(m);
    StripTrimmed(s);
    ParseIntUnsigned(s);
  }

  lemma ParseIntNegative(s: string, m: nat)
    requires m > 0 && s == "-" + NatToString(m)
    ensures ParseInt(s) == Some(-(m as int))
  {
    NatToStringValue(m);
    assert s[|s| - 1] == NatToString(m)[|NatToString(m)| - 1];
    StripTrimmed(s);
    assert s[1..] == NatToString(m);
    ParseIntSigned(s);
  }

  lemma ParseIntUnsigned(t: string)
    requires Strip(t) == t && DigitBody(t)
    ensures ParseInt(t) == Some(BodyValue(t) as int)
  {
  }

  lemma ParseIntSigned(t: string)
    requires Strip(t) == t && |t| > 0 && t[0] == '-' && DigitBody(t[1..])
    ensures ParseInt(t) == Some(-(BodyValue(t[1..]) as int))
  {
  }

  function Pow10(n: nat): (r: nat)
    ensures r >= 1
  {
    if n == 0 then 1 else 10 * Pow10(n - 1)
  }

  lemma {:induction false} Pow10Monotone(m: nat, n: nat)
    requires m <= n
    ensures Pow10(m) <= Pow10(n)
  {
    if m < n {
      Pow10Monotone(m, n - 1);
    }
  }

  /** A digit body of `k` characters spells a number below `10^k`. */
  lemma {:induction false} BodyValueBound(b: string)
    ensures BodyValue(b) < Pow10(|b|)
  {
    if b != [] {
      BodyValueBound(b[..|b| - 1]);
    }
  }

  lemma StripShorter(s: string)
    ensures |Strip(s)| <= |s|
  {
  }

  /** `int()` of a string of `k` characters lies strictly between `-10^k` and `10^k`. */
  lemma ParseIntBound(s: string)
    ensures ParseInt(s).Some? ==> -(Pow10(|s|) as int) < ParseInt(s).value < Pow10(|s|)
  {
    var t := Strip(s);
    StripShorter(s);
    if t != [] {
      var body := if t[0] == '-' || t[0] == '+' then t[1..] else t;
      BodyValueBound(body);
      Pow10Monotone(|body|, |s|);
    }
  }

  /** A number from 1000 to 9999 has four digits. */
  lemma FourDigits(y: nat)
    requires 1000 <= y <= 9999
    ensures |NatToString(y)| == 4
  {
    assert |NatToString(y / 1000)| == 1;
    assert y / 10 / 10 / 10 == y / 1000;
    assert |NatToString(y / 100)| == 2 by {
      assert y / 100 / 10 == y / 1000;
    }
    assert |NatToString(y / 10)| == 3 by {
      assert y / 10 / 10 == y / 100;
    }
  }

  /** A string of whitespace strips to nothing. */
  lemma StripAllSpace(s: string)
    requires forall i :: 0 <= i < |s| ==> IsSpace(s[i])
    ensures Strip(s) == []
  {
  }
}
