/**
 * Shared vocabulary of the model: optional values, Python's integer
 * conversion of a float, Python's float remainder, and the ascending order
 * of a dictionary's integer keys (`sorted(d.keys())`).
 */
module Common {

  datatype Option<T> = None | Some(value: T)

  /** Python `int(r)` on a float: truncation toward zero (not floor). */
  function Trunc(r: real): (t: int)
    ensures r >= 0.0 ==> 0 <= t && t as real <= r < t as real + 1.0
    ensures r < 0.0 ==> t <= 0 && t as real - 1.0 < r <= t as real
  {
    if r >= 0.0 then r.Floor else -((-r).Floor)
  }

  /** Truncation is monotone, so clamped grid indices keep the order of the coordinates. */
  lemma TruncMonotone(a: real, b: real)
    requires a <= b
    ensures Trunc(a) <= Trunc(b)
  {
    if a < 0.0 && b >= 0.0 {
    } else if a >= 0.0 {
      assert a.Floor <= b.Floor;
    } else {
      assert (-b).Floor <= (-a).Floor;
    }
  }

  lemma FloorModBounds(a: real, m: real, x: real, q: int)
    requires m > 0.0 && m * x == a && q as real <= x < q as real + 1.0
    ensures 0.0 <= a - m * (q as real) < m
  {
    var d := x - q as real;
    assert a - m * (q as real) == m * d;
    assert 0.0 <= d < 1.0;
    assert m * d >= 0.0;
    assert m - m * d == m * (1.0 - d);
    assert m * (1.0 - d) > 0.0;
  }

  lemma QuotientInUnit(a: real, m: real)
    requires m > 0.0 && 0.0 <= a < m
    ensures (a / m).Floor == 0
  {
    var x := a / m;
    assert m * x == a;
    if x >= 1.0 {
      assert false;
    }
  }

  /** Python `a % m` for floats with a positive divisor: the result takes the sign of `m`. */
  function FloorMod(a: real, m: real): (r: real)
    requires m > 0.0
    ensures 0.0 <= r < m
    ensures 0.0 <= a < m ==> r == a
  {
    var q := (a / m).Floor;
    FloorModBounds(a, m, a / m, q);
    if 0.0 <= a < m then QuotientInUnit(a, m); a - m * (q as real)
    else a - m * (q as real)
  }

  function MaxReal(a: real, b: real): (r: real)
    ensures r >= a && r >= b && (r == a || r == b)
  {
    if a >= b then a else b
  }

  function MinReal(a: real, b: real): (r: real)
    ensures r <= a && r <= b && (r == a || r == b)
  {
    if a <= b then a else b
  }

  predicate StrictlyIncreasing(s: seq<int>)
  {
    forall i, j :: 0 <= i < j < |s| ==> s[i] < s[j]
  }

  lemma NonEmpty(s: set<int>)
    requires s != {}
    ensures exists x :: x in s
  {
    if forall x :: x !in s {
      assert false;
    }
  }

  /** The least element of a non-empty set of keys. */
  ghost function MinKey(s: set<int>): (m: int)
    requires s != {}
    ensures m in s && forall y :: y in s ==> m <= y
    decreases |s|
  {
    NonEmpty(s);
    var x :| x in s;
    if s - {x} == {} then
      assert s == {x};
      x
    else
      var r := MinKey(s - {x});
      assert forall y :: y in s ==> y == x || y in s - {x};
      if x < r then x else r
  }

  /** `sorted(keys)` for a set of distinct integer keys: least key first. */
  ghost function SortedKeys(s: set<int>): seq<int>
    decreases |s|
  {
    if s == {} then []
    else
      var m := MinKey(s);
      [m] + SortedKeys(s - {m})
  }

  /** `SortedKeys` lists every key exactly once, in ascending order. */
  lemma {:induction false} SortedKeysSpec(s: set<int>)
    ensures StrictlyIncreasing(SortedKeys(s))
    ensures forall y :: y in SortedKeys(s) <==> y in s
    ensures |SortedKeys(s)| == |s|
    decreases |s|
  {
    if s != {} {
      var m := MinKey(s);
      var rest := SortedKeys(s - {m});
      SortedKeysSpec(s - {m});
      assert SortedKeys(s) == [m] + rest;
      assert forall y :: y in [m] + rest <==> y == m || y in rest;
      assert |s - {m}| == |s| - 1;
      PrependMin(m, rest);
    }
  }

  /** The ordering half of SortedKeysSpec on its own. */
  lemma SortedKeysIncreasing(s: set<int>)
    ensures StrictlyIncreasing(SortedKeys(s))
  {
    SortedKeysSpec(s);
  }

  lemma PrependMin(m: int, rest: seq<int>)
    requires StrictlyIncreasing(rest)
    requires forall y :: y in rest ==> m < y
    ensures StrictlyIncreasing([m] + rest)
  {
    var r := [m] + rest;
    forall i, j | 0 <= i < j < |r|
      ensures r[i] < r[j]
    {
      if i == 0 {
        assert r[j] == rest[j - 1];
        assert rest[j - 1] in rest;
      } else {
        assert r[i] == rest[i - 1] && r[j] == rest[j - 1];
      }
    }
  }

  /** Unfolding `SortedKeys` at the least key of the set. */
  lemma SortedKeysUnfold(s: set<int>, m: int)
    requires m in s && forall y :: y in s ==> m <= y
    ensures SortedKeys(s) == [m] + SortedKeys(s - {m})
  {
    assert MinKey(s) == m;
  }

  /** The loop behind `for year in sorted(cache.keys())`: repeatedly takes the least remaining key. */
  method OrderKeys(s: set<int>) returns (r: seq<int>)
    ensures r == SortedKeys(s)
  {
    r := [];
    var rest := s;
    while rest != {}
      invariant r + SortedKeys(rest) == SortedKeys(s)
      decreases |rest|
    {
      assert MinKey(rest) in rest;
      var m :| m in rest && forall y :: y in rest ==> m <= y;
      SortedKeysUnfold(rest, m);
      ghost var tail := SortedKeys(rest - {m});
      assert (r + [m]) + tail == r + ([m] + tail);
      r := r + [m];
      rest := rest - {m};
    }
  }

  /** The elements appear in non-decreasing order of `key`. */
  predicate SortedBy<T>(s: seq<T>, key: T -> real)
  {
    forall i, j :: 0 <= i < j < |s| ==> key(s[i]) <= key(s[j])
  }

  /** Places `x` before the first element whose key is not smaller, which keeps equal keys in input order. */
  function InsertBy<T>(x: T, s: seq<T>, key: T -> real): (r: seq<T>)
    ensures |r| == |s| + 1 && multiset(r) == multiset(s) + multiset{x}
  {
    if s == [] then [x]
    else if key(x) <= key(s[0]) then [x] + s
    else
      assert s == [s[0]] + s[1..];
      [s[0]] + InsertBy(x, s[1..], key)
  }

  /** The head of a sorted list has the least key. */
  lemma HeadIsLeast<T>(s: seq<T>, key: T -> real)
    requires s != [] && SortedBy(s, key)
    ensures forall y :: y in s ==> key(s[0]) <= key(y)
  {
    forall y | y in s ensures key(s[0]) <= key(y) {
      var k :| 0 <= k < |s| && s[k] == y;
      if k > 0 { assert key(s[0]) <= key(s[k]); }
    }
  }

  /** Prepending an element whose key is at most every other key keeps a list sorted. */
  lemma PrependLeast<T>(h: T, rest: seq<T>, key: T -> real)
    requires SortedBy(rest, key) && forall y :: y in rest ==> key(h) <= key(y)
    ensures SortedBy([h] + rest, key)
  {
    var r := [h] + rest;
    forall i, j | 0 <= i < j < |r|
      ensures key(r[i]) <= key(r[j])
    {
      assert r[j] == rest[j - 1];
      if i > 0 {
        assert r[i] == rest[i - 1];
      } else {
        assert rest[j - 1] in rest;
      }
    }
  }

  /** Inserting into a sorted list keeps it sorted. */
  lemma {:induction false} InsertBySorted<T>(x: T, s: seq<T>, key: T -> real)
    requires SortedBy(s, key)
    ensures SortedBy(InsertBy(x, s, key), key)
  {
    if s == [] {
    } else if key(x) <= key(s[0]) {
      HeadIsLeast(s, key);
      PrependLeast(x, s, key);
    } else {
      var rest := InsertBy(x, s[1..], key);
      assert SortedBy(s[1..], key);
      InsertBySorted(x, s[1..], key);
      HeadIsLeast(s, key);
      forall y | y in rest ensures key(s[0]) <= key(y) {
        assert y in multiset(rest);
        if y != x {
          assert y in multiset(s[1..]);
          var k :| 0 <= k < |s[1..]| && s[1..][k] == y;
          assert s[k + 1] == y;
        }
      }
      PrependLeast(s[0], rest, key);
    }
  }

  /** Python's stable `list.sort(key=...)`, as an insertion sort. */
  function SortBy<T>(s: seq<T>, key: T -> real): (r: seq<T>)
    ensures |r| == |s| && multiset(r) == multiset(s)
    ensures SortedBy(r, key)
  {
    if s == [] then []
    else
      assert s == [s[0]] + s[1..];
      var rest := SortBy(s[1..], key);
      InsertBySorted(s[0], rest, key);
      InsertBy(s[0], rest, key)
  }

  /** Sorting a list that is already in key order leaves it unchanged. */
  lemma {:induction false} SortBySorted<T>(s: seq<T>, key: T -> real)
    requires SortedBy(s, key)
    ensures SortBy(s, key) == s
  {
    if s != [] {
      assert SortedBy(s[1..], key);
      SortBySorted(s[1..], key);
      if |s| > 1 {
        assert key(s[0]) <= key(s[1]);
      }
    }
  }

  /** The elements of `s` whose key is `k`, in their order in `s`. */
  function WithKey<T>(s: seq<T>, key: T -> real, k: real): seq<T>
  {
    if s == [] then [] else (if key(s[0]) == k then [s[0]] else []) + WithKey(s[1..], key, k)
  }

  /** Inserting `x` puts it in front of every element of equal key. */
  lemma {:induction false} InsertByWithKey<T>(x: T, s: seq<T>, key: T -> real, k: real)
    ensures WithKey(InsertBy(x, s, key), key, k) == (if key(x) == k then [x] else []) + WithKey(s, key, k)
  {
    if s == [] {
      assert WithKey([x], key, k) == (if key(x) == k then [x] else []) + WithKey([], key, k);
    } else if key(x) <= key(s[0]) {
      assert ([x] + s)[1..] == s;
    } else {
      var r := InsertBy(x, s[1..], key);
      InsertByWithKey(x, s[1..], key, k);
      assert ([s[0]] + r)[1..] == r;
      var head := if key(s[0]) == k then [s[0]] else [];
      assert WithKey(s, key, k) == head + WithKey(s[1..], key, k);
      assert WithKey([s[0]] + r, key, k) == head + WithKey(r, key, k);
      if key(s[0]) == k {
        assert key(x) != k;
      }
    }
  }

  /** `SortBy` is stable: the elements of each key keep their input order. */
  lemma {:induction false} SortByStable<T>(s: seq<T>, key: T -> real, k: real)
    ensures WithKey(SortBy(s, key), key, k) == WithKey(s, key, k)
  {
    if s != [] {
      SortByStable(s[1..], key, k);
      InsertByWithKey(s[0], SortBy(s[1..], key), key, k);
    }
  }

  predicate Distinct<T(==)>(s: seq<T>)
  {
    forall i, j :: 0 <= i < j < |s| ==> s[i] != s[j]
  }

  /** Splitting off the last element of a sequence: membership, and distinctness of what remains. */
  lemma DistinctSnoc<T>(s: seq<T>)
    requires |s| > 0
    ensures forall y :: y in s <==> y in s[..|s| - 1] || y == s[|s| - 1]
    ensures Distinct(s) ==> Distinct(s[..|s| - 1]) && s[|s| - 1] !in s[..|s| - 1]
  {
    assert s == s[..|s| - 1] + [s[|s| - 1]];
  }

  /** The list stored under `k` in a dictionary of lists, or the empty list. */
  function Get<K, V>(m: map<K, seq<V>>, k: K): seq<V>
  {
    if k in m then m[k] else []
  }

  /** Total length of the lists stored under `keys`. */
  function SumSizes<K, V>(keys: seq<K>, m: map<K, seq<V>>): nat
  {
    if keys == [] then 0 else |Get(m, keys[0])| + SumSizes(keys[1..], m)
  }

  /** Replacing the list of a listed key changes the total by the difference in length. */
  lemma {:induction false} SumSizesUpdate<K, V>(keys: seq<K>, m: map<K, seq<V>>, k: K, v: seq<V>)
    requires Distinct(keys)
    ensures k in keys ==> SumSizes(keys, m[k := v]) + |Get(m, k)| == SumSizes(keys, m) + |v|
    ensures k !in keys ==> SumSizes(keys, m[k := v]) == SumSizes(keys, m)
  {
    if keys != [] {
      assert Distinct(keys[1..]);
      SumSizesUpdate(keys[1..], m, k, v);
      if keys[0] == k {
        assert k !in keys[1..];
      }
    }
  }

  /** Appending a key to the key list adds the length of its list. */
  lemma {:induction false} SumSizesAppend<K, V>(keys: seq<K>, m: map<K, seq<V>>, k: K)
    ensures SumSizes(keys + [k], m) == SumSizes(keys, m) + |Get(m, k)|
  {
    if keys == [] {
      assert keys + [k] == [k];
    } else {
      assert (keys + [k])[1..] == keys[1..] + [k];
      SumSizesAppend(keys[1..], m, k);
    }
  }

  /** `d.get(k, 0)` on a dictionary of counters. */
  function CountOf<K>(m: map<K, nat>, k: K): nat
  {
    if k in m then m[k] else 0
  }

  /** `d[k] = d.get(k, 0) + 1`. */
  function Bump<K(!new)>(m: map<K, nat>, k: K): (r: map<K, nat>)
    ensures r.Keys == m.Keys + {k} && CountOf(r, k) == CountOf(m, k) + 1
    ensures forall j :: j != k ==> CountOf(r, j) == CountOf(m, j)
  {
    m[k := CountOf(m, k) + 1]
  }

  /** The counters a loop of `Bump`s over `s` produces, starting from an empty dictionary. */
  function Tally<K(!new)>(s: seq<K>): map<K, nat>
  {
    if s == [] then map[] else Bump(Tally(s[..|s| - 1]), s[|s| - 1])
  }

  /** Sum of the counters stored under `keys`. */
  function SumCounts<K>(keys: seq<K>, m: map<K, nat>): nat
  {
    if keys == [] then 0 else CountOf(m, keys[0]) + SumCounts(keys[1..], m)
  }

  /** Bumping a counter raises the sum over any duplicate-free key list holding it by exactly one. */
  lemma {:induction false} SumCountsBump<K(!new)>(keys: seq<K>, m: map<K, nat>, k: K)
    requires Distinct(keys)
    ensures k in keys ==> SumCounts(keys, Bump(m, k)) == SumCounts(keys, m) + 1
    ensures k !in keys ==> SumCounts(keys, Bump(m, k)) == SumCounts(keys, m)
  {
    if keys != [] {
      assert Distinct(keys[1..]);
      SumCountsBump(keys[1..], m, k);
      if keys[0] == k {
        assert k !in keys[1..];
      }
    }
  }

  lemma {:induction false} SumCountsAppend<K>(keys: seq<K>, m: map<K, nat>, k: K)
    ensures SumCounts(keys + [k], m) == SumCounts(keys, m) + CountOf(m, k)
  {
    if keys == [] {
      assert keys + [k] == [k];
    } else {
      assert (keys + [k])[1..] == keys[1..] + [k];
      SumCountsAppend(keys[1..], m, k);
    }
  }

  /** `order` lists the keys of `m` once each, as a Python dictionary remembers them. */
  ghost predicate KeyOrder<K(!new)>(order: seq<K>, m: map<K, nat>)
  {
    Distinct(order) && forall j :: j in m <==> j in order
  }

  /** The key order of a Python dictionary after assigning to `k`: new keys go to the end. */
  function AddKey<K(==)>(order: seq<K>, k: K): seq<K>
  {
    if k in order then order else order + [k]
  }

  /** One `d[k] = d.get(k, 0) + 1` keeps the key order duplicate-free and matching the keys, and adds one to the total. */
  lemma BumpKeepsTotal<K(!new)>(order: seq<K>, m: map<K, nat>, k: K)
    requires KeyOrder(order, m)
    ensures KeyOrder(AddKey(order, k), Bump(m, k))
    ensures SumCounts(AddKey(order, k), Bump(m, k)) == SumCounts(order, m) + 1
  {
    SumCountsBump(order, m, k);
    if k !in order {
      SumCountsAppend(order, Bump(m, k), k);
    }
  }

  /** After a counting loop over `s`: the counters are `Tally(s)`, listed once each in `order`, and they add up to `|s|`. */
  ghost predicate Counted<K(!new)>(s: seq<K>, m: map<K, nat>, order: seq<K>)
  {
    m == Tally(s) && KeyOrder(order, m) && SumCounts(order, m) == |s|
  }

  lemma CountedStep<K(!new)>(s: seq<K>, m: map<K, nat>, order: seq<K>, k: K)
    requires Counted(s, m, order)
    ensures Counted(s + [k], Bump(m, k), AddKey(order, k))
  {
    BumpKeepsTotal(order, m, k);
    assert (s + [k])[..|s|] == s;
  }

  /** The key order a loop of `Bump`s over `s` leaves behind, starting from an empty dictionary. */
  function KeysInOrder<K(==)>(s: seq<K>): seq<K>
  {
    if s == [] then [] else AddKey(KeysInOrder(s[..|s| - 1]), s[|s| - 1])
  }

  /** The counters and key order a counting loop over `s` leaves behind count `s`. */
  /** Extending a prefix by one key bumps its tally and may add the key to the order. */
  lemma TallyPrefixStep<K(!new)>(s: seq<K>, i: nat)
    requires i < |s|
    ensures Tally(s[..i + 1]) == Bump(Tally(s[..i]), s[i])
    ensures KeysInOrder(s[..i + 1]) == AddKey(KeysInOrder(s[..i]), s[i])
  {
    assert s[..i + 1][..i] == s[..i];
  }

  lemma {:induction false} TallyCounted<K(!new)>(s: seq<K>)
    ensures Counted(s, Tally(s), KeysInOrder(s))
  {
    if s != [] {
      var init, last := s[..|s| - 1], s[|s| - 1];
      TallyCounted(init);
      CountedStep(init, Tally(init), KeysInOrder(init), last);
      assert init + [last] == s;
    }
  }

  /** For a non-negative numerator, a larger positive divisor gives a smaller quotient. */
  lemma QuotientAntitone(n: real, d1: real, d2: real)
    requires n >= 0.0 && 0.0 < d1 <= d2
    ensures n / d2 <= n / d1
  {
    assert n / d1 * d1 == n;
    assert n / d1 * d2 >= n / d1 * d1;
  }

  lemma SquareStrict(a: real, b: real)
    requires 0.0 <= a < b
    ensures a * a < b * b
  {
    var d := b - a;
    assert b * b == a * a + 2.0 * a * d + d * d;
    assert a * d >= 0.0 && d * d > 0.0;
  }

  /** Two non-negative numbers with the same square are equal (the square root is unique). */
  lemma SquareInjective(a: real, b: real)
    requires a >= 0.0 && b >= 0.0 && a * a == b * b
    ensures a == b
  {
    if a < b {
      SquareStrict(a, b);
    } else if b < a {
      SquareStrict(b, a);
    }
  }

  /** For non-negative `a`, `a <= b` exactly when `b` is non-negative and `a * a <= b * b`. */
  lemma SquareMonotone(a: real, b: real)
    requires a >= 0.0
    ensures a <= b <==> (b >= 0.0 && a * a <= b * b)
  {
    if a < b {
      SquareStrict(a, b);
    } else if 0.0 <= b < a {
      SquareStrict(b, a);
    }
  }

  /** `int(s[-1])` for an ASCII digit; `None` where Python raises (empty string, or a last character that is no digit). */
  function LastDigit(s: string): (r: Option<nat>)
    ensures r.Some? ==> r.value <= 9
  {
    if |s| == 0 then None
    else if '0' <= s[|s| - 1] <= '9' then Some(s[|s| - 1] as int - '0' as int)
    else None
  }

  /** Python's `round(r)` on a float: the nearest integer, ties going to the even one. */
  function RoundHalfEven(r: real): (n: int)
    ensures n as real - 0.5 <= r <= n as real + 0.5
    ensures (r == n as real - 0.5 || r == n as real + 0.5) ==> n % 2 == 0
  {
    var f := r.Floor;
    var frac := r - f as real;
    if frac < 0.5 then f
    else if frac > 0.5 then f + 1
    else if f % 2 == 0 then f
    else f + 1
  }

  /** Nearest with ties to even pins down one integer: `RoundHalfEven` is the only such rounding. */
  lemma RoundHalfEvenUnique(r: real, n: int)
    requires n as real - 0.5 <= r <= n as real + 0.5
    requires (r == n as real - 0.5 || r == n as real + 0.5) ==> n % 2 == 0
    ensures n == RoundHalfEven(r)
  {
    var m := RoundHalfEven(r);
    if n < m {
      assert false;
    } else if n > m {
      assert false;
    }
  }

  /** The first components of a list of pairs. */
  function Firsts<A, B>(ps: seq<(A, B)>): (r: seq<A>)
    ensures |r| == |ps| && forall i :: 0 <= i < |ps| ==> r[i] == ps[i].0
  {
    if ps == [] then [] else [ps[0].0] + Firsts(ps[1..])
  }

  /** The first components of a pair put in front. */
  lemma FirstsCons<A, B>(a: (A, B), t: seq<(A, B)>)
    ensures multiset(Firsts([a] + t)) == multiset{a.0} + multiset(Firsts(t))
  {
    assert ([a] + t)[1..] == t;
  }

  /** Inserting a pair adds its first component to the first components. */
  lemma {:induction false} FirstsInsertBy<A, B>(x: (A, B), s: seq<(A, B)>, key: ((A, B)) -> real)
    ensures multiset(Firsts(InsertBy(x, s, key))) == multiset(Firsts(s)) + multiset{x.0}
  {
    if s == [] {
    } else if key(x) <= key(s[0]) {
      FirstsCons(x, s);
    } else {
      var r := InsertBy(x, s[1..], key);
      FirstsInsertBy(x, s[1..], key);
      assert InsertBy(x, s, key) == [s[0]] + r;
      FirstsConsStep(x, s, r);
    }
  }

  /** The step of FirstsInsertBy where `x` goes behind the head of `s`, with `r` the insertion into the tail. */
  lemma FirstsConsStep<A, B>(x: (A, B), s: seq<(A, B)>, r: seq<(A, B)>)
    requires s != []
    requires multiset(Firsts(r)) == multiset(Firsts(s[1..])) + multiset{x.0}
    ensures multiset(Firsts([s[0]] + r)) == multiset(Firsts(s)) + multiset{x.0}
  {
    FirstsCons(s[0], r);
    FirstsCons(s[0], s[1..]);
    assert [s[0]] + s[1..] == s;
  }

  /** Sorting pairs permutes their first components. */
  lemma {:induction false} FirstsSortBy<A, B>(s: seq<(A, B)>, key: ((A, B)) -> real)
    ensures multiset(Firsts(SortBy(s, key))) == multiset(Firsts(s))
  {
    if s != [] {
      FirstsSortBy(s[1..], key);
      FirstsInsertBy(s[0], SortBy(s[1..], key), key);
      assert Firsts(s) == [s[0].0] + Firsts(s[1..]);
    }
  }
}
