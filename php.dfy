/**
 * The few pieces of PHP runtime behaviour the import pipeline relies on:
 * optional values (PHP's `false`/`null` returns), decimal rendering of
 * integers, the string helpers it calls (`strpos`, `explode`, `trim`,
 * `rtrim`, `substr`), string truthiness, and PHP arrays used as ordered maps.
 */
module Php {

  datatype Option<+T> = None | Some(value: T)

  // ---------------------------------------------------------------------
  // Sequences
  // ---------------------------------------------------------------------

  /** The elements of `s` that satisfy `p`, in their original order. */
  function Filter<T(!new)>(s: seq<T>, p: T -> bool): (r: seq<T>)
    ensures |r| <= |s|
    ensures forall x :: x in r <==> x in s && p(x)
  {
    if s == [] then []
    else
      var init := s[..|s| - 1];
      assert s == init + [s[|s| - 1]];
      Filter(init, p) + (if p(s[|s| - 1]) then [s[|s| - 1]] else [])
  }

  lemma FilterAppend<T(!new)>(s: seq<T>, x: T, p: T -> bool)
    ensures Filter(s + [x], p) == Filter(s, p) + (if p(x) then [x] else [])
  {
    assert (s + [x])[..|s + [x]| - 1] == s;
  }

  lemma FilterSingleton<T(!new)>(x: T, p: T -> bool)
    requires p(x)
    ensures Filter([x], p) == [x]
  {
    FilterAppend([], x, p);
    assert [] + [x] == [x];
  }

  /** Filtering by a conjunction is filtering twice. */
  lemma {:induction false} FilterConjunction<T(!new)>(s: seq<T>, p: T -> bool, q: T -> bool, pq: T -> bool)
    requires forall x :: pq(x) == (p(x) && q(x))
    ensures Filter(s, pq) == Filter(Filter(s, p), q)
  {
    if s != [] {
      var init := s[..|s| - 1];
      var x := s[|s| - 1];
      assert s == init + [x];
      FilterConjunction(init, p, q, pq);
      FilterAppend(init, x, pq);
      FilterAppend(init, x, p);
      FilterAppend(Filter(init, p), x, q);
      assert pq(x) == (p(x) && q(x));
      if p(x) {
        assert Filter(Filter(s, p), q) == Filter(Filter(init, p) + [x], q);
      } else {
        assert Filter(s, p) == Filter(init, p);
      }
    }
  }

  lemma {:induction false} FilterNone<T(!new)>(s: seq<T>, p: T -> bool)
    requires forall x :: x in s ==> !p(x)
    ensures Filter(s, p) == []
  {
    if s != [] {
      var init := s[..|s| - 1];
      assert s == init + [s[|s| - 1]];
      FilterNone(init, p);
      FilterAppend(init, s[|s| - 1], p);
    }
  }

  /** Filtering by predicates that agree on the elements gives the same result. */
  lemma {:induction false} FilterAgree<T(!new)>(s: seq<T>, p: T -> bool, q: T -> bool)
    requires forall x :: x in s ==> p(x) == q(x)
    ensures Filter(s, p) == Filter(s, q)
  {
    if s != [] {
      var init := s[..|s| - 1];
      assert s == init + [s[|s| - 1]];
      FilterAgree(init, p, q);
      FilterAppend(init, s[|s| - 1], p);
      FilterAppend(init, s[|s| - 1], q);
    }
  }

  lemma AppendAssoc<T>(a: seq<T>, b: seq<T>, c: seq<T>)
    ensures a + (b + c) == a + b + c
  {
  }

  /** The first part of a concatenation, and the element right after it. */
  lemma AppendParts<T>(a: seq<T>, b: seq<T>)
    ensures |a + b| == |a| + |b| && (a + b)[..|a|] == a
    ensures |b| > 0 ==> (a + b)[|a|] == b[0]
  {
  }

  function MapSeq<T, U>(s: seq<T>, f: T -> U): (r: seq<U>)
    ensures |r| == |s|
    ensures forall i :: 0 <= i < |s| ==> r[i] == f(s[i])
  {
    seq(|s|, i requires 0 <= i < |s| => f(s[i]))
  }

  lemma MapSeqAppend<T, U>(s: seq<T>, x: T, f: T -> U)
    ensures MapSeq(s + [x], f) == MapSeq(s, f) + [f(x)]
  {
  }

  function Concat(parts: seq<string>): (r: string)
  {
    if parts == [] then "" else Concat(parts[..|parts| - 1]) + parts[|parts| - 1]
  }

  lemma ConcatAppend(parts: seq<string>, x: string)
    ensures Concat(parts + [x]) == Concat(parts) + x
  {
    assert (parts + [x])[..|parts|] == parts;
  }

  /** `implode(sep, parts)`. */
  function Join(parts: seq<string>, sep: string): (r: string)
  {
    if parts == [] then ""
    else if |parts| == 1 then parts[0]
    else Join(parts[..|parts| - 1], sep) + sep + parts[|parts| - 1]
  }

  lemma JoinAppend(parts: seq<string>, x: string, sep: string)
    requires parts != []
    ensures Join(parts + [x], sep) == Join(parts, sep) + sep + x
  {
    assert (parts + [x])[..|parts|] == parts;
  }

  lemma JoinEndsWithLast(parts: seq<string>, sep: string)
    requires parts != []
    ensures IsSuffix(parts[|parts| - 1], Join(parts, sep))
  {
    if |parts| > 1 {
      var init := parts[..|parts| - 1];
      assert parts == init + [parts[|parts| - 1]];
      JoinAppend(init, parts[|parts| - 1], sep);
    }
  }

  // ---------------------------------------------------------------------
  // Integers rendered as decimal strings
  // ---------------------------------------------------------------------

  predicate IsDigit(c: char) { '0' <= c <= '9' }

  function DigitChar(d: nat): (c: char)
    requires d < 10
    ensures IsDigit(c)
  {
    ('0' as int + d) as char
  }

  function NatToString(n: nat): (s: string)
    decreases n
  {
    if n < 10 then [DigitChar(n)] else NatToString(n / 10) + [DigitChar(n % 10)]
  }

  /** PHP's string conversion of an integer. */
  function IntToString(i: int): (s: string)
  {
    if i < 0 then "-" + NatToString(-i) else NatToString(i)
  }

  /** The decimal rendering of an integer is never empty and ends in a digit. */
  lemma IntToStringEndsInDigit(i: int)
    ensures |IntToString(i)| > 0 && IsDigit(IntToString(i)[|IntToString(i)| - 1])
  {
    var n: nat := if i < 0 then -i else i;
    assert |NatToString(n)| > 0 && IsDigit(NatToString(n)[|NatToString(n)| - 1]);
  }

  // ---------------------------------------------------------------------
  // String helpers
  // ---------------------------------------------------------------------

  predicate IsPrefix(p: string, s: string) { |p| <= |s| && s[..|p|] == p }

  predicate IsSuffix(p: string, s: string) { |p| <= |s| && s[|s| - |p|..] == p }

  /** A prefix of the first part is a prefix of the whole. */
  lemma PrefixOfAppend(p: string, a: string, b: string)
    requires IsPrefix(p, a)
    ensures IsPrefix(p, a + b)
  {
    assert (a + b)[..|p|] == a[..|p|];
  }

  /** A suffix of the last part is a suffix of the whole. */
  lemma SuffixOfAppend(p: string, a: string, b: string)
    requires IsSuffix(p, b)
    ensures IsSuffix(p, a + b)
  {
    assert (a + b)[|a + b| - |p|..] == b[|b| - |p|..];
  }

  /** The first part, the first two parts and the last part of a three-part text. */
  lemma ThreeParts(a: string, b: string, c: string)
    ensures IsPrefix(a, a + b + c) && IsPrefix(a + b, a + b + c) && IsSuffix(c, a + b + c)
  {
    PrefixOfAppend(a, a, b);
    PrefixOfAppend(a, a + b, c);
    PrefixOfAppend(a + b, a + b, c);
    SuffixOfAppend(c, a + b, c);
  }

  /** A suffix of a suffix is a suffix. */
  lemma SuffixTrans(p: string, q: string, s: string)
    requires IsSuffix(p, q) && IsSuffix(q, s)
    ensures IsSuffix(p, s)
  {
    assert s[|s| - |p|..] == s[|s| - |q|..][|q| - |p|..];
  }

  /** `pat` occurs in `s` at position `j`. */
  predicate OccursAt(s: string, pat: string, j: int)
  {
    0 <= j && j + |pat| <= |s| && s[j..j + |pat|] == pat
  }

  /** `strpos(s, pat)`: the first position at which `pat` occurs, if any. */
  function IndexOf(s: string, pat: string): (r: Option<nat>)
    requires |pat| > 0
    ensures r.Some? ==> OccursAt(s, pat, r.value)
    ensures r.Some? ==> forall j :: 0 <= j < r.value ==> !OccursAt(s, pat, j)
    ensures r.None? ==> forall j :: !OccursAt(s, pat, j)
  {
    IndexFrom(s, pat, 0)
  }

  /** The first occurrence of `pat` in `s` at or after position `from`. */
  function IndexFrom(s: string, pat: string, from: nat): (r: Option<nat>)
    requires |pat| > 0
    ensures r.Some? ==> from <= r.value && OccursAt(s, pat, r.value)
    ensures r.Some? ==> forall j :: from <= j < r.value ==> !OccursAt(s, pat, j)
    ensures r.None? ==> forall j :: from <= j ==> !OccursAt(s, pat, j)
    decreases |s| - from
  {
    if from + |pat| > |s| then None
    else if OccursAt(s, pat, from) then Some(from)
    else IndexFrom(s, pat, from + 1)
  }

  /** The text after the first occurrence of `sep`, if `sep` occurs. */
  function AfterFirst(s: string, sep: string): (r: Option<string>)
    requires |sep| > 0
  {
    match IndexOf(s, sep)
    case None => None
    case Some(i) => Some(s[i + |sep|..])
  }

  /** The text before the first occurrence of `sep`, or all of `s`. */
  function BeforeFirst(s: string, sep: string): (r: string)
    requires |sep| > 0
    ensures IsPrefix(r, s)
  {
    match IndexOf(s, sep)
    case None => s
    case Some(i) => s[..i]
  }

  /** `substr(s, -2)`: the last two characters, or all of a shorter string. */
  function LastTwo(s: string): (r: string)
  {
    if |s| <= 2 then s else s[|s| - 2..]
  }

  /** The characters PHP's `trim` strips by default. */
  predicate IsTrimSpace(c: char)
  {
    c == ' ' || c == '\t' || c == '\n' || c == '\r' || c as int == 0 || c as int == 11
  }

  function TrimLeft(s: string): (r: string)
    ensures |r| <= |s|
    ensures r == s[|s| - |r|..]
    ensures |r| > 0 ==> !IsTrimSpace(r[0])
  {
    if |s| > 0 && IsTrimSpace(s[0]) then TrimLeft(s[1..]) else s
  }

  function TrimRight(s: string): (r: string)
    ensures IsPrefix(r, s)
    ensures |r| > 0 ==> !IsTrimSpace(r[|r| - 1])
  {
    if |s| > 0 && IsTrimSpace(s[|s| - 1]) then TrimRight(s[..|s| - 1]) else s
  }

  /** `trim(s)`. */
  function Trim(s: string): string
  {
    TrimLeft(TrimRight(s))
  }

  /** `rtrim(s, c)` for a single character `c`. */
  function RTrimChar(s: string, c: char): (r: string)
    ensures IsPrefix(r, s)
    ensures |r| > 0 ==> r[|r| - 1] != c
  {
    if |s| > 0 && s[|s| - 1] == c then RTrimChar(s[..|s| - 1], c) else s
  }

  /** A string that PHP treats as false in a condition. */
  predicate Falsy(s: string) { s == "" || s == "0" }

  // ---------------------------------------------------------------------
  // PHP arrays used as ordered maps
  // ---------------------------------------------------------------------

  /** A PHP array with keys of type K: entries in insertion order. */
  type OMap<K, V> = seq<(K, V)>

  function Keys<K, V>(m: OMap<K, V>): (ks: seq<K>)
    ensures |ks| == |m|
    ensures forall i :: 0 <= i < |m| ==> ks[i] == m[i].0
  {
    seq(|m|, i requires 0 <= i < |m| => m[i].0)
  }

  function Values<K, V>(m: OMap<K, V>): (vs: seq<V>)
    ensures |vs| == |m|
    ensures forall i :: 0 <= i < |m| ==> vs[i] == m[i].1
  {
    seq(|m|, i requires 0 <= i < |m| => m[i].1)
  }

  /** `m[k]`, or nothing when `k` is not a key. */
  function Get<K(==), V>(m: OMap<K, V>, k: K): (r: Option<V>)
    ensures r.None? <==> k !in Keys(m)
  {
    if m == [] then None
    else if m[0].0 == k then Some(m[0].1)
    else
      assert Keys(m) == [m[0].0] + Keys(m[1..]);
      Get(m[1..], k)
  }

  /** Every key occurs once. */
  predicate DistinctKeys<K(==), V>(m: OMap<K, V>)
  {
    forall i, j :: 0 <= i < j < |m| ==> m[i].0 != m[j].0
  }

  /** No value occurs twice. */
  predicate DistinctValues<K, V(==)>(m: OMap<K, V>)
  {
    forall i, j :: 0 <= i < j < |m| ==> m[i].1 != m[j].1
  }

  /** The entry `Get` finds. */
  lemma {:induction false} GetIsEntry<K, V>(m: OMap<K, V>, k: K)
    requires Get(m, k).Some?
    ensures exists i :: 0 <= i < |m| && m[i].0 == k && m[i].1 == Get(m, k).value
  {
    if m[0].0 != k {
      GetIsEntry(m[1..], k);
      var i :| 0 <= i < |m[1..]| && m[1..][i].0 == k && m[1..][i].1 == Get(m[1..], k).value;
      assert m[i + 1] == m[1..][i];
    }
  }

  /** `array_search(v, m)`: the first key whose value is `v`. */
  function KeyOf<K, V(==)>(m: OMap<K, V>, v: V): Option<K>
  {
    if m == [] then None
    else if m[0].1 == v then Some(m[0].0)
    else KeyOf(m[1..], v)
  }

  /** With distinct values, searching for the value a key maps to gives back that key. */
  lemma {:induction false} KeyOfInvertsGet<K, V>(m: OMap<K, V>, k: K)
    requires DistinctValues(m) && Get(m, k).Some?
    ensures KeyOf(m, Get(m, k).value) == Some(k)
  {
    if m[0].0 != k {
      var v := Get(m, k).value;
      GetIsEntry(m[1..], k);
      var i :| 0 <= i < |m[1..]| && m[1..][i].0 == k && m[1..][i].1 == v;
      assert m[i + 1] == m[1..][i];
      assert m[0].1 != v;
      KeyOfInvertsGet(m[1..], k);
    }
  }

  /** Looking a key up in an array with one entry in front. */
  lemma GetCons<K, V>(x: (K, V), rest: OMap<K, V>, k: K)
    ensures Get([x] + rest, k) == if x.0 == k then Some(x.1) else Get(rest, k)
  {
    assert ([x] + rest)[1..] == rest;
  }

  /** `m[k] = v`: an existing key keeps its position and takes the new value;
      a new key is appended.  Its properties are the lemmas below. */
  function Put<K(==), V>(m: OMap<K, V>, k: K, v: V): OMap<K, V>
  {
    if m == [] then [(k, v)]
    else if m[0].0 == k then [(k, v)] + m[1..]
    else [m[0]] + Put(m[1..], k, v)
  }

  /** After `m[k] = v`, `k` maps to `v` and every other key to what it mapped to before. */
  lemma {:induction false} PutGet<K, V>(m: OMap<K, V>, k: K, v: V, k': K)
    ensures Get(Put(m, k, v), k') == if k' == k then Some(v) else Get(m, k')
  {
    if m == [] {
      GetCons((k, v), [], k');
      assert Put(m, k, v) == [(k, v)] + [];
    } else {
      assert m == [m[0]] + m[1..];
      GetCons(m[0], m[1..], k');
      if m[0].0 == k {
        GetCons((k, v), m[1..], k');
      } else {
        PutGet(m[1..], k, v, k');
        GetCons(m[0], Put(m[1..], k, v), k');
      }
    }
  }

  lemma KeysCons<K, V>(x: (K, V), rest: OMap<K, V>)
    ensures Keys([x] + rest) == [x.0] + Keys(rest)
  {
  }

  /** `m[k] = v` keeps the key order, appending `k` when it is new. */
  lemma {:induction false} PutKeys<K, V>(m: OMap<K, V>, k: K, v: V)
    ensures k in Keys(m) ==> Keys(Put(m, k, v)) == Keys(m)
    ensures k !in Keys(m) ==> Keys(Put(m, k, v)) == Keys(m) + [k]
  {
    if m == [] {
      assert Keys(Put(m, k, v)) == [k];
    } else {
      assert m == [m[0]] + m[1..];
      KeysCons(m[0], m[1..]);
      if m[0].0 == k {
        KeysCons((k, v), m[1..]);
      } else {
        PutKeys(m[1..], k, v);
        KeysCons(m[0], Put(m[1..], k, v));
        assert k in Keys(m) <==> k in Keys(m[1..]);
        if k !in Keys(m) {
          assert [m[0].0] + (Keys(m[1..]) + [k]) == ([m[0].0] + Keys(m[1..])) + [k];
        }
      }
    }
  }

  /** Everything `m[k] = v` promises, for every other key at once. */
  lemma PutSpec<K(!new), V>(m: OMap<K, V>, k: K, v: V)
    ensures Get(Put(m, k, v), k) == Some(v)
    ensures forall k' :: k' != k ==> Get(Put(m, k, v), k') == Get(m, k')
    ensures k in Keys(m) ==> Keys(Put(m, k, v)) == Keys(m)
    ensures k !in Keys(m) ==> Keys(Put(m, k, v)) == Keys(m) + [k]
  {
    PutKeys(m, k, v);
    forall k' {
      PutGet(m, k, v, k');
    }
  }

  lemma PutKeepsDistinct<K(!new), V>(m: OMap<K, V>, k: K, v: V)
    requires DistinctKeys(m)
    ensures DistinctKeys(Put(m, k, v))
  {
    var r := Put(m, k, v);
    var ks := Keys(r);
    PutKeys(m, k, v);
    forall i, j | 0 <= i < j < |r| ensures r[i].0 != r[j].0 {
      assert r[i].0 == ks[i] && r[j].0 == ks[j];
      if j < |m| {
        assert ks[i] == Keys(m)[i] == m[i].0;
        assert ks[j] == Keys(m)[j] == m[j].0;
      } else {
        assert ks[i] == Keys(m)[i];
      }
    }
  }

  /** `unset(m[k])`. */
  function Unset<K(==,!new), V>(m: OMap<K, V>, k: K): (r: OMap<K, V>)
    ensures Get(r, k) == None
    ensures forall k' :: k' != k ==> Get(r, k') == Get(m, k')
  {
    if m == [] then []
    else if m[0].0 == k then Unset(m[1..], k)
    else
      var r := [m[0]] + Unset(m[1..], k);
      assert r[1..] == Unset(m[1..], k);
      r
  }

  /** `unset(m[k])` for every listed key. */
  function UnsetAll<K(==,!new), V>(m: OMap<K, V>, ks: seq<K>): (r: OMap<K, V>)
    ensures forall k :: k in ks ==> Get(r, k) == None
    ensures forall k :: k !in ks ==> Get(r, k) == Get(m, k)
  {
    if ks == [] then m else Unset(UnsetAll(m, ks[..|ks| - 1]), ks[|ks| - 1])
  }

  /** Looking a key up after appending an entry: earlier entries win. */
  lemma {:induction false} GetAppend<K, V>(m: OMap<K, V>, k': K, v': V, k: K)
    ensures Get(m + [(k', v')], k) == if k in Keys(m) then Get(m, k) else if k == k' then Some(v') else None
  {
    if m != [] {
      assert (m + [(k', v')])[1..] == m[1..] + [(k', v')];
      assert Keys(m) == [m[0].0] + Keys(m[1..]);
      GetAppend(m[1..], k', v', k);
    }
  }

  /** `foreach ($extra as $k => $v) { $m[$k] = $v; }` */
  function PutAll<K(==,!new), V>(m: OMap<K, V>, extra: OMap<K, V>): OMap<K, V>
  {
    if extra == [] then m
    else Put(PutAll(m, extra[..|extra| - 1]), extra[|extra| - 1].0, extra[|extra| - 1].1)
  }

  /** The extra pairs overwrite the keys they name and leave the others alone. */
  lemma {:induction false} PutAllGet<K(!new), V>(m: OMap<K, V>, extra: OMap<K, V>, k: K)
    requires DistinctKeys(extra)
    ensures Get(PutAll(m, extra), k) == if k in Keys(extra) then Get(extra, k) else Get(m, k)
  {
    if extra != [] {
      var init := extra[..|extra| - 1];
      var last := extra[|extra| - 1];
      assert extra == init + [last];
      assert Keys(extra) == Keys(init) + [last.0];
      PutAllGet(m, init, k);
      PutGet(PutAll(m, init), last.0, last.1, k);
      GetAppend(init, last.0, last.1, k);
      if k == last.0 {
        forall i | 0 <= i < |init| ensures init[i].0 != k {
          assert extra[i].0 != extra[|extra| - 1].0;
        }
      }
    }
  }

  /** Existing keys keep their places at the front. */
  lemma {:induction false} PutAllKeepsOrder<K(!new), V>(m: OMap<K, V>, extra: OMap<K, V>)
    ensures |PutAll(m, extra)| >= |m| && Keys(PutAll(m, extra))[..|m|] == Keys(m)
  {
    if extra != [] {
      var init := extra[..|extra| - 1];
      PutAllKeepsOrder(m, init);
      var p := PutAll(m, init);
      var last := extra[|extra| - 1];
      PutKeys(p, last.0, last.1);
      if last.0 !in Keys(p) {
        assert (Keys(p) + [last.0])[..|m|] == Keys(p)[..|m|];
      }
    }
  }

  /** Pairs with new, distinct keys are appended in their own order. */
  lemma {:induction false} PutAllFreshKeys<K(!new), V>(m: OMap<K, V>, extra: OMap<K, V>)
    requires DistinctKeys(extra)
    requires forall k :: k in Keys(extra) ==> k !in Keys(m)
    ensures Keys(PutAll(m, extra)) == Keys(m) + Keys(extra)
  {
    if extra != [] {
      var init := extra[..|extra| - 1];
      var last := extra[|extra| - 1];
      assert extra == init + [last];
      assert Keys(extra) == Keys(init) + [last.0];
      assert DistinctKeys(init) by {
        forall i, j | 0 <= i < j < |init| ensures init[i].0 != init[j].0 {
          assert init[i] == extra[i] && init[j] == extra[j];
        }
      }
      PutAllFreshKeys(m, init);
      forall i | 0 <= i < |init| ensures init[i].0 != last.0 {
        assert extra[i].0 != extra[|extra| - 1].0;
      }
      assert last.0 in Keys(extra);
      var p := PutAll(m, init);
      assert last.0 !in Keys(p);
      PutKeys(p, last.0, last.1);
      assert Keys(Put(p, last.0, last.1)) == Keys(p) + [last.0];
      AppendAssoc(Keys(m), Keys(init), [last.0]);
    }
  }
}
