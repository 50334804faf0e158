/** Python built-in behaviour the receivers depend on, stated once: slices with
    negative or out-of-range bounds, `str.find`, `str.split`, `str.replace`,
    `str(int)`, `int(str)`, `'%0Nd'` formatting, `list.reverse` and the
    insertion-ordered `dict`. */
module Py {

  datatype Option<+T> = None | Some(value: T)

  // ---------------------------------------------------------------- slices

  /** A slice bound normalised the Python way: a negative bound counts from
      the end, and the result is clamped into `0..n`. */
  function Bound(i: int, n: nat): (r: nat)
    ensures r <= n
    ensures 0 <= i ==> r == if i <= n then i else n
    ensures i < 0 ==> r == if n + i < 0 then 0 else n + i
  {
    if i < 0 then (if n + i < 0 then 0 else n + i) else if i > n then n else i
  }

  /** `s[i:j]` with Python's rules; never fails. */
  function Slice<T>(s: seq<T>, i: int, j: int): (r: seq<T>)
    ensures |r| <= |s|
  {
    var a, b := Bound(i, |s|), Bound(j, |s|);
    if a < b then s[a..b] else []
  }

  /** `s[:n]` for `n >= 0` keeps the first `min(n, |s|)` elements. */
  lemma SliceHead<T>(s: seq<T>, n: int)
    requires n >= 0
    ensures Slice(s, 0, n) == if n <= |s| then s[..n] else s
  {
  }

  /** `s[-n:]` for `n > 0` keeps the last `min(n, |s|)` elements; `s[-0:]` is all of `s`. */
  lemma SliceTail<T>(s: seq<T>, n: int)
    requires n >= 0
    ensures n == 0 ==> Slice(s, -n, |s|) == s
    ensures n > 0 ==> Slice(s, -n, |s|) == if n <= |s| then s[|s| - n..] else s
  {
  }

  // ---------------------------------------------------------------- find

  /** `sub` occurs in `s` starting at index `j`. */
  predicate MatchAt<T(==)>(s: seq<T>, sub: seq<T>, j: int)
  {
    0 <= j && j + |sub| <= |s| && s[j..j + |sub|] == sub
  }

  /** `s.find(sub)`: the first index where `sub` occurs, or -1. */
  function Find<T(==)>(s: seq<T>, sub: seq<T>): (k: int)
    ensures k == -1 || MatchAt(s, sub, k)
    ensures forall j :: 0 <= j && (k == -1 || j < k) ==> !MatchAt(s, sub, j)
  {
    FindFrom(s, sub, 0)
  }

  function FindFrom<T(==)>(s: seq<T>, sub: seq<T>, i: nat): (k: int)
    ensures k == -1 || (i <= k && MatchAt(s, sub, k))
    ensures forall j :: i <= j && (k == -1 || j < k) ==> !MatchAt(s, sub, j)
    decreases |s| - i
  {
    if i + |sub| > |s| then -1
    else if s[i..i + |sub|] == sub then i
    else FindFrom(s, sub, i + 1)
  }

  /** When every element before index `n` differs from `x`, the first `x` at `n` is what find reports. */
  lemma FindFirst<T>(s: seq<T>, x: T, n: nat)
    requires n < |s| && s[n] == x
    requires forall j :: 0 <= j < n ==> s[j] != x
    ensures Find(s, [x]) == n
  {
    assert MatchAt(s, [x], n);
    forall j | 0 <= j < n ensures !MatchAt(s, [x], j) {
      assert s[j..j + 1][0] == s[j];
    }
  }

  // ---------------------------------------------------------------- split / join

  /** `sep.join(parts)`. */
  function Join<T>(parts: seq<seq<T>>, sep: seq<T>): seq<T>
  {
    if |parts| == 0 then []
    else if |parts| == 1 then parts[0]
    else parts[0] + sep + Join(parts[1..], sep)
  }

  /** `s.split(sep)` for a non-empty separator: cut at every occurrence, left to right. */
  function Split<T(==)>(s: seq<T>, sep: seq<T>): (parts: seq<seq<T>>)
    requires |sep| > 0
    ensures |parts| >= 1
    ensures Join(parts, sep) == s
    decreases |s|
  {
    var k := Find(s, sep);
    if k < 0 then [s]
    else
      var rest := Split(s[k + |sep|..], sep);
      assert s == s[..k] + sep + s[k + |sep|..];
      [s[..k]] + rest
  }

  /** Splitting a joined sequence gives the parts back, provided the
      separator's first element occurs nowhere else (neither in a part nor
      later in the separator). */
  lemma {:induction false} SplitJoin<T>(parts: seq<seq<T>>, sep: seq<T>)
    requires |parts| >= 1 && |sep| > 0
    requires sep[0] !in sep[1..]
    requires forall i :: 0 <= i < |parts| ==> sep[0] !in parts[i]
    ensures Split(Join(parts, sep), sep) == parts
  {
    var s := Join(parts, sep);
    var p := parts[0];
    if |parts| == 1 {
      forall j | 0 <= j && j + |sep| <= |s| ensures !MatchAt(s, sep, j) {
        assert s[j..j + |sep|][0] == s[j] != sep[0];
      }
      assert Find(s, sep) == -1;
    } else {
      var rest := Join(parts[1..], sep);
      assert s == p + sep + rest;
      assert MatchAt(s, sep, |p|) by {
        assert s[|p|..|p| + |sep|] == sep;
      }
      forall j | 0 <= j < |p| ensures !MatchAt(s, sep, j) {
        assert s[j] == p[j] != sep[0];
        assert j + |sep| <= |s| ==> s[j..j + |sep|][0] == s[j];
      }
      assert Find(s, sep) == |p|;
      assert s[|p| + |sep|..] == rest;
      assert s[..|p|] == p;
      SplitJoin(parts[1..], sep);
    }
  }

  // ---------------------------------------------------------------- replace

  /** `s.replace(a, b)` for one-character `a` and `b`. */
  function ReplaceAll<T(==)>(s: seq<T>, a: T, b: T): (r: seq<T>)
    ensures |r| == |s|
    ensures forall i :: 0 <= i < |s| ==> r[i] == if s[i] == a then b else s[i]
  {
    if s == [] then [] else [if s[0] == a then b else s[0]] + ReplaceAll(s[1..], a, b)
  }

  // ---------------------------------------------------------------- integers as text

  predicate IsDigit(c: char) { '0' <= c <= '9' }

  predicate AllDigits(s: string) { forall i :: 0 <= i < |s| ==> IsDigit(s[i]) }

  function DigitChar(d: nat): (c: char)
    requires d < 10
    ensures IsDigit(c) && (c as int) - ('0' as int) == d
  {
    ('0' as int + d) as char
  }

  /** `str(n)` for `n >= 0`: decimal digits, no leading zero. */
  function NatStr(n: nat): (r: string)
    ensures |r| >= 1 && AllDigits(r)
    decreases n
  {
    if n < 10 then [DigitChar(n)] else NatStr(n / 10) + [DigitChar(n % 10)]
  }

  /** `str(n)` for any integer. */
  function Str(n: int): string
  {
    if n < 0 then "-" + NatStr(-n) else NatStr(n)
  }

  /** The value of a string of decimal digits. */
  function DigitsValue(s: string): nat
    requires AllDigits(s)
  {
    if s == [] then 0 else DigitsValue(s[..|s| - 1]) * 10 + ((s[|s| - 1] as int) - ('0' as int))
  }

  /** `int(s)` restricted to an optional sign followed by decimal digits. */
  function ParseInt(s: string): Option<int>
  {
    if |s| > 1 && s[0] == '-' && AllDigits(s[1..]) then Some(-(DigitsValue(s[1..]) as int))
    else if |s| > 1 && s[0] == '+' && AllDigits(s[1..]) then Some(DigitsValue(s[1..]))
    else if |s| > 0 && AllDigits(s) then Some(DigitsValue(s))
    else None
  }

  /** A non-empty run of digits parses as its value. */
  lemma ParseDigits(s: string)
    requires |s| > 0 && AllDigits(s)
    ensures ParseInt(s) == Some(DigitsValue(s))
  {
    assert IsDigit(s[0]);
  }

  lemma {:induction false} NatStrValue(n: nat)
    ensures DigitsValue(NatStr(n)) == n
    decreases n
  {
    if n >= 10 {
      var s := NatStr(n);
      assert s[..|s| - 1] == NatStr(n / 10);
      NatStrValue(n / 10);
    }
  }

  /** `int(str(n)) == n`. */
  lemma ParseStr(n: int)
    ensures ParseInt(Str(n)) == Some(n)
  {
    if n < 0 {
      NatStrValue(-n);
      assert Str(n)[1..] == NatStr(-n);
    } else {
      NatStrValue(n);
    }
  }

  /** Left-pads `s` with `c` up to `width` characters. */
  function PadLeft(s: string, width: int, c: char): (r: string)
    ensures |r| == if |s| < width then width else |s|
    ensures r[|r| - |s|..] == s
    ensures forall i :: 0 <= i < |r| - |s| ==> r[i] == c
  {
    if |s| < width then seq(width - |s|, _ => c) + s else s
  }

  /** `'%0{width}d' % n`: zero-padded decimal, the sign counting towards the width. */
  function FormatD(n: int, width: nat): string
  {
    if n < 0 then "-" + PadLeft(NatStr(-n), width - 1, '0') else PadLeft(NatStr(n), width, '0')
  }

  /** The value of a zero-padded digit string is that of its digits. */
  lemma {:induction false} LeadingZeros(s: string, k: nat)
    requires AllDigits(s) && k <= |s|
    requires forall i :: 0 <= i < k ==> s[i] == '0'
    ensures DigitsValue(s) == DigitsValue(s[k..])
    decreases |s|
  {
    if |s| > k {
      assert s[..|s| - 1][k..] == s[k..][..|s| - k - 1];
      LeadingZeros(s[..|s| - 1], k);
    } else {
      assert s[k..] == [];
      ZerosValue(s);
    }
  }

  lemma {:induction false} ZerosValue(s: string)
    requires forall i :: 0 <= i < |s| ==> s[i] == '0'
    ensures AllDigits(s) && DigitsValue(s) == 0
  {
    if s != [] {
      ZerosValue(s[..|s| - 1]);
    }
  }

  /** Reading a `'%0Nd'` field of a non-negative number back gives the number. */
  lemma FormatDValue(n: nat, width: nat)
    ensures AllDigits(FormatD(n, width)) && DigitsValue(FormatD(n, width)) == n
    ensures |FormatD(n, width)| == if |NatStr(n)| < width then width else |NatStr(n)|
  {
    var r := FormatD(n, width);
    var k := |r| - |NatStr(n)|;
    assert r[k..] == NatStr(n);
    assert AllDigits(r) by {
      forall i | 0 <= i < |r| ensures IsDigit(r[i]) {
        if i >= k { assert r[i] == r[k..][i - k]; }
      }
    }
    LeadingZeros(r, k);
    NatStrValue(n);
  }

  /** A number below 10^w prints in at most w digits. */
  lemma {:induction false} NatStrLength(n: nat, w: nat)
    requires w >= 1 && n < Pow10(w)
    ensures |NatStr(n)| <= w
    decreases n
  {
    if n >= 10 {
      NatStrLength(n / 10, w - 1);
    }
  }

  function Pow10(w: nat): (r: nat)
    ensures r >= 1
  {
    if w == 0 then 1 else 10 * Pow10(w - 1)
  }

  // ---------------------------------------------------------------- list.reverse

  /** `list.reverse()`: element `i` of the result is element `len - 1 - i`. */
  function Reverse<T>(s: seq<T>): (r: seq<T>)
    ensures |r| == |s|
    ensures forall i :: 0 <= i < |s| ==> r[i] == s[|s| - 1 - i]
  {
    if s == [] then [] else Reverse(s[1..]) + [s[0]]
  }

  /** Reversing twice restores the list. */
  lemma ReverseReverse<T>(s: seq<T>)
    ensures Reverse(Reverse(s)) == s
  {
    var r := Reverse(s);
    assert forall k :: 0 <= k < |s| ==> Reverse(r)[k] == r[|s| - 1 - k] == s[k];
  }

  // ---------------------------------------------------------------- dict

  /** A Python `dict`, kept as its items in insertion order. */
  type Dict<K, V> = seq<(K, V)>

  function Keys<K, V>(d: Dict<K, V>): (ks: seq<K>)
    ensures |ks| == |d|
    ensures forall i :: 0 <= i < |d| ==> ks[i] == d[i].0
  {
    if d == [] then [] else [d[0].0] + Keys(d[1..])
  }

  /** No key occurs twice, as in every Python dict. */
  predicate DistinctKeys<K(==), V>(d: Dict<K, V>)
  {
    forall i, j :: 0 <= i < j < |d| ==> d[i].0 != d[j].0
  }

  /** `d.get(k)`. */
  function Get<K(==), V>(d: Dict<K, V>, k: K): (r: Option<V>)
    ensures r.None? <==> k !in Keys(d)
  {
    if d == [] then None else if d[0].0 == k then Some(d[0].1) else Get(d[1..], k)
  }

  /** `d[k] = v`: an existing key keeps its position, a new key goes last. */
  function Put<K(==, !new), V>(d: Dict<K, V>, k: K, v: V): (r: Dict<K, V>)
    ensures Get(r, k) == Some(v)
    ensures Keys(r) == if k in Keys(d) then Keys(d) else Keys(d) + [k]
  {
    if d == [] then [(k, v)]
    else if d[0].0 == k then
      var r := [(k, v)] + d[1..];
      assert r[1..] == d[1..];
      r
    else
      var tail := Put(d[1..], k, v);
      var r := [d[0]] + tail;
      assert r[0] == d[0] && r[1..] == tail;
      assert Keys(r) == [d[0].0] + Keys(tail);
      assert Keys(d) == [d[0].0] + Keys(d[1..]);
      r
  }

  /** Assigning a key leaves every other key's value as it was. */
  lemma {:induction false} PutOther<K(!new), V>(d: Dict<K, V>, k: K, v: V, k': K)
    requires k' != k
    ensures Get(Put(d, k, v), k') == Get(d, k')
  {
    if d != [] && d[0].0 != k {
      PutOther(d[1..], k, v, k');
      assert Put(d, k, v)[1..] == Put(d[1..], k, v);
    } else if d != [] {
      assert Put(d, k, v)[1..] == d[1..];
    }
  }

  /** Assigning a key keeps the keys distinct. */
  lemma PutDistinct<K(!new), V>(d: Dict<K, V>, k: K, v: V)
    requires DistinctKeys(d)
    ensures DistinctKeys(Put(d, k, v))
  {
    var r := Put(d, k, v);
    var ks := Keys(d);
    forall i, j | 0 <= i < j < |r| ensures r[i].0 != r[j].0 {
      assert r[i].0 == Keys(r)[i] && r[j].0 == Keys(r)[j];
      if j < |ks| {
        assert Keys(r)[i] == d[i].0 && Keys(r)[j] == d[j].0;
      } else {
        assert Keys(r)[i] == ks[i] && Keys(r)[j] == k;
      }
    }
  }
}
