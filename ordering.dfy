/**
 * Sorting and paging as the handlers use them.
 *
 * Every handler sorts with `Array.prototype.sort` and a comparator that
 * compares one key of two elements (`a > b ? 1 : a < b ? -1 : 0`, or its
 * negation for descending order). That sort is stable, so its result is
 * determined by the key: the elements ordered by key, with ties in input
 * order. `SortBy` computes that result as a stable insertion sort.
 */
module Ordering {
  import opened JsString

  /** A sort key: a number (sizes, times, counts) or a string (names, types). */
  datatype SortKey = Num(n: real) | Text(t: string)

  predicate KeyLe(a: SortKey, b: SortKey) {
    match (a, b)
    case (Num(x), Num(y)) => x <= y
    case (Text(x), Text(y)) => LexLe(x, y)
    case (Num(_), Text(_)) => true
    case (Text(_), Num(_)) => false
  }

  /** `a` may precede `b` in ascending (or, with `desc`, descending) order. */
  predicate Before(a: SortKey, b: SortKey, desc: bool) {
    if desc then KeyLe(b, a) else KeyLe(a, b)
  }

  lemma BeforeTotal(a: SortKey, b: SortKey, desc: bool)
    ensures Before(a, b, desc) || Before(b, a, desc)
  {
    if a.Text? && b.Text? {
      LexLeTotal(a.t, b.t);
    }
  }

  lemma BeforeTrans(a: SortKey, b: SortKey, c: SortKey, desc: bool)
    requires Before(a, b, desc) && Before(b, c, desc)
    ensures Before(a, c, desc)
  {
    if a.Text? && b.Text? && c.Text? {
      if desc {
        LexLeTrans(c.t, b.t, a.t);
      } else {
        LexLeTrans(a.t, b.t, c.t);
      }
    }
  }

  /** Every earlier element may precede every later one. */
  predicate SortedBy<T>(s: seq<T>, key: T -> SortKey, desc: bool) {
    forall i, j :: 0 <= i < j < |s| ==> Before(key(s[i]), key(s[j]), desc)
  }

  /** Places `x` in front of the first element it may precede. */
  function Insert<T>(x: T, s: seq<T>, key: T -> SortKey, desc: bool): (r: seq<T>)
    ensures |r| == |s| + 1
    ensures multiset(r) == multiset(s) + multiset{x}
    decreases |s|
  {
    if |s| == 0 then [x]
    else if Before(key(x), key(s[0]), desc) then [x] + s
    else
      assert s == [s[0]] + s[1..];
      [s[0]] + Insert(x, s[1..], key, desc)
  }

  lemma {:induction false} InsertSorted<T>(x: T, s: seq<T>, key: T -> SortKey, desc: bool)
    requires SortedBy(s, key, desc)
    ensures SortedBy(Insert(x, s, key, desc), key, desc)
    decreases |s|
  {
    if |s| == 0 {
    } else if Before(key(x), key(s[0]), desc) {
      forall j | 0 < j < |s|
        ensures Before(key(x), key(s[j]), desc)
      {
        BeforeTrans(key(x), key(s[0]), key(s[j]), desc);
      }
    } else {
      var t := Insert(x, s[1..], key, desc);
      InsertSorted(x, s[1..], key, desc);
      BeforeTotal(key(x), key(s[0]), desc);
      forall j | 0 <= j < |t|
        ensures Before(key(s[0]), key(t[j]), desc)
      {
        assert t[j] in multiset(t);
        if t[j] != x {
          assert t[j] in multiset(s[1..]);
          var k :| 0 <= k < |s[1..]| && s[1..][k] == t[j];
          assert s[k + 1] == t[j];
        }
      }
    }
  }

  /**
   * The stable sort by `key`: a permutation of `s`, ordered by key.
   */
  function SortBy<T>(s: seq<T>, key: T -> SortKey, desc: bool): (r: seq<T>)
    ensures |r| == |s|
    ensures multiset(r) == multiset(s)
    ensures SortedBy(r, key, desc)
    decreases |s|
  {
    if |s| == 0 then []
    else
      var rest := SortBy(s[1..], key, desc);
      InsertSorted(s[0], rest, key, desc);
      ConsMultiset(s);
      Insert(s[0], rest, key, desc)
  }

  lemma ConsMultiset<T>(s: seq<T>)
    requires |s| > 0
    ensures multiset(s) == multiset(s[1..]) + multiset{s[0]}
  {
    assert s == [s[0]] + s[1..];
  }

  /** `Insert` puts `x` after exactly the leading elements it may not precede. */
  lemma {:induction false} InsertSplit<T>(x: T, s: seq<T>, key: T -> SortKey, desc: bool) returns (k: nat)
    ensures k <= |s| && Insert(x, s, key, desc) == s[..k] + [x] + s[k..]
    ensures forall i :: 0 <= i < k ==> !Before(key(x), key(s[i]), desc)
    decreases |s|
  {
    if |s| == 0 || Before(key(x), key(s[0]), desc) {
      k := 0;
    } else {
      var k1 := InsertSplit(x, s[1..], key, desc);
      k := k1 + 1;
      assert s[..k] == [s[0]] + s[1..][..k1];
      assert s[k..] == s[1..][k1..];
    }
  }

  /** Within each group of equal `key`, the elements are ordered by `inner`. */
  predicate GroupsSortedBy<T>(s: seq<T>, key: T -> SortKey, inner: T -> SortKey, idesc: bool) {
    forall i, j :: 0 <= i < j < |s| && key(s[i]) == key(s[j]) ==> Before(inner(s[i]), inner(s[j]), idesc)
  }

  /**
   * The sort is stable: sorting a list already ordered by `inner` keeps that
   * order among elements with the same `key`.
   */
  lemma {:induction false} SortByStable<T>(s: seq<T>, key: T -> SortKey, desc: bool, inner: T -> SortKey, idesc: bool)
    requires SortedBy(s, inner, idesc)
    ensures GroupsSortedBy(SortBy(s, key, desc), key, inner, idesc)
    decreases |s|
  {
    if |s| > 0 {
      var x := s[0];
      var rest := SortBy(s[1..], key, desc);
      SortByStable(s[1..], key, desc, inner, idesc);
      forall e | e in rest
        ensures Before(inner(x), inner(e), idesc)
      {
        assert e in multiset(s[1..]);
        var m :| 0 <= m < |s[1..]| && s[1..][m] == e;
        assert s[m + 1] == e;
      }
      var k := InsertSplit(x, rest, key, desc);
      InsertGroups(x, rest, k, key, desc, inner, idesc);
    }
  }

  lemma InsertGroups<T>(x: T, rest: seq<T>, k: nat, key: T -> SortKey, desc: bool, inner: T -> SortKey, idesc: bool)
    requires k <= |rest| && GroupsSortedBy(rest, key, inner, idesc)
    requires forall e :: e in rest ==> Before(inner(x), inner(e), idesc)
    requires forall i :: 0 <= i < k ==> !Before(key(x), key(rest[i]), desc)
    ensures GroupsSortedBy(rest[..k] + [x] + rest[k..], key, inner, idesc)
  {
    var r := rest[..k] + [x] + rest[k..];
    BeforeTotal(key(x), key(x), desc);
    forall i, j | 0 <= i < j < |r| && key(r[i]) == key(r[j])
      ensures Before(inner(r[i]), inner(r[j]), idesc)
    {
      if j < k {
        assert r[i] == rest[i] && r[j] == rest[j];
      } else if j == k {
        assert false;
      } else if i == k {
        assert r[j] == rest[j - 1];
      } else if i < k {
        assert r[i] == rest[i] && r[j] == rest[j - 1];
      } else {
        assert r[i] == rest[i - 1] && r[j] == rest[j - 1];
      }
    }
  }

  /** Sorting by a key every element shares leaves the order alone. */
  lemma {:induction false} SortByConstant<T>(s: seq<T>, key: T -> SortKey, desc: bool, k: SortKey)
    requires forall i :: 0 <= i < |s| ==> key(s[i]) == k
    ensures SortBy(s, key, desc) == s
    decreases |s|
  {
    if |s| > 0 {
      SortByConstant(s[1..], key, desc, k);
      BeforeTotal(k, k, desc);
    }
  }

  // ---------------------------------------------------------------------
  // pagination: `all.slice(start, start + count)`

  function Min(a: int, b: int): int { if a <= b then a else b }
  function Max(a: int, b: int): int { if a >= b then a else b }

  /** The page `s.slice(start, start + count)`. */
  function Page<T>(s: seq<T>, start: nat, count: nat): (p: seq<T>)
    ensures |p| == Min(count, Max(0, |s| - start))
    ensures forall i :: 0 <= i < |p| ==> p[i] == s[start + i]
  {
    if start >= |s| then [] else s[start..Min(start + count, |s|)]
  }

  /** A page of a sorted list is sorted, and holds elements of the list only. */
  lemma PageOfSorted<T>(s: seq<T>, start: nat, count: nat, key: T -> SortKey, desc: bool)
    requires SortedBy(s, key, desc)
    ensures SortedBy(Page(s, start, count), key, desc)
    ensures forall x :: x in Page(s, start, count) ==> x in s
  {
    var p := Page(s, start, count);
    forall i, j | 0 <= i < j < |p|
      ensures Before(key(p[i]), key(p[j]), desc)
    {
      assert p[i] == s[start + i] && p[j] == s[start + j];
    }
    forall x | x in p
      ensures x in s
    {
      var i :| 0 <= i < |p| && p[i] == x;
      assert s[start + i] == x;
    }
  }

  /** `hasMore` of every paged response. */
  predicate HasMore(total: nat, start: nat, count: nat) {
    start + count < total
  }

  /** When `hasMore` holds, the page is full. */
  lemma HasMoreMeansFullPage<T>(s: seq<T>, start: nat, count: nat)
    requires HasMore(|s|, start, count)
    ensures |Page(s, start, count)| == count
  {
  }

  /** Two consecutive pages together are the page spanning both. */
  lemma PagesConcatenate<T>(s: seq<T>, start: nat, c1: nat, c2: nat)
    ensures Page(s, start, c1) + Page(s, start + c1, c2) == Page(s, start, c1 + c2)
  {
    var a := Page(s, start, c1);
    var b := Page(s, start + c1, c2);
    var whole := Page(s, start, c1 + c2);
    assert |a + b| == |whole|;
    forall i | 0 <= i < |whole|
      ensures (a + b)[i] == whole[i]
    {
      if i < |a| {
      } else {
        assert (a + b)[i] == b[i - |a|];
      }
    }
  }
}
