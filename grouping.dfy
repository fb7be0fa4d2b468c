/**
 * The frame operations the statistical layer groups by: unique() (distinct
 * values in first-appearance order), boolean-mask filtering, a stable
 * ordering by a total preorder (sort_values, and the sorted key order of
 * groupby), and Python's ordering of strings and of tuples of strings.
 */
module Grouping {
  import opened Wrappers
  import opened Shipments

  predicate NoDuplicates<T(==)>(s: seq<T>) {
    forall i, j :: 0 <= i < j < |s| ==> s[i] != s[j]
  }

  /** unique(): each value once, in the order of its first appearance. */
  function Distinct<T(==,!new)>(xs: seq<T>): (r: seq<T>)
    ensures forall x :: x in r <==> x in xs
    ensures NoDuplicates(r) && |r| <= |xs|
  {
    if xs == [] then []
    else
      var d := Distinct(xs[..|xs| - 1]);
      var x := xs[|xs| - 1];
      assert forall y :: y in xs <==> y in xs[..|xs| - 1] || y == x by {
        assert xs == xs[..|xs| - 1] + [x];
      }
      if x in d then d else d + [x]
  }

  lemma SliceIndex<T>(xs: seq<T>, n: int, i: int)
    requires 0 <= i < n <= |xs|
    ensures xs[..n][i] == xs[i]
  {
  }

  lemma AppendAssoc<T>(a: seq<T>, b: seq<T>, c: seq<T>)
    ensures a + (b + c) == (a + b) + c
  {
  }

  /** The lists f(k) for the keys in order, concatenated: one group after another. */
  function ConcatMap<K, T>(keys: seq<K>, f: K -> seq<T>): seq<T> {
    if keys == [] then [] else ConcatMap(keys[..|keys| - 1], f) + f(keys[|keys| - 1])
  }

  lemma ConcatMapStep<K, T>(keys: seq<K>, f: K -> seq<T>, i: int)
    requires 0 <= i < |keys|
    ensures ConcatMap(keys[..i + 1], f) == ConcatMap(keys[..i], f) + f(keys[i])
  {
    assert keys[..i + 1][..i] == keys[..i];
  }

  lemma {:induction false} ConcatMapMembers<K, T>(keys: seq<K>, f: K -> seq<T>, x: T)
    ensures x in ConcatMap(keys, f) <==> exists k :: k in keys && x in f(k)
  {
    if keys != [] {
      var init := keys[..|keys| - 1];
      ConcatMapMembers(init, f, x);
      assert keys == init + [keys[|keys| - 1]];
    }
  }

  /** A value one key contributes is in the concatenation. */
  lemma ConcatMapHas<K, T>(keys: seq<K>, f: K -> seq<T>, k: K, x: T)
    requires k in keys && x in f(k)
    ensures x in ConcatMap(keys, f)
  {
    ConcatMapMembers(keys, f, x);
  }

  /**
   * When no key repeats and each key contributes at most one value, tagged
   * with that key, no two values of the concatenation share a tag.
   */
  lemma {:induction false} ConcatMapOnePerKey<K, T>(keys: seq<K>, f: K -> seq<T>, tag: T -> Option<K>)
    requires NoDuplicates(keys)
    requires forall k :: k in keys ==> |f(k)| <= 1
    requires forall k, x :: k in keys && x in f(k) ==> tag(x) == Some(k)
    ensures forall i, j :: 0 <= i < j < |ConcatMap(keys, f)| ==> tag(ConcatMap(keys, f)[i]) != tag(ConcatMap(keys, f)[j])
  {
    if keys != [] {
      var init := keys[..|keys| - 1];
      var last := keys[|keys| - 1];
      assert keys == init + [last];
      ConcatMapOnePerKey(init, f, tag);
      var c := ConcatMap(init, f);
      var r := ConcatMap(keys, f);
      assert r == c + f(last);
      assert last in keys;
      forall i, j | 0 <= i < j < |r| ensures tag(r[i]) != tag(r[j]) {
        if j < |c| {
          assert r[i] == c[i] && r[j] == c[j];
        } else {
          assert i < |c|;
          assert r[j] == f(last)[j - |c|];
          assert tag(r[j]) == Some(last);
          assert r[i] == c[i];
          ConcatMapMembers(init, f, c[i]);
          var k :| k in init && c[i] in f(k);
          var m :| 0 <= m < |init| && init[m] == k;
          assert keys[m] == k && keys[|keys| - 1] == last;
          assert tag(r[i]) == Some(k);
        }
      }
    }
  }

  /** A column: the key of every row, in row order. */
  function Column<K>(df: seq<Shipment>, key: Shipment -> K): (r: seq<K>)
    ensures |r| == |df| && forall i :: 0 <= i < |df| ==> r[i] == key(df[i])
  {
    if df == [] then [] else Column(df[..|df| - 1], key) + [key(df[|df| - 1])]
  }

  /** df[df[key] == k]: the rows whose key is k, in row order. */
  function Where<K(==)>(df: seq<Shipment>, key: Shipment -> K, k: K): (r: seq<Shipment>)
    ensures |r| <= |df|
    ensures forall s :: s in r <==> s in df && key(s) == k
  {
    if df == [] then []
    else
      var last := df[|df| - 1];
      assert df == df[..|df| - 1] + [last];
      Where(df[..|df| - 1], key, k) + (if key(last) == k then [last] else [])
  }

  /** Filtering distributes over concatenation, so the rows keep their frame order. */
  lemma {:induction false} WhereAppend<K>(a: seq<Shipment>, b: seq<Shipment>, key: Shipment -> K, k: K)
    ensures Where(a + b, key, k) == Where(a, key, k) + Where(b, key, k)
  {
    if b == [] {
      assert a + b == a;
    } else {
      var init := b[..|b| - 1];
      assert (a + b)[..|a + b| - 1] == a + init;
      WhereAppend(a, init, key, k);
    }
  }

  lemma UniqueIdsPrefix(df: seq<Shipment>, n: int)
    requires UniqueIds(df) && 0 <= n <= |df|
    ensures UniqueIds(df[..n])
  {
    forall i, j | 0 <= i < j < n ensures df[..n][i].id != df[..n][j].id {
      assert df[..n][i] == df[i] && df[..n][j] == df[j];
    }
  }

  /** A group of a frame with unique shipment ids has unique ids too. */
  lemma {:induction false} WhereUnique<K>(df: seq<Shipment>, key: Shipment -> K, k: K)
    requires UniqueIds(df)
    ensures UniqueIds(Where(df, key, k))
  {
    if df != [] {
      var init := df[..|df| - 1];
      var last := df[|df| - 1];
      UniqueIdsPrefix(df, |df| - 1);
      WhereUnique(init, key, k);
      var w := Where(init, key, k);
      if key(last) == k {
        var r := w + [last];
        forall i, j | 0 <= i < j < |r| ensures r[i].id != r[j].id {
          if j == |w| {
            assert r[i] == w[i] && w[i] in w;
            var m :| 0 <= m < |init| && init[m] == w[i];
            assert df[m] == w[i];
          } else {
            assert r[i] == w[i] && r[j] == w[j];
          }
        }
      }
    }
  }

  /** Every row belongs to the group of its own key. */
  lemma RowInItsGroup<K(!new)>(df: seq<Shipment>, key: Shipment -> K, i: int)
    requires 0 <= i < |df|
    ensures df[i] in Where(df, key, key(df[i])) && key(df[i]) in Distinct(Column(df, key))
  {
    assert Column(df, key)[i] == key(df[i]);
  }

  // ---------------------------------------------------------------------
  // Ordering
  // ---------------------------------------------------------------------

  /** le is a total preorder: any two values compare, and comparison chains. */
  ghost predicate TotalPreorder<T(!new)>(le: (T, T) -> bool) {
    (forall a, b :: le(a, b) || le(b, a)) &&
    (forall a, b, c :: le(a, b) && le(b, c) ==> le(a, c))
  }

  predicate SortedBy<T>(s: seq<T>, le: (T, T) -> bool) {
    forall i, j :: 0 <= i < j < |s| ==> le(s[i], s[j])
  }

  /** Every value of s is at least lo. */
  predicate AllAbove<T>(s: seq<T>, lo: T, le: (T, T) -> bool) {
    forall i :: 0 <= i < |s| ==> le(lo, s[i])
  }

  lemma AboveByMultiset<T>(s: seq<T>, t: seq<T>, lo: T, le: (T, T) -> bool)
    requires AllAbove(t, lo, le) && multiset(s) <= multiset(t)
    ensures AllAbove(s, lo, le)
  {
    forall i | 0 <= i < |s| ensures le(lo, s[i]) {
      assert s[i] in multiset(s);
      assert s[i] in multiset(t);
      var j :| 0 <= j < |t| && t[j] == s[i];
    }
  }

  /** Insert x before the first value it does not exceed. */
  function InsertBy<T(!new)>(x: T, s: seq<T>, le: (T, T) -> bool): (r: seq<T>)
    requires TotalPreorder(le) && SortedBy(s, le)
    ensures SortedBy(r, le) && multiset(r) == multiset(s) + multiset{x}
  {
    if s == [] then [x]
    else if le(x, s[0]) then
      assert AllAbove(s, x, le);
      [x] + s
    else
      var tail := s[1..];
      var rest := InsertBy(x, tail, le);
      assert s == [s[0]] + tail;
      assert AllAbove(tail + [x], s[0], le);
      assert multiset(rest) == multiset(tail + [x]);
      AboveByMultiset(rest, tail + [x], s[0], le);
      ConsSorted(s[0], rest, le);
      [s[0]] + rest
  }

  lemma ConsSorted<T>(h: T, s: seq<T>, le: (T, T) -> bool)
    requires AllAbove(s, h, le) && SortedBy(s, le)
    ensures SortedBy([h] + s, le)
  {
    var r := [h] + s;
    forall i, j | 0 <= i < j < |r| ensures le(r[i], r[j]) {
      assert r[j] == s[j - 1];
      if i > 0 {
        assert r[i] == s[i - 1];
      }
    }
  }

  /** A stable sort: ascending under le, a permutation of its input. */
  function SortBy<T(!new)>(xs: seq<T>, le: (T, T) -> bool): (r: seq<T>)
    requires TotalPreorder(le)
    ensures SortedBy(r, le) && multiset(r) == multiset(xs) && |r| == |xs|
  {
    if xs == [] then []
    else
      assert xs == [xs[0]] + xs[1..];
      var r := InsertBy(xs[0], SortBy(xs[1..], le), le);
      assert |r| == |multiset(r)| == |multiset(xs)| == |xs|;
      r
  }

  /** Python's str comparison: code point by code point, a proper prefix first. */
  predicate StrLe(a: string, b: string) {
    if a == [] then true
    else if b == [] then false
    else if a[0] != b[0] then a[0] < b[0]
    else StrLe(a[1..], b[1..])
  }

  /** Python's comparison of tuples of strings: element by element, a proper prefix first. */
  predicate KeyLe(a: seq<string>, b: seq<string>) {
    if a == [] then true
    else if b == [] then false
    else if a[0] != b[0] then StrLe(a[0], b[0])
    else KeyLe(a[1..], b[1..])
  }

  lemma {:induction false} StrLeTotal(a: string, b: string)
    ensures StrLe(a, b) || StrLe(b, a)
  {
    if a != [] && b != [] && a[0] == b[0] {
      StrLeTotal(a[1..], b[1..]);
    }
  }

  lemma {:induction false} StrLeAntisymmetric(a: string, b: string)
    requires StrLe(a, b) && StrLe(b, a)
    ensures a == b
  {
    if a != [] && b != [] {
      StrLeAntisymmetric(a[1..], b[1..]);
      assert a == [a[0]] + a[1..] && b == [b[0]] + b[1..];
    }
  }

  lemma {:induction false} StrLeTransitive(a: string, b: string, c: string)
    requires StrLe(a, b) && StrLe(b, c)
    ensures StrLe(a, c)
  {
    if a != [] && b != [] && c != [] && a[0] == b[0] && b[0] == c[0] {
      StrLeTransitive(a[1..], b[1..], c[1..]);
    }
  }

  lemma {:induction false} KeyLeTotal(a: seq<string>, b: seq<string>)
    ensures KeyLe(a, b) || KeyLe(b, a)
  {
    if a != [] && b != [] {
      if a[0] == b[0] {
        KeyLeTotal(a[1..], b[1..]);
      } else {
        StrLeTotal(a[0], b[0]);
      }
    }
  }

  lemma {:induction false} KeyLeTransitive(a: seq<string>, b: seq<string>, c: seq<string>)
    requires KeyLe(a, b) && KeyLe(b, c)
    ensures KeyLe(a, c)
  {
    if a != [] && b != [] && c != [] {
      if a[0] == b[0] && b[0] == c[0] {
        KeyLeTransitive(a[1..], b[1..], c[1..]);
      } else if a[0] == b[0] {
        assert StrLe(b[0], c[0]);
      } else if b[0] == c[0] {
        assert StrLe(a[0], b[0]);
      } else {
        StrLeTransitive(a[0], b[0], c[0]);
        if a[0] == c[0] {
          StrLeAntisymmetric(a[0], b[0]);
        }
      }
    }
  }

  lemma {:induction false} KeyLeAntisymmetric(a: seq<string>, b: seq<string>)
    requires KeyLe(a, b) && KeyLe(b, a)
    ensures a == b
  {
    if a != [] && b != [] {
      if a[0] == b[0] {
        KeyLeAntisymmetric(a[1..], b[1..]);
        assert a == [a[0]] + a[1..] && b == [b[0]] + b[1..];
      } else {
        StrLeAntisymmetric(a[0], b[0]);
      }
    }
  }

  lemma KeyOrder()
    ensures TotalPreorder(KeyLe)
  {
    forall a, b ensures KeyLe(a, b) || KeyLe(b, a) {
      KeyLeTotal(a, b);
    }
    forall a, b, c | KeyLe(a, b) && KeyLe(b, c) ensures KeyLe(a, c) {
      KeyLeTransitive(a, b, c);
    }
  }

  function IntLe(a: int, b: int): bool { a <= b }

  lemma IntOrder()
    ensures TotalPreorder(IntLe)
  {
  }

  /** groupby(keys): the distinct keys of a frame, in ascending order. */
  function GroupKeys(df: seq<Shipment>, key: Shipment -> seq<string>): (r: seq<seq<string>>)
    ensures SortedBy(r, KeyLe) && NoDuplicates(r)
    ensures forall k :: k in r <==> exists i :: 0 <= i < |df| && key(df[i]) == k
  {
    KeyOrder();
    var d := Distinct(Column(df, key));
    var r := SortBy(d, KeyLe);
    forall k ensures k in r <==> k in d {
      assert k in r <==> k in multiset(r);
    }
    forall k ensures k in d <==> exists i :: 0 <= i < |df| && key(df[i]) == k {
      if k in d {
        var i :| 0 <= i < |df| && Column(df, key)[i] == k;
      }
    }
    SortedDistinct(r, d);
    r
  }

  /** A sorted permutation of a list without duplicates has none either. */
  lemma SortedDistinct<T>(r: seq<T>, d: seq<T>)
    requires NoDuplicates(d) && multiset(r) == multiset(d)
    ensures NoDuplicates(r)
  {
    forall i, j | 0 <= i < j < |r| ensures r[i] != r[j] {
      if r[i] == r[j] {
        assert multiset(r)[r[i]] >= 2 by {
          assert r == r[..i] + [r[i]] + r[i + 1..j] + [r[j]] + r[j + 1..];
        }
        DistinctOnce(d, r[i]);
        assert false;
      }
    }
  }

  /** In a list without duplicates every value occurs at most once. */
  lemma {:induction false} DistinctOnce<T>(d: seq<T>, x: T)
    requires NoDuplicates(d)
    ensures multiset(d)[x] <= 1
  {
    if d != [] {
      var init := d[..|d| - 1];
      assert d == init + [d[|d| - 1]];
      DistinctOnce(init, x);
      if d[|d| - 1] == x {
        assert x !in init;
      }
    }
  }
}
