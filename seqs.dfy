/** Sequence facts shared by the pages: duplicates removed in order of first occurrence, which is
    what spreading a JavaScript `Set` built from a list yields. */
module Seqs {

  predicate Distinct<T(==)>(s: seq<T>) {
    forall i, j :: 0 <= i < j < |s| ==> s[i] != s[j]
  }

  /** The position of the first occurrence of `x` in `s`. */
  function FirstIndex<T(==)>(s: seq<T>, x: T): (k: nat)
    requires x in s
    ensures k < |s| && s[k] == x && x !in s[..k]
  {
    if s[0] == x then 0 else 1 + FirstIndex(s[1..], x)
  }

  lemma FirstIndexUnique<T>(s: seq<T>, x: T, k: nat)
    requires k < |s| && s[k] == x && x !in s[..k]
    ensures FirstIndex(s, x) == k
  {
  }

  /** `[...new Set(s)]`: each element once, kept where it first occurs. */
  function Dedup<T(==)>(s: seq<T>): (r: seq<T>)
    ensures Distinct(r)
    ensures forall i :: 0 <= i < |s| ==> s[i] in r
    ensures forall i :: 0 <= i < |r| ==> r[i] in s
    ensures |r| <= |s|
  {
    if s == [] then []
    else
      var r := Dedup(s[..|s| - 1]);
      assert forall i :: 0 <= i < |s| - 1 ==> s[i] == s[..|s| - 1][i];
      if s[|s| - 1] in r then r else r + [s[|s| - 1]]
  }

  /** `Dedup` of a list with one more element: the element is added unless already there. */
  lemma DedupSnoc<T>(s: seq<T>, x: T)
    ensures Dedup(s + [x]) == if x in s then Dedup(s) else Dedup(s) + [x]
  {
    var t := s + [x];
    assert t[..|t| - 1] == s;
    if x in s {
      var k :| 0 <= k < |s| && s[k] == x;
      assert x in Dedup(s);
    }
  }

  lemma FirstIndexInPrefix<T>(s: seq<T>, n: nat, y: T)
    requires n <= |s| && y in s[..n]
    ensures FirstIndex(s, y) == FirstIndex(s[..n], y)
  {
    var k := FirstIndex(s[..n], y);
    assert s[..k] == s[..n][..k];
    FirstIndexUnique(s, y, k);
  }

  /** Of two elements of `Dedup(s)`, the earlier one occurs first in `s`. */
  lemma {:induction false} DedupOrderAt<T>(s: seq<T>, i: nat, j: nat)
    requires i < j < |Dedup(s)|
    ensures FirstIndex(s, Dedup(s)[i]) < FirstIndex(s, Dedup(s)[j])
    decreases |s|
  {
    var n := |s|;
    var p := s[..n - 1];
    var r := Dedup(p);
    var d := Dedup(s);
    assert d[i] == r[i] && r[i] in p;
    FirstIndexInPrefix(s, n - 1, r[i]);
    if j < |r| {
      assert d[j] == r[j] && r[j] in p;
      FirstIndexInPrefix(s, n - 1, r[j]);
      DedupOrderAt(p, i, j);
      assert FirstIndex(s, d[j]) == FirstIndex(p, r[j]);
    } else {
      assert d == r + [s[n - 1]] && s[n - 1] !in r;
      forall k | 0 <= k < |p| ensures p[k] != s[n - 1] {
        assert p[k] in r;
      }
      assert s[..n - 1] == p;
      FirstIndexUnique(s, s[n - 1], n - 1);
      assert j == |r| && d[j] == s[n - 1];
      assert FirstIndex(s, d[i]) == FirstIndex(p, r[i]) < n - 1 == FirstIndex(s, d[j]);
    }
  }

  /** The elements of `Dedup(s)` appear in the order in which they first occur in `s`. */
  lemma DedupKeepsFirstOccurrenceOrder<T>(s: seq<T>)
    ensures forall i, j :: 0 <= i < j < |Dedup(s)| ==>
              FirstIndex(s, Dedup(s)[i]) < FirstIndex(s, Dedup(s)[j])
  {
    forall i, j | 0 <= i < j < |Dedup(s)| {
      DedupOrderAt(s, i, j);
    }
  }
  /** A list without duplicates holds each value at most once. */
  lemma {:induction false} DistinctAtMostOnce<T>(s: seq<T>, x: T)
    requires Distinct(s)
    ensures multiset(s)[x] <= 1
  {
    if s != [] {
      assert s == [s[0]] + s[1..];
      assert Distinct(s[1..]) by {
        forall a, b | 0 <= a < b < |s[1..]| ensures s[1..][a] != s[1..][b] {
          assert s[1..][a] == s[a + 1] && s[1..][b] == s[b + 1];
        }
      }
      DistinctAtMostOnce(s[1..], x);
      if x == s[0] {
        assert x !in s[1..];
      }
    }
  }

  lemma RepeatedTwice<T>(s: seq<T>, i: nat, j: nat)
    requires i < j < |s| && s[i] == s[j]
    ensures multiset(s)[s[i]] >= 2
  {
    assert s == s[..j] + [s[j]] + s[j + 1..];
    assert s[..j][i] == s[i];
  }

  /** A rearrangement of a list without duplicates has none either. */
  lemma PermutationOfDistinct<T>(a: seq<T>, b: seq<T>)
    requires multiset(a) == multiset(b) && Distinct(b)
    ensures Distinct(a)
  {
    forall i, j | 0 <= i < j < |a| ensures a[i] != a[j] {
      if a[i] == a[j] {
        RepeatedTwice(a, i, j);
        DistinctAtMostOnce(b, a[i]);
      }
    }
  }
}
