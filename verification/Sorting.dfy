/** Stable sorting as the library sorts compute it, and the lexicographic order of identifiers. */
module Sorting {

  /** Inserts x after every element it is not smaller than. */
  function Insert<T>(x: T, s: seq<T>, less: (T, T) -> bool): (r: seq<T>)
    ensures multiset(r) == multiset(s) + multiset{x}
  {
    if s == [] || !less(x, s[|s| - 1]) then
      s + [x]
    else
      assert s == s[..|s| - 1] + [s[|s| - 1]];
      Insert(x, s[..|s| - 1], less) + [s[|s| - 1]]
  }

  function StableSort<T>(s: seq<T>, less: (T, T) -> bool): (r: seq<T>)
    ensures multiset(r) == multiset(s)
    ensures |r| == |s|
  {
    if s == [] then []
    else
      assert s == s[..|s| - 1] + [s[|s| - 1]];
      var r := Insert(s[|s| - 1], StableSort(s[..|s| - 1], less), less);
      assert |multiset(r)| == |multiset(s)|;
      r
  }

  ghost predicate Sorted<T>(s: seq<T>, less: (T, T) -> bool) {
    forall i, j :: 0 <= i < j < |s| ==> !less(s[j], s[i])
  }

  /** Irreflexive, and "not after" is transitive. */
  ghost predicate WeakOrder<T(!new)>(less: (T, T) -> bool) {
    && (forall a, b :: less(a, b) ==> !less(b, a))
    && (forall a, b, c :: !less(b, a) && !less(c, b) ==> !less(c, a))
  }

  lemma {:induction false} InsertSorted<T(!new)>(x: T, s: seq<T>, less: (T, T) -> bool)
    requires WeakOrder(less) && Sorted(s, less)
    ensures Sorted(Insert(x, s, less), less)
  {
    if s == [] {
    } else if !less(x, s[|s| - 1]) {
      forall i | 0 <= i < |s| ensures !less(x, s[i]) {
        assert i < |s| - 1 ==> !less(s[|s| - 1], s[i]);
      }
    } else {
      var front := s[..|s| - 1];
      var inserted := Insert(x, front, less);
      InsertSorted(x, front, less);
      forall i | 0 <= i < |inserted| ensures !less(s[|s| - 1], inserted[i]) {
        assert inserted[i] in multiset(inserted);
        if inserted[i] != x {
          assert inserted[i] in front;
        }
      }
    }
  }

  lemma {:induction false} StableSortSorts<T(!new)>(s: seq<T>, less: (T, T) -> bool)
    requires WeakOrder(less)
    ensures Sorted(StableSort(s, less), less)
  {
    if s != [] {
      StableSortSorts(s[..|s| - 1], less);
      InsertSorted(s[|s| - 1], StableSort(s[..|s| - 1], less), less);
    }
  }

  /** Sorting a sorted list changes nothing. */
  lemma {:induction false} StableSortFixpoint<T>(s: seq<T>, less: (T, T) -> bool)
    requires Sorted(s, less)
    ensures StableSort(s, less) == s
  {
    if s != [] {
      var front := s[..|s| - 1];
      assert Sorted(front, less);
      StableSortFixpoint(front, less);
      assert front != [] ==> !less(s[|s| - 1], front[|front| - 1]);
      assert Insert(s[|s| - 1], front, less) == front + [s[|s| - 1]];
    }
  }

  ghost predicate Comparable<T>(s: seq<T>, less: (T, T) -> bool) {
    forall a, b :: a in s && b in s && a != b ==> less(a, b) || less(b, a)
  }

  lemma SortedLast<T>(s: seq<T>, x: T, less: (T, T) -> bool)
    requires Sorted(s, less) && x in s
    ensures x == s[|s| - 1] || !less(s[|s| - 1], x)
  {
  }

  lemma Shorten<T>(s: seq<T>, less: (T, T) -> bool)
    requires s != []
    ensures Sorted(s, less) ==> Sorted(s[..|s| - 1], less)
    ensures Comparable(s, less) ==> Comparable(s[..|s| - 1], less)
    ensures multiset(s[..|s| - 1]) == multiset(s) - multiset{s[|s| - 1]}
  {
    var front := s[..|s| - 1];
    assert s == front + [s[|s| - 1]];
  }

  /** A sorted arrangement of mutually comparable elements is unique. */
  lemma {:induction false} SortedUnique<T>(a: seq<T>, b: seq<T>, less: (T, T) -> bool)
    requires Comparable(a, less)
    requires Sorted(a, less) && Sorted(b, less) && multiset(a) == multiset(b)
    ensures a == b
  {
    assert |multiset(a)| == |multiset(b)|;
    if a != [] {
      var x, y := a[|a| - 1], b[|b| - 1];
      assert x in multiset(b) && y in multiset(a);
      SortedLast(a, y, less);
      SortedLast(b, x, less);
      Shorten(a, less);
      Shorten(b, less);
      SortedUnique(a[..|a| - 1], b[..|b| - 1], less);
    }
  }

  /** Hence a stable sort forgets the order of its input. */
  lemma {:induction false} StableSortPermutation<T(!new)>(a: seq<T>, b: seq<T>, less: (T, T) -> bool)
    requires WeakOrder(less) && Comparable(a, less) && multiset(a) == multiset(b)
    ensures StableSort(a, less) == StableSort(b, less)
  {
    var sa, sb := StableSort(a, less), StableSort(b, less);
    StableSortSorts(a, less);
    StableSortSorts(b, less);
    forall x | x in sa ensures x in a {
      assert x in multiset(sa);
    }
    SortedUnique(sa, sb, less);
  }

  // ---- mapping

  function Map<T, U>(s: seq<T>, f: T -> U): (r: seq<U>)
    ensures |r| == |s|
    ensures forall i :: 0 <= i < |s| ==> r[i] == f(s[i])
  {
    if s == [] then [] else Map(s[..|s| - 1], f) + [f(s[|s| - 1])]
  }

  lemma MapConcat<T, U>(a: seq<T>, b: seq<T>, f: T -> U)
    ensures Map(a + b, f) == Map(a, f) + Map(b, f)
  {
  }

  lemma Remove<T>(s: seq<T>, x: T) returns (p: seq<T>, q: seq<T>)
    requires x in s
    ensures s == p + ([x] + q) && multiset(p + q) == multiset(s) - multiset{x}
  {
    var k :| 0 <= k < |s| && s[k] == x;
    p, q := s[..k], s[k + 1..];
    assert s == p + ([x] + q);
  }

  lemma {:induction false} MapForgetsOrder<T, U>(a: seq<T>, b: seq<T>, f: T -> U)
    requires multiset(a) == multiset(b)
    ensures multiset(Map(a, f)) == multiset(Map(b, f))
  {
    assert |multiset(a)| == |multiset(b)|;
    if a != [] {
      var front, x := a[..|a| - 1], a[|a| - 1];
      assert a == front + [x];
      assert multiset(front) == multiset(a) - multiset{x};
      assert x in multiset(b);
      var p, q := Remove(b, x);
      MapForgetsOrder(front, p + q, f);
      MapConcat(p, q, f);
      MapConcat(p, [x] + q, f);
      MapConcat([x], q, f);
      calc {
        multiset(Map(b, f));
        multiset(Map(p, f) + (Map([x], f) + Map(q, f)));
        multiset(Map(p, f)) + multiset(Map(q, f)) + multiset{f(x)};
        multiset(Map(p + q, f)) + multiset{f(x)};
        multiset(Map(front, f)) + multiset{f(x)};
        multiset(Map(a, f));
      }
    }
  }

  // ---- identifiers

  /** Three-way lexicographic comparison, shorter prefix first. */
  function CompareText(a: string, b: string): (r: int)
    ensures r == -1 || r == 0 || r == 1
  {
    if a == [] && b == [] then 0
    else if a == [] then -1
    else if b == [] then 1
    else if a[0] < b[0] then -1
    else if b[0] < a[0] then 1
    else CompareText(a[1..], b[1..])
  }

  lemma {:induction false} CompareTextAntisymmetric(a: string, b: string)
    ensures CompareText(a, b) == -CompareText(b, a)
    ensures CompareText(a, b) == 0 <==> a == b
  {
    if a != [] && b != [] && a[0] == b[0] {
      CompareTextAntisymmetric(a[1..], b[1..]);
      assert a == [a[0]] + a[1..] && b == [b[0]] + b[1..];
    }
  }

  lemma {:induction false} CompareTextTransitive(a: string, b: string, c: string)
    requires CompareText(a, b) <= 0 && CompareText(b, c) <= 0
    ensures CompareText(a, c) <= 0
  {
    if a != [] && b != [] && c != [] && a[0] == b[0] == c[0] {
      CompareTextTransitive(a[1..], b[1..], c[1..]);
    }
  }

  /** A proper prefix, or smaller in the first character that differs. */
  ghost predicate TextBefore(a: string, b: string) {
    exists k :: && 0 <= k <= |a| && k < |b| && a[..k] == b[..k]
                && (k == |a| || a[k] < b[k])
  }

  lemma TextBeforeByHead(a: string, b: string)
    requires a != [] && b != []
    ensures TextBefore(a, b) <==> a[0] < b[0] || (a[0] == b[0] && TextBefore(a[1..], b[1..]))
  {
    if TextBefore(a, b) {
      var k :| 0 <= k <= |a| && k < |b| && a[..k] == b[..k] && (k == |a| || a[k] < b[k]);
      if k > 0 {
        assert a[0] == a[..k][0] && b[0] == b[..k][0];
        assert a[1..][..k - 1] == a[..k][1..] && b[1..][..k - 1] == b[..k][1..];
      }
    }
    if a[0] < b[0] { assert a[..0] == b[..0]; }
    if a[0] == b[0] && TextBefore(a[1..], b[1..]) {
      var k :| && 0 <= k <= |a[1..]| && k < |b[1..]| && a[1..][..k] == b[1..][..k]
               && (k == |a[1..]| || a[1..][k] < b[1..][k]);
      assert a[..k + 1] == [a[0]] + a[1..][..k] && b[..k + 1] == [b[0]] + b[1..][..k];
    }
  }

  /** The comparison is the lexicographic order. */
  lemma {:induction false} CompareTextMeans(a: string, b: string)
    ensures CompareText(a, b) < 0 <==> TextBefore(a, b)
    ensures CompareText(a, b) <= 0 <==> a == b || TextBefore(a, b)
  {
    CompareTextAntisymmetric(a, b);
    if a != [] && b != [] {
      TextBeforeByHead(a, b);
      CompareTextMeans(a[1..], b[1..]);
    } else if b != [] {
      assert a[..0] == b[..0];
    }
  }
}
