/**
  Polyline simplification: the stack-based Douglas-Peucker loops of the routing
  service and of the web client, and the index decimation placed before the former.

  The distance from a point to a segment is a parameter, so every result holds for
  any distance function.
  */
module Polyline {

  /** Distance of the first argument from the segment joining the other two. */
  type Metric<!T> = (T, T, T) -> real

  const MAX_SIMPLIFY_INPUT_POINTS: nat := 512

  /** Deviation of point k from the chord between points i and j. */
  function Deviation<T>(points: seq<T>, metric: Metric<T>, i: nat, j: nat, k: nat): real
    requires i < |points| && j < |points| && k < |points|
  {
    metric(points[k], points[i], points[j])
  }

  /** The earliest index in (first, end) of greatest deviation; first when there is none. */
  function Peak<T>(points: seq<T>, metric: Metric<T>, first: nat, last: nat, end: nat): (p: nat)
    requires first < end <= last < |points|
    ensures if end == first + 1 then p == first else first < p < end
    ensures forall k :: first < k < end ==>
                          Deviation(points, metric, first, last, k) <= Deviation(points, metric, first, last, p)
    ensures forall k :: first < k < p ==>
                          Deviation(points, metric, first, last, k) < Deviation(points, metric, first, last, p)
  {
    if end == first + 1 then first
    else
      var p := Peak(points, metric, first, last, end - 1);
      if p == first || Deviation(points, metric, first, last, end - 1) > Deviation(points, metric, first, last, p)
      then end - 1 else p
  }

  /** Textbook recursion: the interior indices kept between first and last, in order. */
  function Interior<T>(points: seq<T>, metric: Metric<T>, tolerance: real, first: nat, last: nat): (kept: seq<nat>)
    requires first < last < |points|
    ensures forall q :: 0 <= q < |kept| ==> first < kept[q] < last
    decreases last - first
  {
    if last == first + 1 then []
    else
      var p := Peak(points, metric, first, last, last);
      if Deviation(points, metric, first, last, p) > tolerance
      then Interior(points, metric, tolerance, first, p) + [p] + Interior(points, metric, tolerance, p, last)
      else []
  }

  function KeptIndices<T>(points: seq<T>, metric: Metric<T>, tolerance: real): (kept: seq<nat>)
    requires |points| >= 2
    ensures forall q :: 0 <= q < |kept| ==> kept[q] < |points|
  {
    [0] + Interior(points, metric, tolerance, 0, |points| - 1) + [|points| - 1]
  }

  ghost predicate Increasing(s: seq<nat>) {
    forall i, j :: 0 <= i < j < |s| ==> s[i] < s[j]
  }

  function Pick<T>(points: seq<T>, indices: seq<nat>): (r: seq<T>)
    requires forall q :: 0 <= q < |indices| ==> indices[q] < |points|
    ensures |r| == |indices|
  {
    seq(|indices|, q requires 0 <= q < |indices| => points[indices[q]])
  }

  /** Every point strictly between i and j lies within the tolerance of their chord. */
  ghost predicate ChordFits<T>(points: seq<T>, metric: Metric<T>, tolerance: real, i: nat, j: nat)
    requires i < |points| && j < |points|
  {
    forall k :: i < k < j ==> Deviation(points, metric, i, j, k) <= tolerance
  }

  ghost predicate WithinTolerance<T>(points: seq<T>, metric: Metric<T>, tolerance: real, kept: seq<nat>)
    requires forall q :: 0 <= q < |kept| ==> kept[q] < |points|
  {
    forall q :: 0 <= q < |kept| - 1 ==> ChordFits(points, metric, tolerance, kept[q], kept[q + 1])
  }

  /** A simplification: both endpoints, input order, bounded error. */
  ghost predicate Simplifies<T>(points: seq<T>, metric: Metric<T>, tolerance: real, kept: seq<nat>) {
    && |kept| >= 2
    && (forall q :: 0 <= q < |kept| ==> kept[q] < |points|)
    && kept[0] == 0 && kept[|kept| - 1] == |points| - 1
    && Increasing(kept)
    && WithinTolerance(points, metric, tolerance, kept)
  }

  ghost predicate Brackets<T>(points: seq<T>, metric: Metric<T>, tolerance: real, kept: seq<nat>) {
    && (forall q :: 0 <= q < |kept| ==> kept[q] < |points|)
    && Increasing(kept)
    && WithinTolerance(points, metric, tolerance, kept)
  }

  /** Two bracketed runs that share a point join into one. */
  lemma JoinBrackets<T>(points: seq<T>, metric: Metric<T>, tolerance: real, left: seq<nat>, right: seq<nat>)
    requires |left| > 0 && |right| > 0 && left[|left| - 1] == right[0]
    requires Brackets(points, metric, tolerance, left) && Brackets(points, metric, tolerance, right)
    ensures Brackets(points, metric, tolerance, left + right[1..])
  {
    var kept, seam := left + right[1..], |left| - 1;
    forall q | 0 <= q < |kept| ensures kept[q] == if q < seam then left[q] else right[q - seam] {
    }
    forall i, j | 0 <= i < j < |kept| ensures kept[i] < kept[j] {
      if i < seam && seam < j {
        assert left[i] < left[seam] && right[0] < right[j - seam];
      }
    }
    forall q | 0 <= q < |kept| - 1 ensures ChordFits(points, metric, tolerance, kept[q], kept[q + 1]) {
      if q < seam {
        assert ChordFits(points, metric, tolerance, left[q], left[q + 1]);
      } else {
        assert ChordFits(points, metric, tolerance, right[q - seam], right[q - seam + 1]);
      }
    }
  }

  /** The recursion brackets every skipped point by its two kept neighbours. */
  lemma {:induction false} BracketedInterior<T>(points: seq<T>, metric: Metric<T>, tolerance: real, first: nat,
                                                last: nat)
    requires first < last < |points|
    ensures Brackets(points, metric, tolerance, [first] + Interior(points, metric, tolerance, first, last) + [last])
    decreases last - first
  {
    var inner := Interior(points, metric, tolerance, first, last);
    if inner == [] {
      assert [first] + inner + [last] == [first, last];
      assert ChordFits(points, metric, tolerance, first, last);
    } else {
      var p := Peak(points, metric, first, last, last);
      BracketedInterior(points, metric, tolerance, first, p);
      BracketedInterior(points, metric, tolerance, p, last);
      var left := [first] + Interior(points, metric, tolerance, first, p) + [p];
      var right := [p] + Interior(points, metric, tolerance, p, last) + [last];
      JoinBrackets(points, metric, tolerance, left, right);
      assert [first] + inner + [last] == left + right[1..];
    }
  }

  /** Error bound: the kept indices simplify the line within the tolerance. */
  lemma KeptIndicesSimplify<T>(points: seq<T>, metric: Metric<T>, tolerance: real)
    requires |points| >= 2
    ensures Simplifies(points, metric, tolerance, KeptIndices(points, metric, tolerance))
  {
    BracketedInterior(points, metric, tolerance, 0, |points| - 1);
  }

  /** Kept for a reason: the earliest farthest point of a chord of kept points, beyond the tolerance. */
  ghost predicate Needed<T>(points: seq<T>, metric: Metric<T>, tolerance: real, i: nat, j: nat, k: nat) {
    && i < k < j < |points| && Deviation(points, metric, i, j, k) > tolerance
    && (forall l :: i < l < j ==> Deviation(points, metric, i, j, l) <= Deviation(points, metric, i, j, k))
    && (forall l :: i < l < k ==> Deviation(points, metric, i, j, l) < Deviation(points, metric, i, j, k))
  }

  lemma {:induction false} InteriorIsNeeded<T>(points: seq<T>, metric: Metric<T>, tolerance: real, first: nat,
                                               last: nat, k: nat) returns (i: nat, j: nat)
    requires first < last < |points| && k in Interior(points, metric, tolerance, first, last)
    ensures Needed(points, metric, tolerance, i, j, k)
    ensures i == first || i in Interior(points, metric, tolerance, first, last)
    ensures j == last || j in Interior(points, metric, tolerance, first, last)
    decreases last - first
  {
    var p := Peak(points, metric, first, last, last);
    if k == p {
      i, j := first, last;
    } else if k in Interior(points, metric, tolerance, first, p) {
      i, j := InteriorIsNeeded(points, metric, tolerance, first, p, k);
    } else {
      i, j := InteriorIsNeeded(points, metric, tolerance, p, last, k);
    }
  }

  lemma KeptIsNeeded<T>(points: seq<T>, metric: Metric<T>, tolerance: real, k: nat) returns (i: nat, j: nat)
    requires |points| >= 2 && k in KeptIndices(points, metric, tolerance) && 0 < k < |points| - 1
    ensures Needed(points, metric, tolerance, i, j, k)
    ensures i in KeptIndices(points, metric, tolerance) && j in KeptIndices(points, metric, tolerance)
  {
    i, j := InteriorIsNeeded(points, metric, tolerance, 0, |points| - 1, k);
  }

  /** Nesting: a larger tolerance only removes kept points, because splits ignore the tolerance. */
  lemma {:induction false} InteriorNested<T>(points: seq<T>, metric: Metric<T>, fine: real, coarse: real, first: nat,
                                             last: nat)
    requires fine <= coarse
    requires first < last < |points|
    ensures forall k ::
              k in Interior(points, metric, coarse, first, last) ==> k in Interior(points, metric, fine, first, last)
    ensures |Interior(points, metric, coarse, first, last)| <= |Interior(points, metric, fine, first, last)|
    decreases last - first
  {
    if Interior(points, metric, coarse, first, last) != [] {
      var p := Peak(points, metric, first, last, last);
      InteriorNested(points, metric, fine, coarse, first, p);
      InteriorNested(points, metric, fine, coarse, p, last);
    }
  }

  lemma KeptIndicesNested<T>(points: seq<T>, metric: Metric<T>, fine: real, coarse: real)
    requires |points| >= 2 && fine <= coarse
    ensures forall k :: k in KeptIndices(points, metric, coarse) ==> k in KeptIndices(points, metric, fine)
    ensures |KeptIndices(points, metric, coarse)| <= |KeptIndices(points, metric, fine)|
  {
    InteriorNested(points, metric, fine, coarse, 0, |points| - 1);
  }

  // ---- the explicit stack

  datatype Interval = Interval(first: nat, last: nat)

  /** Intervals on the stack, weighted so that a split always makes progress. */
  function Work(stack: seq<Interval>): (w: int)
    requires forall q :: 0 <= q < |stack| ==> stack[q].first < stack[q].last
    ensures w >= |stack|
  {
    if stack == [] then 0
    else Work(stack[..|stack| - 1]) + 2 * (stack[|stack| - 1].last - stack[|stack| - 1].first) - 1
  }

  /** Index k still has to be marked by some interval waiting on the stack. */
  ghost predicate Pending<T>(points: seq<T>, metric: Metric<T>, tolerance: real, stack: seq<Interval>, k: nat) {
    exists q :: 0 <= q < |stack| && stack[q].first < stack[q].last < |points|
                && k in Interior(points, metric, tolerance, stack[q].first, stack[q].last)
  }

  /** Popping an interval and pushing its halves moves exactly the split point from pending to marked. */
  lemma {:induction false} PopSplits<T>(points: seq<T>, metric: Metric<T>, tolerance: real, rest: seq<Interval>,
                                        top: Interval, p: nat)
    requires forall q :: 0 <= q < |rest| ==> rest[q].first < rest[q].last < |points|
    requires top.first < p < top.last < |points|
    requires p == Peak(points, metric, top.first, top.last, top.last)
    requires Deviation(points, metric, top.first, top.last, p) > tolerance
    ensures var pushed := rest + [Interval(top.first, p), Interval(p, top.last)];
            && (forall k :: Pending(points, metric, tolerance, rest + [top], k) <==>
                              k == p || Pending(points, metric, tolerance, pushed, k))
            && Work(pushed) < Work(rest + [top])
  {
    var stack := rest + [top];
    var left, right := Interval(top.first, p), Interval(p, top.last);
    var pushed := rest + [left, right];
    assert stack[..|rest|] == rest;
    assert pushed[..|rest| + 1] == rest + [left] && (rest + [left])[..|rest|] == rest;
    assert pushed[|rest|] == left && pushed[|rest| + 1] == right;
    forall k
      ensures Pending(points, metric, tolerance, stack, k) <==> k == p || Pending(points, metric, tolerance, pushed, k)
    {
      PendingLast(points, metric, tolerance, rest, top, k);
      PendingLast(points, metric, tolerance, rest, left, k);
      PendingLast(points, metric, tolerance, rest + [left], right, k);
      assert rest + [left] + [right] == pushed;
    }
  }

  lemma {:induction false} PopDone<T>(points: seq<T>, metric: Metric<T>, tolerance: real, rest: seq<Interval>,
                                      top: Interval)
    requires forall q :: 0 <= q < |rest| ==> rest[q].first < rest[q].last < |points|
    requires top.first < top.last < |points|
    requires Interior(points, metric, tolerance, top.first, top.last) == []
    ensures forall k ::
              Pending(points, metric, tolerance, rest + [top], k) <==> Pending(points, metric, tolerance, rest, k)
    ensures Work(rest) < Work(rest + [top])
  {
    assert (rest + [top])[..|rest|] == rest;
    forall k
      ensures Pending(points, metric, tolerance, rest + [top], k) <==> Pending(points, metric, tolerance, rest, k)
    {
      PendingLast(points, metric, tolerance, rest, top, k);
    }
  }

  lemma PendingLast<T>(points: seq<T>, metric: Metric<T>, tolerance: real, rest: seq<Interval>, top: Interval, k: nat)
    requires top.first < top.last < |points|
    ensures Pending(points, metric, tolerance, rest + [top], k) <==>
            Pending(points, metric, tolerance, rest, k) || k in Interior(points, metric, tolerance, top.first, top.last)
  {
    var stack := rest + [top];
    assert stack[|rest|] == top;
    if Pending(points, metric, tolerance, rest, k) {
      var q :| 0 <= q < |rest| && rest[q].first < rest[q].last < |points|
               && k in Interior(points, metric, tolerance, rest[q].first, rest[q].last);
      assert stack[q] == rest[q];
    }
  }

  /** Loop invariant of both stack loops: marked or pending is exactly what the recursion keeps. */
  ghost predicate Progress<T>(points: seq<T>, metric: Metric<T>, tolerance: real, stack: seq<Interval>,
                              keep: seq<bool>) {
    && |keep| == |points| >= 2
    && (forall q :: 0 <= q < |stack| ==> stack[q].first < stack[q].last < |points|)
    && keep[0] && keep[|points| - 1]
    && forall k :: 0 < k < |points| - 1 ==>
                     (k in Interior(points, metric, tolerance, 0, |points| - 1) <==>
                      keep[k] || Pending(points, metric, tolerance, stack, k))
  }

  lemma ProgressStart<T>(points: seq<T>, metric: Metric<T>, tolerance: real, keep: seq<bool>)
    requires |keep| == |points| >= 2
    requires forall k :: 0 <= k < |keep| ==> (keep[k] <==> k == 0 || k == |keep| - 1)
    ensures Progress(points, metric, tolerance, [Interval(0, |points| - 1)], keep)
  {
    var whole := [Interval(0, |points| - 1)];
    assert [] + whole == whole;
    forall k
      ensures Pending(points, metric, tolerance, whole, k) <==>
              k in Interior(points, metric, tolerance, 0, |points| - 1)
    {
      PendingLast(points, metric, tolerance, [], Interval(0, |points| - 1), k);
    }
  }

  /** One stack step either marks the split point and pushes both halves ... */
  lemma ProgressSplit<T>(points: seq<T>, metric: Metric<T>, tolerance: real, rest: seq<Interval>, top: Interval, p: nat,
                         keep: seq<bool>)
    requires Progress(points, metric, tolerance, rest + [top], keep)
    requires top.first < p < top.last < |points|
    requires p == Peak(points, metric, top.first, top.last, top.last)
    requires Deviation(points, metric, top.first, top.last, p) > tolerance
    ensures var pushed := rest + [Interval(top.first, p), Interval(p, top.last)];
            Progress(points, metric, tolerance, pushed, keep[p := true]) && Work(pushed) < Work(rest + [top])
  {
    var stack := rest + [top];
    assert forall q :: 0 <= q < |rest| ==> rest[q] == stack[q];
    PopSplits(points, metric, tolerance, rest, top, p);
    var pushed := rest + [Interval(top.first, p), Interval(p, top.last)];
    assert forall q :: 0 <= q < |pushed| ==> pushed[q].first < pushed[q].last < |points|;
  }

  /** ... or drops an interval that keeps nothing. */
  lemma ProgressDrop<T>(points: seq<T>, metric: Metric<T>, tolerance: real, rest: seq<Interval>, top: Interval,
                        keep: seq<bool>)
    requires Progress(points, metric, tolerance, rest + [top], keep)
    requires top.first < top.last < |points|
    requires ChordFits(points, metric, tolerance, top.first, top.last)
    ensures Progress(points, metric, tolerance, rest, keep) && Work(rest) < Work(rest + [top])
  {
    var stack := rest + [top];
    assert forall q :: 0 <= q < |rest| ==> rest[q] == stack[q];
    PopDone(points, metric, tolerance, rest, top);
  }

  lemma ProgressEnd<T>(points: seq<T>, metric: Metric<T>, tolerance: real, keep: seq<bool>)
    requires Progress(points, metric, tolerance, [], keep)
    ensures Marks(keep, KeptIndices(points, metric, tolerance))
  {
  }

  // ---- reading the keep array back

  ghost predicate Marks(keep: seq<bool>, kept: seq<nat>) {
    forall k :: 0 <= k < |keep| ==> (keep[k] <==> k in kept)
  }

  /** Filtering by the keep flags yields exactly the increasing list of marked indices. */
  method CollectKept<T>(points: seq<T>, keep: array<bool>, ghost kept: seq<nat>) returns (result: seq<T>)
    requires keep.Length == |points|
    requires Increasing(kept) && forall q :: 0 <= q < |kept| ==> kept[q] < |points|
    requires Marks(keep[..], kept)
    ensures result == Pick(points, kept)
  {
    result := [];
    ghost var taken := 0;
    for index := 0 to |points|
      invariant 0 <= taken <= |kept|
      invariant forall q :: 0 <= q < taken ==> kept[q] < index
      invariant forall q :: taken <= q < |kept| ==> kept[q] >= index
      invariant result == Pick(points, kept[..taken])
    {
      assert keep[..][index] == keep[index];
      if keep[index] {
        ghost var q :| 0 <= q < |kept| && kept[q] == index;
        assert taken <= q;
        assert kept[taken] <= kept[q];
        assert kept[taken] == index;
        result := result + [points[index]];
        taken := taken + 1;
      }
    }
    assert kept[..taken] == kept;
  }

  // ---- decimation

  /** round(index * (size - 1) / (maximum - 1)), halves away from zero. */
  function DecimatedIndex(size: nat, maximum: nat, index: nat): nat
    requires maximum >= 2 && size >= 1
  {
    (2 * index * (size - 1) + (maximum - 1)) / (2 * (maximum - 1))
  }

  function DecimatedIndices(size: nat, maximum: nat): (r: seq<nat>)
    requires 2 <= maximum < size
    ensures |r| == maximum
  {
    seq(maximum, index requires 0 <= index < maximum => DecimatedIndex(size, maximum, index))
  }

  lemma MulMonotone(x: int, y: int, d: int)
    requires d > 0
    ensures x <= y ==> x * d <= y * d
  {
  }

  lemma DivisionStep(a: int, b: int, d: int)
    requires d > 0 && a >= 0 && b >= a + d
    ensures b / d >= a / d + 1
  {
    assert b == (b / d) * d + b % d && a == (a / d) * d + a % d;
    MulMonotone(b / d, a / d, d);
  }

  lemma NextProduct(index: nat, s: nat)
    ensures 2 * (index + 1) * s == 2 * index * s + 2 * s && 2 * index * s >= 0
  {
  }

  lemma DecimatedIndexStep(size: nat, maximum: nat, index: nat)
    requires 2 <= maximum < size
    ensures DecimatedIndex(size, maximum, index) < DecimatedIndex(size, maximum, index + 1)
  {
    var s, d := size - 1, 2 * (maximum - 1);
    NextProduct(index, s);
    DivisionStep(2 * index * s + (maximum - 1), 2 * (index + 1) * s + (maximum - 1), d);
  }

  lemma {:induction false} DecimatedIndexMonotone(size: nat, maximum: nat, i: nat, j: nat)
    requires 2 <= maximum < size && i < j
    ensures DecimatedIndex(size, maximum, i) < DecimatedIndex(size, maximum, j)
  {
    DecimatedIndexStep(size, maximum, j - 1);
    if i < j - 1 {
      DecimatedIndexMonotone(size, maximum, i, j - 1);
    }
  }

  /** Twice the distance of k from q equal steps of s / m, in units of 1 / m. */
  function Offset(k: nat, m: nat, q: nat, s: nat): int {
    2 * (k * m - q * s)
  }

  /** Every index is the one nearest to its share of the whole length, the larger one of two equally near. */
  ghost predicate Even(indices: seq<nat>, size: nat) {
    && |indices| >= 2 && size >= 1
    && forall q :: 0 <= q < |indices| ==>
         -(|indices| - 1) < Offset(indices[q], |indices| - 1, q, size - 1) <= |indices| - 1
  }

  lemma DecimatedIndexIsNearest(size: nat, maximum: nat, q: nat)
    requires 2 <= maximum < size
    ensures -(maximum - 1) < Offset(DecimatedIndex(size, maximum, q), maximum - 1, q, size - 1) <= maximum - 1
  {
    var s, m := size - 1, maximum - 1;
    var n, d := 2 * q * s + m, 2 * m;
    var k := DecimatedIndex(size, maximum, q);
    assert k == n / d;
    assert n == k * d + n % d;
    assert k * d == 2 * (k * m);
    assert 2 * q * s == 2 * (q * s);
  }

  lemma SameIndicesAreEven(indices: seq<nat>)
    requires |indices| >= 2 && forall q :: 0 <= q < |indices| ==> indices[q] == q
    ensures Even(indices, |indices|)
  {
  }

  /** Hence neighbours are as far apart as the whole length divided evenly, rounded down or up. */
  lemma EvenNeighbours(indices: seq<nat>, size: nat, q: nat)
    requires Even(indices, size) && q + 1 < |indices|
    ensures var m := |indices| - 1; -m < (indices[q + 1] - indices[q]) * m - (size - 1) < m
  {
    var m, s := |indices| - 1, size - 1;
    var a, b := indices[q], indices[q + 1];
    assert Offset(a, m, q, s) == 2 * (a * m - q * s);
    assert Offset(b, m, q + 1, s) == 2 * (b * m - (q + 1) * s);
    assert (q + 1) * s == q * s + s;
    assert (b - a) * m == b * m - a * m;
  }

  /** Decimation keeps both ends, never repeats or reorders a point, and chooses evenly. */
  lemma DecimationIsSubsequence(size: nat, maximum: nat)
    requires 2 <= maximum < size
    ensures var kept := DecimatedIndices(size, maximum);
            && kept[0] == 0 && kept[maximum - 1] == size - 1
            && Increasing(kept) && (forall q :: 0 <= q < maximum ==> kept[q] < size) && Even(kept, size)
  {
    var kept := DecimatedIndices(size, maximum);
    var s, m := size - 1, maximum - 1;
    assert kept[0] == m / (2 * m) == 0;
    LastDecimatedIndex(s, m);
    assert 2 * m * s + m == (maximum - 1) * 2 * s + m;
    forall i, j | 0 <= i < j < maximum ensures kept[i] < kept[j] {
      DecimatedIndexMonotone(size, maximum, i, j);
    }
    forall q | 0 <= q < maximum ensures -m < Offset(kept[q], m, q, s) <= m {
      DecimatedIndexIsNearest(size, maximum, q);
    }
  }

  lemma LastDecimatedIndex(s: int, m: int)
    requires m > 0 && s >= 0
    ensures (2 * m * s + m) / (2 * m) == s
  {
    var n, d := 2 * m * s + m, 2 * m;
    assert n == s * d + m;
    assert n == (n / d) * d + n % d;
    MulMonotone(n / d, s - 1, d);
    MulMonotone(s + 1, n / d, d);
  }

  method Decimate<T>(points: seq<T>, maximum: nat) returns (result: seq<T>)
    ensures |points| <= maximum || maximum < 2 ==> result == points
    ensures 2 <= maximum < |points| ==> Decimates(points, maximum, result)
  {
    if |points| <= maximum || maximum < 2 {
      return points;
    }
    DecimationIsSubsequence(|points|, maximum);
    ghost var indices := DecimatedIndices(|points|, maximum);
    result := [];
    for index := 0 to maximum
      invariant |result| == index
      invariant forall q :: 0 <= q < index ==> result[q] == points[indices[q]]
    {
      assert indices[index] == DecimatedIndex(|points|, maximum, index);
      result := result + [points[DecimatedIndex(|points|, maximum, index)]];
    }
    assert result == Pick(points, indices);
  }

  ghost predicate Decimates<T>(points: seq<T>, maximum: nat, line: seq<T>)
    requires 2 <= maximum < |points|
  {
    var indices := DecimatedIndices(|points|, maximum);
    Spans(indices, |points|) && Even(indices, |points|) && line == Pick(points, indices)
  }

  // ---- the two implementations

  /** The input indices Simplify works on: all of them, or 512 evenly chosen ones. */
  function SampleIndices(size: nat): (r: seq<nat>)
    requires size >= 2
    ensures |r| == if size <= MAX_SIMPLIFY_INPUT_POINTS then size else MAX_SIMPLIFY_INPUT_POINTS
  {
    if size <= MAX_SIMPLIFY_INPUT_POINTS then seq(size, i requires 0 <= i < size => i)
    else DecimatedIndices(size, MAX_SIMPLIFY_INPUT_POINTS)
  }

  /** Rising indices from the first to the last point. */
  ghost predicate Spans(indices: seq<nat>, size: nat) {
    && |indices| >= 2 && indices[0] == 0 && indices[|indices| - 1] == size - 1
    && Increasing(indices) && forall q :: 0 <= q < |indices| ==> indices[q] < size
  }

  lemma SampleSpans(size: nat)
    requires size >= 2
    ensures Spans(SampleIndices(size), size) && Even(SampleIndices(size), size)
  {
    if size > MAX_SIMPLIFY_INPUT_POINTS {
      DecimationIsSubsequence(size, MAX_SIMPLIFY_INPUT_POINTS);
    } else {
      SameIndicesAreEven(SampleIndices(size));
    }
  }

  ghost function SampledLine<T>(points: seq<T>): (line: seq<T>)
    requires |points| >= 2
    ensures |line| == |SampleIndices(|points|)| >= 2
  {
    SampleSpans(|points|);
    Pick(points, SampleIndices(|points|))
  }

  /** The input indices Simplify keeps. */
  ghost function SimplifiedIndices<T>(points: seq<T>, metric: Metric<T>, tolerance: real): (r: seq<nat>)
    requires |points| >= 2
    ensures forall q :: 0 <= q < |r| ==> r[q] < |points|
  {
    SampleSpans(|points|);
    Pick(SampleIndices(|points|), KeptIndices(SampledLine(points), metric, tolerance))
  }

  lemma PickedSpans(outer: seq<nat>, inner: seq<nat>, size: nat)
    requires Spans(outer, size) && Spans(inner, |outer|)
    ensures Spans(Pick(outer, inner), size)
  {
  }

  /**
    The result is a subsequence of the input with both endpoints; up to 512 points its error
    against the input is bounded by the tolerance.
    */
  lemma SimplifiedIsSubsequence<T>(points: seq<T>, metric: Metric<T>, tolerance: real)
    requires |points| >= 2
    ensures var kept := SimplifiedIndices(points, metric, tolerance);
            && Spans(kept, |points|)
            && (|points| <= MAX_SIMPLIFY_INPUT_POINTS ==> Simplifies(points, metric, tolerance, kept))
  {
    var sample, line := SampleIndices(|points|), SampledLine(points);
    SampleSpans(|points|);
    KeptIndicesSimplify(line, metric, tolerance);
    PickedSpans(sample, KeptIndices(line, metric, tolerance), |points|);
    if |points| <= MAX_SIMPLIFY_INPUT_POINTS {
      assert line == points;
      assert SimplifiedIndices(points, metric, tolerance) == KeptIndices(points, metric, tolerance);
    }
  }

  /** Every longer line has a point that sampling leaves out. */
  lemma SamplingLeavesOut(size: nat) returns (k: nat)
    requires size > MAX_SIMPLIFY_INPUT_POINTS
    ensures 0 < k < size - 1 && k !in SampleIndices(size)
  {
    var sample := SampleIndices(size);
    SampleSpans(size);
    k := 1;
    while k < |sample| - 1 && sample[k] == k
      invariant 1 <= k < |sample|
      invariant forall j :: 0 <= j < k ==> sample[j] == j
    {
      k := k + 1;
    }
    assert sample[k] != k;
    assert sample[k - 1] < sample[k];
    forall j | 0 <= j < |sample| ensures sample[j] != k {
      assert j > k ==> sample[k] < sample[j];
    }
  }

  /** A point between the ends that is not kept lies strictly between two kept neighbours. */
  lemma SkippedIsBracketed(kept: seq<nat>, size: nat, k: nat) returns (q: nat)
    requires Spans(kept, size) && k < size && k !in kept
    ensures q + 1 < |kept| && kept[q] < k < kept[q + 1]
  {
    q := 0;
    while kept[q + 1] < k
      invariant q + 1 < |kept| && kept[q] < k
      decreases |kept| - q
    {
      q := q + 1;
    }
  }

  lemma PickedComesFrom(outer: seq<nat>, inner: seq<nat>, k: nat)
    requires forall q :: 0 <= q < |inner| ==> inner[q] < |outer|
    requires k !in outer
    ensures k !in Pick(outer, inner)
  {
  }

  /** An input with one outlier that sampling leaves out: the bound fails. */
  lemma OutlierBreaksBound(size: nat, tolerance: real) returns (points: seq<int>, metric: Metric<int>)
    requires size > MAX_SIMPLIFY_INPUT_POINTS
    ensures |points| == size && !Simplifies(points, metric, tolerance, SimplifiedIndices(points, metric, tolerance))
  {
    var k := SamplingLeavesOut(size);
    points := seq(size, i => if i == k then 1 else 0);
    metric := (p: int, a: int, b: int) => if p == 1 then tolerance + 1.0 else 0.0;
    var kept := SimplifiedIndices(points, metric, tolerance);
    SimplifiedIsSubsequence(points, metric, tolerance);
    SampleSpans(size);
    KeptIndicesSimplify(SampledLine(points), metric, tolerance);
    PickedComesFrom(SampleIndices(size), KeptIndices(SampledLine(points), metric, tolerance), k);
    var q := SkippedIsBracketed(kept, size, k);
    assert Deviation(points, metric, kept[q], kept[q + 1], k) > tolerance;
    assert !ChordFits(points, metric, tolerance, kept[q], kept[q + 1]);
  }

  /** The error bound holds against every input of a size if and only if the size is at most 512. */
  lemma BoundHoldsUpToSampleSize(size: nat, tolerance: real)
    requires size >= 2
    ensures size <= MAX_SIMPLIFY_INPUT_POINTS <==>
            forall points: seq<int>, metric: Metric<int> :: |points| == size ==>
              Simplifies(points, metric, tolerance, SimplifiedIndices(points, metric, tolerance))
  {
    if size <= MAX_SIMPLIFY_INPUT_POINTS {
      forall points: seq<int>, metric: Metric<int> | |points| == size
        ensures Simplifies(points, metric, tolerance, SimplifiedIndices(points, metric, tolerance))
      {
        SimplifiedIsSubsequence(points, metric, tolerance);
      }
    } else {
      var points, metric := OutlierBreaksBound(size, tolerance);
    }
  }

  /** Go's inner scan: strictly greater than a maximum that starts at zero. */
  method FarthestFromChord<T>(points: seq<T>, metric: Metric<T>, first: nat, last: nat)
    returns (index: int, maximum: real)
    requires first < last < |points|
    ensures index == -1 ==> maximum == 0.0 && ChordFits(points, metric, 0.0, first, last)
    ensures index != -1 ==> first < index == Peak(points, metric, first, last, last)
                            && maximum == Deviation(points, metric, first, last, index) > 0.0
  {
    index, maximum := -1, 0.0;
    for k := first + 1 to last
      invariant index == -1 ==> maximum == 0.0 &&
                                forall j :: first < j < k ==> Deviation(points, metric, first, last, j) <= 0.0
      invariant index != -1 ==> first < index == Peak(points, metric, first, last, k)
                                && maximum == Deviation(points, metric, first, last, index) > 0.0
    {
      var distance := metric(points[k], points[first], points[last]);
      if distance > maximum {
        index, maximum := k, distance;
      }
    }
  }

  /** TypeScript's inner scan: the running maximum starts at the tolerance. */
  method FarthestBeyond<T>(points: seq<T>, metric: Metric<T>, tolerance: real, first: nat, last: nat)
    returns (farthest: int)
    requires first < last < |points|
    ensures farthest == -1 ==> ChordFits(points, metric, tolerance, first, last)
    ensures farthest != -1 ==> first < farthest == Peak(points, metric, first, last, last)
                               && Deviation(points, metric, first, last, farthest) > tolerance
  {
    farthest := -1;
    var farthestDistance := tolerance;
    for k := first + 1 to last
      invariant farthest == -1 ==> farthestDistance == tolerance &&
                                   forall j :: first < j < k ==> Deviation(points, metric, first, last, j) <= tolerance
      invariant farthest != -1 ==> first < farthest == Peak(points, metric, first, last, k)
                                   && farthestDistance == Deviation(points, metric, first, last, farthest) > tolerance
    {
      var distance := metric(points[k], points[first], points[last]);
      if distance > farthestDistance {
        farthest := k;
        farthestDistance := distance;
      }
    }
  }

  /** Go's stack loop over the sampled line, proved against the recursion. */
  method SimplifySample<T>(work: seq<T>, metric: Metric<T>, tolerance: real) returns (result: seq<T>)
    requires |work| >= 2 && tolerance > 0.0
    ensures Simplifies(work, metric, tolerance, KeptIndices(work, metric, tolerance))
    ensures result == Pick(work, KeptIndices(work, metric, tolerance))
  {
    KeptIndicesSimplify(work, metric, tolerance);
    var keep := new bool[|work|](_ => false);
    keep[0], keep[|work| - 1] := true, true;
    var stack := [Interval(0, |work| - 1)];
    ProgressStart(work, metric, tolerance, keep[..]);
    while |stack| > 0
      invariant Progress(work, metric, tolerance, stack, keep[..])
      decreases Work(stack)
    {
      var current, rest := stack[|stack| - 1], stack[..|stack| - 1];
      assert stack == rest + [current] && stack[|rest|] == current;
      ghost var was := keep[..];
      stack := rest;
      var index, maximum := FarthestFromChord(work, metric, current.first, current.last);
      if index >= 0 && maximum > tolerance {
        ProgressSplit(work, metric, tolerance, rest, current, index, was);
        keep[index] := true;
        assert keep[..] == was[index := true];
        stack := stack + [Interval(current.first, index), Interval(index, current.last)];
      } else {
        ProgressDrop(work, metric, tolerance, rest, current, was);
      }
    }
    ProgressEnd(work, metric, tolerance, keep[..]);
    result := CollectKept(work, keep, KeptIndices(work, metric, tolerance));
  }

  lemma PickTwice<T>(points: seq<T>, outer: seq<nat>, inner: seq<nat>)
    requires forall q :: 0 <= q < |outer| ==> outer[q] < |points|
    requires forall q :: 0 <= q < |inner| ==> inner[q] < |outer|
    ensures Pick(Pick(points, outer), inner) == Pick(points, Pick(outer, inner))
  {
  }

  method Sample<T>(points: seq<T>) returns (work: seq<T>)
    requires |points| > 2
    ensures work == SampledLine(points)
  {
    work := points;
    if |points| > MAX_SIMPLIFY_INPUT_POINTS {
      work := Decimate(points, MAX_SIMPLIFY_INPUT_POINTS);
    }
  }

  /** Go Simplify: a subsequence of the input that simplifies the sampled line within the tolerance. */
  method Simplify<T>(points: seq<T>, metric: Metric<T>, tolerance: real) returns (result: seq<T>)
    ensures |points| <= 2 || tolerance <= 0.0 ==> result == points
    ensures |points| > 2 && tolerance > 0.0 ==>
              && result == Pick(points, SimplifiedIndices(points, metric, tolerance))
              && Spans(SimplifiedIndices(points, metric, tolerance), |points|)
              && Even(SampleIndices(|points|), |points|)
              && Simplifies(SampledLine(points), metric, tolerance, KeptIndices(SampledLine(points), metric, tolerance))
  {
    if |points| <= 2 || tolerance <= 0.0 {
      return points;
    }
    var work := Sample(points);
    SimplifiedIsSubsequence(points, metric, tolerance);
    SampleSpans(|points|);
    PickTwice(points, SampleIndices(|points|), KeptIndices(work, metric, tolerance));
    result := SimplifySample(work, metric, tolerance);
  }

  function LinkSimplification<T>(points: seq<T>, metric: Metric<T>, tolerance: real): (r: seq<T>)
    ensures |r| >= 2 || r == points
  {
    if |points| < 3 then points else Pick(points, KeptIndices(points, metric, tolerance))
  }

  /** TypeScript simplify: the same recursion without decimation. */
  method SimplifyForLink<T>(points: seq<T>, metric: Metric<T>, tolerance: real) returns (result: seq<T>)
    ensures result == LinkSimplification(points, metric, tolerance)
  {
    if |points| < 3 {
      return points;
    }
    KeptIndicesSimplify(points, metric, tolerance);
    var keep := new bool[|points|](_ => false);
    keep[0] := true;
    keep[|points| - 1] := true;
    var stack := [Interval(0, |points| - 1)];
    ProgressStart(points, metric, tolerance, keep[..]);
    while |stack| > 0
      invariant Progress(points, metric, tolerance, stack, keep[..])
      decreases Work(stack)
    {
      var current, rest := stack[|stack| - 1], stack[..|stack| - 1];
      assert stack == rest + [current] && stack[|rest|] == current;
      ghost var was := keep[..];
      stack := rest;
      var farthest := FarthestBeyond(points, metric, tolerance, current.first, current.last);
      if farthest > 0 {
        ProgressSplit(points, metric, tolerance, rest, current, farthest, was);
        keep[farthest] := true;
        assert keep[..] == was[farthest := true];
        stack := stack + [Interval(current.first, farthest), Interval(farthest, current.last)];
      } else {
        ProgressDrop(points, metric, tolerance, rest, current, was);
      }
    }
    ProgressEnd(points, metric, tolerance, keep[..]);
    result := CollectKept(points, keep, KeptIndices(points, metric, tolerance));
  }
}
