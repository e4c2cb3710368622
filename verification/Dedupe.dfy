/** Greedy removal of routes that follow the same geometry, fastest first. */
module Dedupe {
  import opened Domain
  import opened Sorting
  import opened Ranking

  /** Whether the first route repeats the geometry of the second. */
  type Duplicate = (Candidate, Candidate) -> bool

  function Faster(): (Candidate, Candidate) -> bool {
    (a, b) => Quicker(a, b)
  }

  predicate Repeats(c: Candidate, kept: seq<Candidate>, duplicate: Duplicate) {
    exists i :: 0 <= i < |kept| && duplicate(c, kept[i])
  }

  function Greedy(ordered: seq<Candidate>, duplicate: Duplicate): (kept: seq<Candidate>)
    ensures |kept| <= |ordered|
  {
    if ordered == [] then []
    else
      var kept, c := Greedy(ordered[..|ordered| - 1], duplicate), ordered[|ordered| - 1];
      if Repeats(c, kept, duplicate) then kept else kept + [c]
  }

  function Deduplicated(candidates: seq<Candidate>, duplicate: Duplicate): (kept: seq<Candidate>)
    ensures |kept| <= |candidates|
  {
    Greedy(StableSort(candidates, Faster()), duplicate)
  }

  method Deduplicate(candidates: seq<Candidate>, duplicate: Duplicate) returns (result: seq<Candidate>, dropped: nat)
    ensures result == Deduplicated(candidates, duplicate)
    ensures |result| + dropped == |candidates|
  {
    var ordered := StableSort(candidates, Faster());
    result, dropped := [], 0;
    for i := 0 to |ordered|
      invariant result == Greedy(ordered[..i], duplicate)
      invariant |result| + dropped == i
    {
      assert ordered[..i + 1][..i] == ordered[..i];
      var repeated := false;
      for j := 0 to |result|
        invariant !repeated
        invariant forall k :: 0 <= k < j ==> !duplicate(ordered[i], result[k])
      {
        if duplicate(ordered[i], result[j]) {
          repeated := true;
          break;
        }
      }
      if repeated {
        dropped := dropped + 1;
      } else {
        result := result + [ordered[i]];
      }
    }
    assert ordered[..|ordered|] == ordered;
  }

  lemma FasterIsWeakOrder()
    ensures WeakOrder(Faster())
  {
    var less := Faster();
    forall a: Candidate, b: Candidate ensures less(a, b) ==> !less(b, a) {
      CompareTextAntisymmetric(a.id, b.id);
    }
    forall a: Candidate, b: Candidate, c: Candidate | !less(b, a) && !less(c, b) ensures !less(c, a) {
      CompareTextAntisymmetric(a.id, b.id);
      CompareTextAntisymmetric(b.id, c.id);
      CompareTextAntisymmetric(a.id, c.id);
      if CompareText(a.id, b.id) <= 0 && CompareText(b.id, c.id) <= 0 {
        CompareTextTransitive(a.id, b.id, c.id);
      }
    }
  }

  ghost predicate Irredundant(kept: seq<Candidate>, duplicate: Duplicate) {
    forall i, j :: 0 <= i < j < |kept| ==> !duplicate(kept[j], kept[i])
  }

  /** c is represented: kept itself, or a duplicate of a kept route that is no slower. */
  ghost predicate Represented(c: Candidate, kept: seq<Candidate>, duplicate: Duplicate) {
    c in kept || exists i :: 0 <= i < |kept| && duplicate(c, kept[i]) && !Quicker(c, kept[i])
  }

  lemma {:induction false} GreedyInvariant(ordered: seq<Candidate>, duplicate: Duplicate)
    requires Sorted(ordered, Faster())
    ensures var kept := Greedy(ordered, duplicate);
            && Sorted(kept, Faster()) && Irredundant(kept, duplicate)
            && (forall c :: c in kept ==> c in ordered)
            && (forall c :: c in ordered ==> Represented(c, kept, duplicate))
  {
    if ordered != [] {
      var front, last := ordered[..|ordered| - 1], ordered[|ordered| - 1];
      GreedyInvariant(front, duplicate);
      var before, kept := Greedy(front, duplicate), Greedy(ordered, duplicate);
      assert forall c :: c in before ==> !Quicker(last, c);
      forall c | c in ordered ensures Represented(c, kept, duplicate) {
        if c in front {
          assert Represented(c, before, duplicate);
          if c !in before {
            var i :| 0 <= i < |before| && duplicate(c, before[i]) && !Quicker(c, before[i]);
            assert kept[i] == before[i];
          }
        } else if Repeats(last, before, duplicate) {
          var i :| 0 <= i < |before| && duplicate(last, before[i]);
          assert before[i] in before;
        }
      }
    }
  }

  lemma {:induction false} GreedyKeepsIrredundant(kept: seq<Candidate>, duplicate: Duplicate)
    requires Irredundant(kept, duplicate)
    ensures Greedy(kept, duplicate) == kept
  {
    if kept != [] {
      var front := kept[..|kept| - 1];
      GreedyKeepsIrredundant(front, duplicate);
      assert !Repeats(kept[|kept| - 1], front, duplicate);
      assert kept == front + [kept[|kept| - 1]];
    }
  }

  /** Rising by duration, then by identifier. */
  ghost predicate InOrder(kept: seq<Candidate>) {
    forall i, j :: 0 <= i < j < |kept| ==>
      || kept[i].live < kept[j].live
      || (kept[i].live == kept[j].live && (kept[i].id == kept[j].id || TextBefore(kept[i].id, kept[j].id)))
  }

  lemma SortedIsInOrder(kept: seq<Candidate>)
    requires Sorted(kept, Faster())
    ensures InOrder(kept)
  {
    forall i, j | 0 <= i < j < |kept| ensures !Quicker(kept[j], kept[i]) {
      assert !Faster()(kept[j], kept[i]);
    }
    forall i, j | 0 <= i < j < |kept|
      ensures || kept[i].live < kept[j].live
              || (kept[i].live == kept[j].live && (kept[i].id == kept[j].id || TextBefore(kept[i].id, kept[j].id)))
    {
      QuickerMeans(kept[j], kept[i]);
    }
  }

  /** Ordered output, no redundancy, and a no-slower representative for every dropped route. */
  lemma DeduplicateRepresents(candidates: seq<Candidate>, duplicate: Duplicate)
    ensures var kept := Deduplicated(candidates, duplicate);
            && Sorted(kept, Faster()) && InOrder(kept) && Irredundant(kept, duplicate)
            && (forall c :: c in kept ==> c in candidates)
            && (forall c :: c in candidates ==> Represented(c, kept, duplicate))
  {
    var ordered := StableSort(candidates, Faster());
    FasterIsWeakOrder();
    StableSortSorts(candidates, Faster());
    GreedyInvariant(ordered, duplicate);
    SortedIsInOrder(Greedy(ordered, duplicate));
    forall c ensures c in ordered <==> c in candidates {
      assert c in ordered <==> c in multiset(ordered);
      assert c in candidates <==> c in multiset(candidates);
    }
  }

  /** A second application drops nothing. */
  lemma DeduplicateIsIdempotent(candidates: seq<Candidate>, duplicate: Duplicate)
    ensures var kept := Deduplicated(candidates, duplicate);
            Deduplicated(kept, duplicate) == kept
  {
    var kept := Deduplicated(candidates, duplicate);
    DeduplicateRepresents(candidates, duplicate);
    StableSortFixpoint(kept, Faster());
    GreedyKeepsIrredundant(kept, duplicate);
  }
}
