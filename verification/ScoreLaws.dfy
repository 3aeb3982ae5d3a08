/** What the scores of the similarity cache are, by counting, and which entry a query finds. */
module ScoreLaws {
  import opened Wrappers
  import opened Vectors
  import opened SemanticCache
  import opened SemanticLaws

  // ---------------------------------------------------------------- the score counts equal words

  /** The pairs of a word of `a` and an equal word of `b`. */
  function Pairs(a: seq<string>, b: seq<string>): nat {
    if a == [] then 0 else Pairs(a[..|a| - 1], b) + Occurrences(b, a[|a| - 1])
  }

  /** Counting one more word adds that word's weight on the other side. */
  lemma {:induction false} DotCounted(q: Vector, word: string, v: Vector)
    requires DistinctWords(q) && DistinctWords(v)
    ensures Dot(Counted(q, word), v) == Dot(q, v) + At(v, word)
  {
    if v != [] {
      var first, rest := v[0], v[1..];
      DotCounted(q, word, rest);
      CountedLaws(q, word, first.word);
      TermAdds(At(q, first.word), first.weight, if first.word == word then 1.0 else 0.0);
      if first.word == word {
        AtAbsent(rest, word);
      }
    }
  }

  lemma TermAdds(x: real, weight: real, one: real)
    ensures (x + one) * weight == x * weight + one * weight
  {
  }

  /** The product of two tallies is the number of pairs of equal words. */
  lemma {:induction false} TallyDot(a: seq<string>, b: seq<string>)
    ensures Dot(Tally(a), Tally(b)) == Pairs(a, b) as real
    decreases |a|
  {
    hide Counted, Dot, At, DistinctWords, Occurrences;
    TallyCounts(b, "");
    if a == [] {
      DotNothing(Tally(b));
    } else {
      var init, last := a[..|a| - 1], a[|a| - 1];
      TallyDot(init, b);
      TallyCounts(init, "");
      TallyCounts(b, last);
      DotCounted(Tally(init), last, Tally(b));
    }
  }

  /** The squares of a vector are its product with itself. */
  lemma {:induction false} DotSelf(q: Vector, v: Vector)
    requires forall i :: 0 <= i < |v| ==> At(q, v[i].word) == v[i].weight
    ensures Dot(q, v) == Squares(v)
  {
    if v != [] {
      var rest := v[1..];
      assert forall i :: 0 <= i < |rest| ==> rest[i] == v[i + 1];
      DotSelf(q, rest);
    }
  }

  lemma TallySquares(a: seq<string>)
    ensures Squares(Tally(a)) == Pairs(a, a) as real
  {
    hide Dot, Squares, At;
    TallyCounts(a, "");
    var v := Tally(a);
    forall i | 0 <= i < |v|
      ensures At(v, v[i].word) == v[i].weight
    {
      AtIndex(v, i);
    }
    DotSelf(v, v);
    TallyDot(a, a);
  }

  lemma {:induction false} DotDivided(q: Vector, v: Vector, m: real, n: real)
    requires m > 0.0 && n > 0.0
    ensures Dot(Divided(q, m), Divided(v, n)) * (m * n) == Dot(q, v)
  {
    if v == [] {
    } else {
      var first := v[0];
      DotDivided(q, v[1..], m, n);
      AtDivided(q, m, first.word);
      DividedTerm(At(q, first.word), first.weight, m, n);
      Spread(At(q, first.word) / m * (first.weight / n), Dot(Divided(q, m), Divided(v[1..], n)), m * n);
      assert Divided(v, n)[1..] == Divided(v[1..], n);
    }
  }

  lemma Spread(x: real, y: real, k: real)
    ensures (x + y) * k == x * k + y * k
  {
  }

  lemma DividedTerm(x: real, y: real, m: real, n: real)
    requires m > 0.0 && n > 0.0
    ensures (x / m * (y / n)) * (m * n) == x * y
  {
    var a, b := x / m, y / n;
    assert a * m == x && b * n == y;
    assert (a * b) * (m * n) == (a * m) * (b * n);
  }

  /**
   The score of two texts with words is the number of pairs of equal words over the roots of each text's own
   number of such pairs.
   */
  lemma ScoreIs(a: seq<string>, b: seq<string>, sqrt: Root) returns (m: real, n: real)
    requires IsRoot(sqrt) && a != [] && b != []
    ensures m > 0.0 && n > 0.0 && m * m == Pairs(a, a) as real && n * n == Pairs(b, b) as real
    ensures Dot(Embedded(a, sqrt), Embedded(b, sqrt)) * (m * n) == Pairs(a, b) as real
  {
    hide IsRoot, Dot, Squares, Norm, Tally, Divided, Pairs;
    m, n := Norm(Tally(a), sqrt), Norm(Tally(b), sqrt);
    NormIsRoot(a, sqrt);
    NormIsRoot(b, sqrt);
    TallySquares(a);
    TallySquares(b);
    TallyDot(a, b);
    DotDivided(Tally(a), Tally(b), m, n);
  }

  // ---------------------------------------------------------------- which entry is found

  /** The entry scores above zero and at least the threshold. */
  ghost predicate Matches<R>(entry: Entry<R>, q: Vector, threshold: real) {
    Dot(q, entry.vector) > 0.0 && Dot(q, entry.vector) >= threshold
  }

  /** A query finds the first entry of highest score, if that matches, and nothing exactly when none matches. */
  lemma LookupFindsFirst<R>(store: seq<Entry<R>>, q: Vector, threshold: real)
    ensures Lookup(store, q, threshold).None? <==> forall i :: 0 <= i < |store| ==> !Matches(store[i], q, threshold)
    ensures Lookup(store, q, threshold).Some? ==>
              exists i :: 0 <= i < |store| && Lookup(store, q, threshold) == Some(store[i].result)
                       && IsFirstBest(store, q, i) && Matches(store[i], q, threshold)
  {
    hide Dot, Best;
    if store == [] {
      assert Best(store, q, 0) == (0.0, None) by { BestOfNone(store, q); }
    } else {
      forall i | 0 <= i < |store|
        ensures var best := Best(store, q, |store|);
                && 0.0 <= best.0 && Dot(q, store[i].vector) <= best.0
                && (best.1.None? ==> best.0 == 0.0)
                && (best.1.Some? ==> Dot(q, store[best.1.value].vector) == best.0 > 0.0)
                && (best.1.Some? && i < best.1.value ==> Dot(q, store[i].vector) < best.0)
      {
        BestIsFirst(store, q, |store|, i);
        BestPositive(store, q, |store|);
      }
      var best := Best(store, q, |store|);
      assert Dot(q, store[0].vector) <= best.0;
      if best.1.Some? {
        assert IsFirstBest(store, q, best.1.value);
      }
    }
  }

  ghost predicate IsFirstBest<R>(store: seq<Entry<R>>, q: Vector, i: int)
    requires 0 <= i < |store|
  {
    && (forall j :: 0 <= j < |store| ==> Dot(q, store[j].vector) <= Dot(q, store[i].vector))
    && (forall j :: 0 <= j < i ==> Dot(q, store[j].vector) < Dot(q, store[i].vector))
  }

  lemma BestOfNone<R>(store: seq<Entry<R>>, q: Vector)
    ensures Best(store, q, 0) == (0.0, None)
  {
  }

  lemma {:induction false} BestPositive<R>(store: seq<Entry<R>>, q: Vector, n: nat)
    requires n <= |store|
    ensures var best := Best(store, q, n); best.0 >= 0.0 && (best.1.Some? ==> best.0 > 0.0)
  {
    hide Dot;
    if n > 0 {
      BestPositive(store, q, n - 1);
    }
  }
}
