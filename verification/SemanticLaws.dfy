/** Scores lie between 0 and 1, and a stored text is found again under the earliest entry of its direction. */
module SemanticLaws {
  import opened Wrappers
  import opened Vectors
  import opened SemanticCache

  // ---------------------------------------------------------------- counts

  function Occurrences(words: seq<string>, w: string): nat {
    if words == [] then 0
    else Occurrences(words[..|words| - 1], w) + (if words[|words| - 1] == w then 1 else 0)
  }

  lemma {:induction false} CountedLaws(v: Vector, word: string, w: string)
    requires DistinctWords(v)
    ensures DistinctWords(Counted(v, word))
    ensures Holds(Counted(v, word), w) <==> Holds(v, w) || w == word
    ensures At(Counted(v, word), w) == At(v, w) + (if w == word then 1.0 else 0.0)
  {
    var next := Counted(v, word);
    assert next != [];
    HoldsRest(next, w);
    if v == [] {
    } else if v[0].word == word {
      HoldsRest(v, w);
      assert next[1..] == v[1..];
    } else {
      HoldsRest(v, w);
      CountedLaws(v[1..], word, w);
      CountedLaws(v[1..], word, v[0].word);
      assert next[1..] == Counted(v[1..], word);
    }
  }

  lemma {:induction false} CountedPositive(v: Vector, word: string)
    requires forall t :: t in v ==> t.weight >= 1.0
    ensures forall t :: t in Counted(v, word) ==> t.weight >= 1.0
  {
    if v != [] && v[0].word != word {
      CountedPositive(v[1..], word);
    }
  }

  /** The tally counts every word, each under one entry. */
  lemma {:induction false} TallyCounts(words: seq<string>, w: string)
    ensures DistinctWords(Tally(words)) && At(Tally(words), w) == Occurrences(words, w) as real
    ensures forall t :: t in Tally(words) ==> t.weight >= 1.0
    ensures words != [] ==> Tally(words) != []
    decreases |words|
  {
    if words != [] {
      var init, last := words[..|words| - 1], words[|words| - 1];
      TallyCounts(init, w);
      CountedLaws(Tally(init), last, w);
      CountedPositive(Tally(init), last);
    }
  }

  // ---------------------------------------------------------------- unit vectors

  lemma {:induction false} AtDivided(v: Vector, n: real, w: string)
    requires n != 0.0
    ensures At(Divided(v, n), w) == At(v, w) / n
    ensures Holds(Divided(v, n), w) <==> Holds(v, w)
  {
    if v != [] {
      AtDivided(v[1..], n, w);
      HoldsRest(v, w);
      HoldsRest(Divided(v, n), w);
    }
  }

  lemma {:induction false} DividedDistinct(v: Vector, n: real)
    requires n != 0.0 && DistinctWords(v)
    ensures DistinctWords(Divided(v, n))
  {
    if v != [] {
      DividedDistinct(v[1..], n);
      AtDivided(v[1..], n, v[0].word);
    }
  }

  lemma {:induction false} SquaresDivided(v: Vector, n: real)
    requires n != 0.0
    ensures Times(Square(n), Squares(Divided(v, n))) == Squares(v)
  {
    if v != [] {
      SquaresDivided(v[1..], n);
      SquareDivided(v[0].weight, n);
      TimesSum(Square(n), Square(v[0].weight / n), Squares(Divided(v[1..], n)));
    }
  }

  lemma SquareDivided(x: real, n: real)
    requires n != 0.0
    ensures Times(Square(n), Square(x / n)) == Square(x)
  {
    var y := x / n;
    assert y * n == x;
    assert Square(y * n) == Times(Square(n), Square(y));
  }

  lemma TimesSum(k: real, x: real, y: real)
    ensures Times(k, x) + Times(k, y) == Times(k, x + y)
  {
  }

  lemma TimesCancel(k: real, x: real)
    requires k > 0.0 && Times(k, x) == k
    ensures x == 1.0
  {
    assert k * (x - 1.0) == 0.0;
  }

  lemma {:induction false} SquaresPositive(v: Vector)
    requires v != [] && forall t :: t in v ==> t.weight >= 1.0
    ensures Squares(v) > 0.0
  {
    hide Square;
    assert v[0] in v;
    SquarePositive(v[0].weight);
    SquaresNonNegative(v[1..]);
  }

  /** The length a tally is divided by is the root of its squares. */
  lemma NormIsRoot(words: seq<string>, sqrt: Root)
    requires IsRoot(sqrt) && words != []
    ensures Norm(Tally(words), sqrt) > 0.0 && Square(Norm(Tally(words), sqrt)) == Squares(Tally(words)) > 0.0
  {
    TallyCounts(words, "");
    SquaresPositive(Tally(words));
    var n := sqrt(Squares(Tally(words)));
    assert n >= 0.0 && Square(n) == Squares(Tally(words));
    SquareZeroOnly(n);
  }

  lemma SquareZeroOnly(n: real)
    requires Square(n) > 0.0
    ensures n != 0.0
  {
  }

  /** The embedding of a text with words is a unit vector. */
  lemma EmbeddedIsUnit(words: seq<string>, sqrt: Root)
    requires IsRoot(sqrt) && words != []
    ensures Unit(Embedded(words, sqrt))
  {
    hide Square, Norm, Tally, Squares, DistinctWords;
    var v, n := Tally(words), Norm(Tally(words), sqrt);
    TallyCounts(words, "");
    NormIsRoot(words, sqrt);
    DividedDistinct(v, n);
    SquaresDivided(v, n);
    TimesCancel(Square(n), Squares(Divided(v, n)));
  }

  lemma {:induction false} DividedNonNegative(v: Vector, n: real)
    requires n > 0.0 && forall t :: t in v ==> t.weight >= 1.0
    ensures forall t :: t in Divided(v, n) ==> t.weight >= 0.0
  {
    if v != [] {
      assert v[0] in v;
      assert v[0].weight / n >= 0.0;
      DividedNonNegative(v[1..], n);
    }
  }

  lemma EmbeddedNonNegative(words: seq<string>, sqrt: Root)
    requires IsRoot(sqrt)
    ensures forall t :: t in Embedded(words, sqrt) ==> t.weight >= 0.0
  {
    if words != [] {
      TallyCounts(words, "");
      NormIsRoot(words, sqrt);
      DividedNonNegative(Tally(words), Norm(Tally(words), sqrt));
    }
  }

  lemma {:induction false} DotNothing(v: Vector)
    ensures Dot([], v) == 0.0
  {
    if v != [] {
      DotNothing(v[1..]);
    }
  }

  /** Every score lies between 0 and 1; texts without words score 0. */
  lemma ScoreRange(q: seq<string>, words: seq<string>, sqrt: Root)
    requires IsRoot(sqrt)
    ensures 0.0 <= Dot(Embedded(q, sqrt), Embedded(words, sqrt)) <= 1.0
    ensures q == [] || words == [] ==> Dot(Embedded(q, sqrt), Embedded(words, sqrt)) == 0.0
  {
    hide IsRoot, Dot, Norm;
    EmbeddedNonNegative(q, sqrt);
    EmbeddedNonNegative(words, sqrt);
    DotNonNegative(Embedded(q, sqrt), Embedded(words, sqrt));
    if q == [] {
      DotNothing(Embedded(words, sqrt));
    } else if words == [] {
      DotEmpty(Embedded(q, sqrt));
    } else {
      EmbeddedIsUnit(q, sqrt);
      EmbeddedIsUnit(words, sqrt);
      UnitDot(Embedded(q, sqrt), Embedded(words, sqrt));
    }
  }

  lemma DotEmpty(q: Vector)
    ensures Dot(q, []) == 0.0
  {
  }

  // ---------------------------------------------------------------- direction

  /** The word counts of two texts are proportional. */
  ghost predicate Proportional(a: seq<string>, b: seq<string>) {
    exists r: real :: r > 0.0 && ScaledBy(a, b, r)
  }

  ghost predicate ScaledBy(a: seq<string>, b: seq<string>, r: real) {
    forall w :: Occurrences(a, w) as real == r * Occurrences(b, w) as real
  }

  /** A weight of the embedding is the word's count over the norm. */
  lemma WeightIs(words: seq<string>, sqrt: Root, w: string)
    requires IsRoot(sqrt) && words != []
    ensures var n := Norm(Tally(words), sqrt);
            n > 0.0 && At(Embedded(words, sqrt), w) == Occurrences(words, w) as real / n
  {
    hide IsRoot, At, Norm;
    TallyCounts(words, w);
    NormIsRoot(words, sqrt);
    AtDivided(Tally(words), Norm(Tally(words), sqrt), w);
  }

  lemma Ratio(x: real, m: real, y: real, n: real, r: real)
    requires m > 0.0 && n > 0.0 && x == r * y
    ensures x / m == (r * n / m) * (y / n)
  {
    var z := y / n;
    assert z * n == y;
    assert r * y == r * n * z;
    assert x == r * n * z;
    assert x / m == (r * n * z) / m;
    assert (r * n * z) / m == (r * n / m) * z;
  }

  lemma PositiveRatio(r: real, n: real, m: real)
    requires r > 0.0 && n > 0.0 && m > 0.0
    ensures r * n / m > 0.0
  {
    assert r * n > 0.0;
  }

  lemma Reciprocal(k: real)
    requires 0.0 < k <= 1.0
    ensures 1.0 / k >= 1.0
    ensures 1.0 / k <= 1.0 ==> k == 1.0
  {
  }

  /** Unit vectors that are positive multiples of each other are equal. */
  lemma UnitMultiples(u: Vector, v: Vector, k: real)
    requires Unit(u) && Unit(v) && k > 0.0 && forall w :: At(u, w) == k * At(v, w)
    ensures SameVector(u, v)
  {
    hide Dot, Squares, At;
    forall i | 0 <= i < |v|
      ensures At(u, v[i].word) == k * v[i].weight
    {
      AtIndex(v, i);
    }
    DotMultiple(u, v, k);
    forall i | 0 <= i < |u|
      ensures At(v, u[i].word) == (1.0 / k) * u[i].weight
    {
      AtIndex(u, i);
      assert At(u, u[i].word) == k * At(v, u[i].word);
      Undo(k, At(v, u[i].word));
    }
    DotMultiple(v, u, 1.0 / k);
    UnitDot(u, v);
    UnitDot(v, u);
    Reciprocal(k);
  }

  lemma Undo(k: real, x: real)
    requires k > 0.0
    ensures (1.0 / k) * (k * x) == x
  {
    var y := k * x;
    assert y / k == x;
    assert (1.0 / k) * y == y / k;
  }

  /** Two embeddings are equal exactly when the word counts are proportional. */
  lemma SameIffProportional(a: seq<string>, b: seq<string>, sqrt: Root)
    requires IsRoot(sqrt) && a != [] && b != []
    ensures SameVector(Embedded(a, sqrt), Embedded(b, sqrt)) <==> Proportional(a, b)
  {
    hide IsRoot, At, Norm, Embedded, Occurrences;
    var u, v := Embedded(a, sqrt), Embedded(b, sqrt);
    var m, n := Norm(Tally(a), sqrt), Norm(Tally(b), sqrt);
    WeightIs(a, sqrt, "");
    WeightIs(b, sqrt, "");
    if Proportional(a, b) {
      var r: real :| r > 0.0 && ScaledBy(a, b, r);
      PositiveRatio(r, n, m);
      var k := r * n / m;
      forall w
        ensures At(u, w) == k * At(v, w)
      {
        WeightIs(a, sqrt, w);
        WeightIs(b, sqrt, w);
        Ratio(Occurrences(a, w) as real, m, Occurrences(b, w) as real, n, r);
      }
      EmbeddedIsUnit(a, sqrt);
      EmbeddedIsUnit(b, sqrt);
      UnitMultiples(u, v, k);
    }
    if SameVector(u, v) {
      PositiveRatio(m, 1.0, n);
      var r := m * 1.0 / n;
      forall w
        ensures Occurrences(a, w) as real == r * Occurrences(b, w) as real
      {
        WeightIs(a, sqrt, w);
        WeightIs(b, sqrt, w);
        assert At(u, w) == At(v, w);
        SameRatio(Occurrences(a, w) as real, m, Occurrences(b, w) as real, n);
      }
      assert ScaledBy(a, b, r);
    }
  }

  lemma SameRatio(x: real, m: real, y: real, n: real)
    requires m > 0.0 && n > 0.0 && x / m == y / n
    ensures x == (m * 1.0 / n) * y
  {
    var z := x / m;
    assert x == z * m && y == z * n;
    assert (m / n) * (z * n) == m * z;
  }

  // ---------------------------------------------------------------- lookups

  /** The best score is the highest; the entry found is the first that has it. */
  lemma {:induction false} BestIsFirst<R>(store: seq<Entry<R>>, q: Vector, n: nat, i: nat)
    requires i < n <= |store|
    ensures var best := Best(store, q, n);
            && 0.0 <= best.0 && Dot(q, store[i].vector) <= best.0
            && (best.1.None? ==> best.0 == 0.0)
            && (best.1.Some? ==> Dot(q, store[best.1.value].vector) == best.0)
            && (best.1.Some? && i < best.1.value ==> Dot(q, store[i].vector) < best.0)
    decreases n
  {
    hide Dot;
    if i < n - 1 {
      BestIsFirst(store, q, n - 1, i);
    } else if n > 1 {
      BestIsFirst(store, q, n - 1, 0);
    }
  }

  /** The store holds the embeddings of these texts' words, in order. */
  ghost predicate Holding<R>(store: seq<Entry<R>>, texts: seq<seq<string>>, sqrt: Root) {
    |store| == |texts| && forall i :: 0 <= i < |store| ==> store[i].vector == Embedded(texts[i], sqrt)
  }

  /** The earliest stored text whose counts are proportional to the words' counts. */
  ghost predicate EarliestProportional(texts: seq<seq<string>>, words: seq<string>, j: nat) {
    && j < |texts| && texts[j] != [] && Proportional(words, texts[j])
    && forall i :: 0 <= i < j && texts[i] != [] ==> !Proportional(words, texts[i])
  }

  /**
   Once a text with at least one word is stored, querying it with a threshold of at most 1 gives the result
   of the earliest stored text whose word counts are proportional to its own.
   */
  lemma StoredIsFound<R>(store: seq<Entry<R>>, texts: seq<seq<string>>, words: seq<string>, j: nat, threshold: real,
                         sqrt: Root)
    requires IsRoot(sqrt) && Holding(store, texts, sqrt) && words != [] && threshold <= 1.0
    requires EarliestProportional(texts, words, j)
    ensures Lookup(store, Embedded(words, sqrt), threshold) == Some(store[j].result)
  {
    hide IsRoot, Dot, Embedded, Proportional, Best;
    var q, n := Embedded(words, sqrt), |store|;
    var best := Best(store, q, n);
    ScoreIsOne(store, texts, words, j, sqrt);
    BestIsFirst(store, q, n, j);
    var found := best.1.value;
    ScoreRange(words, texts[found], sqrt);
    ScoreIsOne(store, texts, words, found, sqrt);
    BestIsFirst(store, q, n, found);
  }

  /** An entry scores 1 exactly when its text has words and proportional counts. */
  lemma ScoreIsOne<R>(store: seq<Entry<R>>, texts: seq<seq<string>>, words: seq<string>, i: nat, sqrt: Root)
    requires IsRoot(sqrt) && Holding(store, texts, sqrt) && words != [] && i < |store|
    ensures Dot(Embedded(words, sqrt), store[i].vector) == 1.0 <==> texts[i] != [] && Proportional(words, texts[i])
  {
    hide IsRoot, Dot, Embedded, Proportional;
    ScoreRange(words, texts[i], sqrt);
    if texts[i] != [] {
      EmbeddedIsUnit(words, sqrt);
      EmbeddedIsUnit(texts[i], sqrt);
      UnitDot(Embedded(words, sqrt), Embedded(texts[i], sqrt));
      SameIffProportional(words, texts[i], sqrt);
    }
  }

  lemma ProportionalToItself(words: seq<string>)
    ensures Proportional(words, words)
  {
    assert ScaledBy(words, words, 1.0);
  }

  lemma {:induction false} EarliestExists(texts: seq<seq<string>>, words: seq<string>, k: nat) returns (j: nat)
    requires k < |texts| && texts[k] != [] && Proportional(words, texts[k])
    ensures j <= k && EarliestProportional(texts, words, j)
  {
    hide Proportional;
    j := k;
    if i :| 0 <= i < k && texts[i] != [] && Proportional(words, texts[i]) {
      j := EarliestExists(texts, words, i);
    }
  }

  // ---------------------------------------------------------------- storing, then querying

  datatype Put<R> = Put(text: string, result: R)

  /** The entries after these calls of `Store.Put` on an empty store. */
  function Filled<R>(puts: seq<Put<R>>, sqrt: Root): (store: seq<Entry<R>>)
    ensures |store| == |puts|
  {
    if puts == [] then []
    else
      var n := |puts| - 1;
      Filled(puts[..n], sqrt) + [Entry(Embedded(Terms(puts[n].text), sqrt), puts[n].result)]
  }

  function Words<R>(puts: seq<Put<R>>): seq<seq<string>> {
    seq(|puts|, i requires 0 <= i < |puts| => Terms(puts[i].text))
  }

  lemma {:induction false} FilledAt<R>(puts: seq<Put<R>>, sqrt: Root, i: nat)
    requires i < |puts|
    ensures Filled(puts, sqrt)[i] == Entry(Embedded(Terms(puts[i].text), sqrt), puts[i].result)
    decreases |puts|
  {
    hide Embedded, Terms;
    if i < |puts| - 1 {
      FilledAt(puts[..|puts| - 1], sqrt, i);
    }
  }

  /**
   After any calls of `Put`, a text with words that was stored by call `k` is found: with a threshold of at
   most 1, `Query` gives the result of the earliest call whose text has proportional word counts.
   */
  lemma PutThenQuery<R>(puts: seq<Put<R>>, k: nat, threshold: real, sqrt: Root) returns (j: nat)
    requires IsRoot(sqrt) && k < |puts| && Terms(puts[k].text) != [] && threshold <= 1.0
    ensures j <= k && EarliestProportional(Words(puts), Terms(puts[k].text), j)
    ensures Lookup(Filled(puts, sqrt), Embedded(Terms(puts[k].text), sqrt), threshold) == Some(puts[j].result)
  {
    hide IsRoot, Embedded, Terms, Proportional, EarliestProportional, Lookup;
    var words := Terms(puts[k].text);
    ProportionalToItself(words);
    j := EarliestExists(Words(puts), words, k);
    forall i | 0 <= i < |puts|
      ensures Filled(puts, sqrt)[i].vector == Embedded(Words(puts)[i], sqrt)
    {
      FilledAt(puts, sqrt, i);
    }
    FilledAt(puts, sqrt, j);
    StoredIsFound(Filled(puts, sqrt), Words(puts), words, j, threshold, sqrt);
  }
}
