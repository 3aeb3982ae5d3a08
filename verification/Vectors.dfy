/** Vectors of real weights under distinct words: dot products, lengths and the Cauchy-Schwarz bound. */
module Vectors {

  datatype Term = Term(word: string, weight: real)

  /** A dictionary of weights in insertion order. */
  type Vector = seq<Term>

  /** `v.get(word, 0.0)`. */
  function At(v: Vector, word: string): real {
    if v == [] then 0.0 else if v[0].word == word then v[0].weight else At(v[1..], word)
  }

  predicate Holds(v: Vector, word: string) { exists i :: 0 <= i < |v| && v[i].word == word }

  predicate DistinctWords(v: Vector) {
    v == [] || (!Holds(v[1..], v[0].word) && DistinctWords(v[1..]))
  }

  /** `sum(q.get(k, 0.0) * x for k, x in v.items())`. */
  function Dot(q: Vector, v: Vector): real {
    if v == [] then 0.0 else At(q, v[0].word) * v[0].weight + Dot(q, v[1..])
  }

  function Times(x: real, y: real): real { x * y }

  function Square(x: real): real { Times(x, x) }

  /** Square roots; rounding is not modelled. */
  type Root = real -> real

  ghost predicate IsRoot(sqrt: Root) {
    forall x :: x >= 0.0 ==> sqrt(x) >= 0.0 && Square(sqrt(x)) == x
  }

  function Squares(v: Vector): real {
    if v == [] then 0.0 else Square(v[0].weight) + Squares(v[1..])
  }

  ghost predicate SameVector(q: Vector, v: Vector) { forall word :: At(q, word) == At(v, word) }

  lemma HoldsRest(v: Vector, word: string)
    requires v != []
    ensures Holds(v, word) <==> v[0].word == word || Holds(v[1..], word)
  {
    if Holds(v, word) {
      var i :| 0 <= i < |v| && v[i].word == word;
      assert i > 0 ==> v[1..][i - 1].word == word;
    }
    if Holds(v[1..], word) {
      var i :| 0 <= i < |v[1..]| && v[1..][i].word == word;
      assert v[i + 1].word == word;
    }
  }

  lemma {:induction false} AtAbsent(v: Vector, word: string)
    requires !Holds(v, word)
    ensures At(v, word) == 0.0
  {
    if v != [] {
      HoldsRest(v, word);
      AtAbsent(v[1..], word);
    }
  }

  lemma ProductPositive(x: real, y: real)
    requires x > 0.0 && y > 0.0
    ensures Times(x, y) > 0.0
  {
  }

  lemma SquarePositive(x: real)
    requires x > 0.0
    ensures Square(x) > 0.0
  {
    hide Times;
    ProductPositive(x, x);
  }

  lemma SquareOpposite(x: real)
    ensures Square(-x) == Square(x)
  {
  }

  lemma SquareZero(x: real)
    requires x == 0.0
    ensures Square(x) == 0.0
  {
  }

  lemma SquareNonNegative(x: real)
    ensures Square(x) >= 0.0
    ensures x != 0.0 ==> Square(x) > 0.0
  {
    hide Square;
    SquareOpposite(x);
    if x > 0.0 {
      SquarePositive(x);
    } else if x < 0.0 {
      SquarePositive(-x);
    } else {
      SquareZero(x);
    }
  }

  lemma {:induction false} SquaresNonNegative(v: Vector)
    ensures Squares(v) >= 0.0
  {
    if v != [] {
      SquareNonNegative(v[0].weight);
      SquaresNonNegative(v[1..]);
    }
  }

  // ---------------------------------------------------------------- the part of one vector under another's words

  /** The squares of q's weights under v's words. */
  function Part(q: Vector, v: Vector): real {
    if v == [] then 0.0 else Square(At(q, v[0].word)) + Part(q, v[1..])
  }

  lemma {:induction false} PartWithout(q: Vector, v: Vector)
    requires q != [] && !Holds(v, q[0].word)
    ensures Part(q, v) == Part(q[1..], v)
  {
    if v != [] {
      HoldsRest(v, q[0].word);
      PartWithout(q, v[1..]);
    }
  }

  lemma {:induction false} PartRest(q: Vector, v: Vector)
    requires q != [] && DistinctWords(q) && DistinctWords(v)
    ensures Part(q, v) == Part(q[1..], v) + (if Holds(v, q[0].word) then Square(q[0].weight) else 0.0)
  {
    if v != [] {
      HoldsRest(v, q[0].word);
      if v[0].word == q[0].word {
        PartWithout(q, v[1..]);
        AtAbsent(q[1..], q[0].word);
      } else {
        PartRest(q, v[1..]);
      }
    }
  }

  lemma {:induction false} PartNothing(v: Vector)
    ensures Part([], v) == 0.0
  {
    if v != [] {
      PartNothing(v[1..]);
    }
  }

  lemma {:induction false} PartAtMost(q: Vector, v: Vector)
    requires DistinctWords(q) && DistinctWords(v)
    ensures Part(q, v) <= Squares(q)
    decreases |q|
  {
    if q == [] {
      PartNothing(v);
    } else {
      PartRest(q, v);
      PartAtMost(q[1..], v);
      SquareNonNegative(q[0].weight);
    }
  }

  /** The squared distance of q and v, measured under v's words only. */
  function Gap(q: Vector, v: Vector): real {
    if v == [] then 0.0
    else Square(At(q, v[0].word) - v[0].weight) + Gap(q, v[1..])
  }

  lemma {:induction false} GapExpands(q: Vector, v: Vector)
    ensures Gap(q, v) == Part(q, v) - 2.0 * Dot(q, v) + Squares(v)
  {
    if v != [] {
      GapExpands(q, v[1..]);
      var x, y := At(q, v[0].word), v[0].weight;
      assert Square(x - y) == Square(x) - 2.0 * (x * y) + Square(y);
    }
  }

  lemma {:induction false} GapNonNegative(q: Vector, v: Vector)
    ensures Gap(q, v) >= 0.0
  {
    if v != [] {
      SquareNonNegative(At(q, v[0].word) - v[0].weight);
      GapNonNegative(q, v[1..]);
    }
  }

  lemma {:induction false} NoGap(q: Vector, v: Vector, word: string)
    requires Gap(q, v) == 0.0 && Holds(v, word)
    ensures At(q, word) == At(v, word)
  {
    hide Square;
    SquareNonNegative(At(q, v[0].word) - v[0].weight);
    GapNonNegative(q, v[1..]);
    HoldsRest(v, word);
    if v[0].word != word {
      NoGap(q, v[1..], word);
    }
  }

  // ---------------------------------------------------------------- unit vectors

  ghost predicate Unit(v: Vector) { DistinctWords(v) && Squares(v) == 1.0 }

  /** A vector dotted with `k` times itself. */
  lemma {:induction false} DotMultiple(q: Vector, v: Vector, k: real)
    requires forall i :: 0 <= i < |v| ==> At(q, v[i].word) == k * v[i].weight
    ensures Dot(q, v) == k * Squares(v)
  {
    if v != [] {
      var rest := v[1..];
      forall i | 0 <= i < |rest|
        ensures At(q, rest[i].word) == k * rest[i].weight
      {
        assert rest[i] == v[i + 1];
      }
      DotMultiple(q, rest, k);
      TimesScaled(k, v[0].weight, Squares(rest));
    }
  }

  lemma TimesScaled(k: real, x: real, rest: real)
    ensures k * x * x + k * rest == k * (Square(x) + rest)
  {
  }

  lemma {:induction false} AtIndex(v: Vector, i: nat)
    requires DistinctWords(v) && i < |v|
    ensures At(v, v[i].word) == v[i].weight
  {
    if i > 0 {
      AtIndex(v[1..], i - 1);
      assert v[1..][i - 1] == v[i];
    }
  }

  /** Cauchy-Schwarz for unit vectors: the dot product is at most 1, and 1 exactly for equal vectors. */
  lemma UnitDot(q: Vector, v: Vector)
    requires Unit(q) && Unit(v)
    ensures Dot(q, v) <= 1.0
    ensures Dot(q, v) == 1.0 <==> SameVector(q, v)
  {
    hide Dot, At, Part, Gap, Square, Squares, DistinctWords, Holds;
    PartAtMost(q, v);
    GapExpands(q, v);
    GapNonNegative(q, v);
    if Dot(q, v) == 1.0 {
      forall word
        ensures At(q, word) == At(v, word)
      {
        if Holds(v, word) {
          NoGap(q, v, word);
        } else {
          OutsideIsZero(q, v, word);
          AtAbsent(v, word);
        }
      }
    }
    if SameVector(q, v) {
      forall i | 0 <= i < |v|
        ensures At(q, v[i].word) == v[i].weight
      {
        AtIndex(v, i);
      }
      DotMultiple(q, v, 1.0);
    }
  }

  lemma PartStep(q: Vector, v: Vector)
    requires v != []
    ensures Part(q, v) == Square(At(q, v[0].word)) + Part(q, v[1..])
  {
  }

  /** When v's words carry all of q's length, q has no weight elsewhere. */
  lemma OutsideIsZero(q: Vector, v: Vector, word: string)
    requires DistinctWords(q) && DistinctWords(v) && Part(q, v) >= Squares(q) && !Holds(v, word)
    ensures At(q, word) == 0.0
  {
    hide At, Part, Square, Squares, Holds;
    var wider := [Term(word, 0.0)] + v;
    assert wider[1..] == v;
    PartStep(q, wider);
    PartAtMost(q, wider);
    SquareNonNegative(At(q, word));
  }

  lemma {:induction false} DotNonNegative(q: Vector, v: Vector)
    requires forall t :: t in q ==> t.weight >= 0.0
    requires forall t :: t in v ==> t.weight >= 0.0
    ensures Dot(q, v) >= 0.0
  {
    if v != [] {
      AtNonNegative(q, v[0].word);
      DotNonNegative(q, v[1..]);
    }
  }

  lemma {:induction false} AtNonNegative(v: Vector, word: string)
    requires forall t :: t in v ==> t.weight >= 0.0
    ensures At(v, word) >= 0.0
  {
    if v != [] {
      AtNonNegative(v[1..], word);
    }
  }
}
