/** Cosine scores lie between -1 and 1, and the ranking puts the earliest of the best entries first. */
module VectorStoreLaws {
  import opened Collections
  import opened Vectors
  import opened VectorStore

  // ---------------------------------------------------------------- Cauchy-Schwarz

  function Spread(x: real, y: real, m: real, k: real): real { Square(m * x - k * y) }

  /** The squared length of `m * a - k * b`. */
  function GapOf(a: seq<real>, b: seq<real>, m: real, k: real): real
    requires |a| == |b|
  {
    if a == [] then 0.0 else Spread(a[0], b[0], m, k) + GapOf(a[1..], b[1..], m, k)
  }

  lemma GapTerm(x: real, y: real, m: real, k: real)
    ensures Spread(x, y, m, k) ==
              Times(Square(m), Square(x)) - 2.0 * Times(Times(m, k), Times(x, y)) + Times(Square(k), Square(y))
  {
    var p, q := m * x, k * y;
    assert (p - q) * (p - q) == p * p - 2.0 * (p * q) + q * q;
    assert p * p == (m * m) * (x * x);
    assert q * q == (k * k) * (y * y);
    assert p * q == (m * k) * (x * y);
  }

  lemma {:induction false} GapOfExpands(a: seq<real>, b: seq<real>, m: real, k: real)
    requires |a| == |b|
    ensures GapOf(a, b, m, k)
            == Times(Square(m), SquaresOf(a)) - 2.0 * Times(Times(m, k), DotOf(a, b)) + Times(Square(k), SquaresOf(b))
  {
    hide Times, Square, Spread;
    if a == [] {
      TimesZero(Square(m));
      TimesZero(Times(m, k));
      TimesZero(Square(k));
    } else {
      GapTerm(a[0], b[0], m, k);
      GapOfExpands(a[1..], b[1..], m, k);
      TimesAdds(Square(m), Square(a[0]), SquaresOf(a[1..]), SquaresOf(a));
      TimesAdds(Times(m, k), Times(a[0], b[0]), DotOf(a[1..], b[1..]), DotOf(a, b));
      TimesAdds(Square(k), Square(b[0]), SquaresOf(b[1..]), SquaresOf(b));
    }
  }

  lemma TimesZero(k: real)
    ensures Times(k, 0.0) == 0.0
  {
  }

  lemma TimesAdds(k: real, x: real, y: real, sum: real)
    requires sum == x + y
    ensures Times(k, x) + Times(k, y) == Times(k, sum)
  {
  }

  lemma {:induction false} GapOfNonNegative(a: seq<real>, b: seq<real>, m: real, k: real)
    requires |a| == |b|
    ensures GapOf(a, b, m, k) >= 0.0
    ensures GapOf(a, b, m, k) == 0.0 ==> forall i :: 0 <= i < |a| ==> m * a[i] == k * b[i]
  {
    hide Square;
    if a != [] {
      GapOfNonNegative(a[1..], b[1..], m, k);
      SquareNonNegative(m * a[0] - k * b[0]);
      forall i | 0 < i < |a|
        ensures a[i] == a[1..][i - 1] && b[i] == b[1..][i - 1]
      {
      }
    }
  }

  lemma SlackAbove(na: real, nb: real, d: real)
    ensures Times(Square(nb), Square(na)) - 2.0 * Times(Times(nb, na), d) + Times(Square(na), Square(nb))
            == 2.0 * Times(Times(na, nb), Times(na, nb) - d)
  {
  }

  lemma SlackBelow(na: real, nb: real, d: real)
    ensures Times(Square(nb), Square(na)) - 2.0 * Times(Times(nb, -na), d) + Times(Square(-na), Square(nb))
            == 2.0 * Times(Times(na, nb), Times(na, nb) + d)
  {
  }

  lemma TimesOpposite(p: real, x: real)
    ensures Times(p, -x) == -Times(p, x)
  {
  }

  lemma FactorNonNegative(p: real, x: real)
    requires p > 0.0 && Times(p, x) >= 0.0
    ensures x >= 0.0
    ensures Times(p, x) == 0.0 <==> x == 0.0
  {
    hide Times;
    TimesZero(p);
    TimesOpposite(p, x);
    if x < 0.0 {
      ProductPositive(p, -x);
    }
    if x > 0.0 {
      ProductPositive(p, x);
    }
  }

  lemma Quotient(d: real, p: real)
    requires p > 0.0 && -p <= d <= p
    ensures -1.0 <= d / p <= 1.0
    ensures d / p == 1.0 <==> d == p
  {
    var x := d / p;
    assert x * p == d;
  }

  /** One list is a positive multiple of the other. */
  ghost predicate Parallel(a: seq<real>, b: seq<real>) {
    |a| == |b| && exists r: real :: r > 0.0 && MultipleOf(a, b, r)
  }

  ghost predicate MultipleOf(a: seq<real>, b: seq<real>, r: real) {
    |a| == |b| && forall i :: 0 <= i < |a| ==> a[i] == r * b[i]
  }

  ghost predicate Zero(a: seq<real>) { forall i :: 0 <= i < |a| ==> a[i] == 0.0 }

  lemma {:induction false} SquaresOfPositive(a: seq<real>)
    ensures SquaresOf(a) >= 0.0
    ensures SquaresOf(a) == 0.0 <==> Zero(a)
  {
    hide Square;
    if a != [] {
      SquaresOfPositive(a[1..]);
      SquareNonNegative(a[0]);
      if a[0] == 0.0 {
        SquareZero(a[0]);
      }
      forall i | 0 < i < |a|
        ensures a[i] == a[1..][i - 1]
      {
      }
      if Zero(a) {
        assert a[0] == 0.0;
        assert Zero(a[1..]);
      }
    }
  }

  lemma {:induction false} MultipleSums(a: seq<real>, b: seq<real>, r: real)
    requires MultipleOf(a, b, r)
    ensures DotOf(a, b) == Times(r, SquaresOf(b))
    ensures SquaresOf(a) == Times(Square(r), SquaresOf(b))
  {
    if a == [] {
      TimesZero(r);
      TimesZero(Square(r));
    } else {
      assert a[0] == r * b[0];
      forall i | 0 <= i < |a[1..]|
        ensures a[1..][i] == r * b[1..][i]
      {
        assert a[i + 1] == r * b[i + 1];
      }
      MultipleSums(a[1..], b[1..], r);
      MultipleTerm(a[0], b[0], r);
      TimesAdds(r, Square(b[0]), SquaresOf(b[1..]), SquaresOf(b));
      TimesAdds(Square(r), Square(b[0]), SquaresOf(b[1..]), SquaresOf(b));
    }
  }

  lemma MultipleTerm(x: real, y: real, r: real)
    requires x == r * y
    ensures Times(x, y) == Times(r, Square(y)) && Square(x) == Times(Square(r), Square(y))
  {
    assert x * x == (r * r) * (y * y);
  }

  lemma SameSquares(x: real, y: real)
    requires x >= 0.0 && y >= 0.0 && Square(x) == Square(y)
    ensures x == y
  {
    assert (x - y) * (x + y) == 0.0;
    if x != y {
      var d := if x > y then x - y else y - x;
      ProductPositive(d, x + y);
    }
  }

  /** The lengths the score divides by. */
  lemma Lengths(a: seq<real>, sqrt: Root) returns (n: real)
    requires IsRoot(sqrt) && !Zero(a)
    ensures n == sqrt(SquaresOf(a)) && n > 0.0 && Square(n) == SquaresOf(a)
  {
    hide Square;
    SquaresOfPositive(a);
    n := sqrt(SquaresOf(a));
    if n == 0.0 {
      SquareZero(n);
    }
  }

  /** Every score lies between -1 and 1; it is 1 exactly for parallel lists that are not zero. */
  lemma CosineRange(a: seq<real>, b: seq<real>, sqrt: Root)
    requires IsRoot(sqrt)
    ensures -1.0 <= Cosine(a, b, sqrt) <= 1.0
    ensures Cosine(a, b, sqrt) == 1.0 <==> !Zero(a) && !Zero(b) && Parallel(a, b)
  {
    hide IsRoot, Square, Times, Zero, Parallel;
    if |a| == |b| && !Zero(a) && !Zero(b) {
      var na := Lengths(a, sqrt);
      var nb := Lengths(b, sqrt);
      EmptyIsZero(a);
      ProductPositive(na, nb);
      var d, p := DotOf(a, b), Times(na, nb);
      Bounds(a, b, na, nb);
      Quotient(d, p);
    } else {
      ZeroLength(a, sqrt);
      ZeroLength(b, sqrt);
      if Parallel(a, b) {
        assert |a| == |b| by {
          ParallelLengths(a, b);
        }
      }
    }
  }

  lemma ParallelLengths(a: seq<real>, b: seq<real>)
    requires Parallel(a, b)
    ensures |a| == |b|
  {
  }

  lemma EmptyIsZero(a: seq<real>)
    ensures a == [] ==> Zero(a)
  {
  }

  lemma ZeroLength(a: seq<real>, sqrt: Root)
    requires IsRoot(sqrt)
    ensures Zero(a) ==> sqrt(SquaresOf(a)) == 0.0
  {
    hide Square;
    if Zero(a) {
      SquaresOfPositive(a);
      var n := sqrt(SquaresOf(a));
      assert Square(n) == 0.0;
      SquareNonNegative(n);
    }
  }

  lemma Bounds(a: seq<real>, b: seq<real>, na: real, nb: real)
    requires |a| == |b| && na > 0.0 && nb > 0.0 && SquaresOf(a) == Square(na) && SquaresOf(b) == Square(nb)
    ensures -Times(na, nb) <= DotOf(a, b) <= Times(na, nb)
    ensures DotOf(a, b) == Times(na, nb) <==> Parallel(a, b)
  {
    hide Square, Times, SquaresOf, DotOf, GapOf;
    var d, p := DotOf(a, b), Times(na, nb);
    ProductPositive(na, nb);
    GapOfExpands(a, b, nb, na);
    GapOfExpands(a, b, nb, -na);
    SlackAbove(na, nb, d);
    SlackBelow(na, nb, d);
    GapOfNonNegative(a, b, nb, na);
    GapOfNonNegative(a, b, nb, -na);
    FactorNonNegative(p, p - d);
    FactorNonNegative(p, p + d);
    if d == p {
      ParallelFromGap(a, b, na, nb);
    }
    if Parallel(a, b) {
      var r: real :| r > 0.0 && MultipleOf(a, b, r);
      MultipleReaches(a, b, na, nb, r);
    }
  }

  lemma ParallelFromGap(a: seq<real>, b: seq<real>, na: real, nb: real)
    requires |a| == |b| && na > 0.0 && nb > 0.0 && forall i :: 0 <= i < |a| ==> nb * a[i] == na * b[i]
    ensures Parallel(a, b)
  {
    var r := na / nb;
    assert r > 0.0;
    forall i | 0 <= i < |a|
      ensures a[i] == r * b[i]
    {
      assert nb * a[i] == na * b[i];
      Solve(a[i], b[i], na, nb);
    }
    assert MultipleOf(a, b, r);
  }

  lemma Solve(x: real, y: real, na: real, nb: real)
    requires nb > 0.0 && nb * x == na * y
    ensures x == (na / nb) * y
  {
    var r := na / nb;
    assert r * nb == na;
    assert nb * x == nb * (r * y);
  }

  lemma SquareOfProduct(r: real, n: real)
    ensures Square(Times(r, n)) == Times(Square(r), Square(n))
    ensures Times(r, Square(n)) == Times(Times(r, n), n)
  {
  }

  lemma MultipleReaches(a: seq<real>, b: seq<real>, na: real, nb: real, r: real)
    requires MultipleOf(a, b, r) && r > 0.0 && na > 0.0 && nb > 0.0
    requires SquaresOf(a) == Square(na) && SquaresOf(b) == Square(nb)
    ensures DotOf(a, b) == Times(na, nb)
  {
    hide Times, Square, SquaresOf, DotOf, MultipleOf;
    MultipleSums(a, b, r);
    SquareOfProduct(r, nb);
    ProductPositive(r, nb);
    SameSquares(na, Times(r, nb));
  }

  // ---------------------------------------------------------------- what a score is

  /** The squared distance of two lists. */
  function Distance(a: seq<real>, b: seq<real>): real
    requires |a| == |b|
  {
    if a == [] then 0.0 else (a[0] - b[0]) * (a[0] - b[0]) + Distance(a[1..], b[1..])
  }

  lemma {:induction false} DistanceIsGap(a: seq<real>, b: seq<real>)
    requires |a| == |b|
    ensures Distance(a, b) == GapOf(a, b, 1.0, 1.0)
  {
    if a != [] {
      DistanceIsGap(a[1..], b[1..]);
      assert Spread(a[0], b[0], 1.0, 1.0) == (a[0] - b[0]) * (a[0] - b[0]);
    }
  }

  /** The law of cosines. */
  lemma DistanceIs(a: seq<real>, b: seq<real>)
    requires |a| == |b|
    ensures Distance(a, b) == SquaresOf(a) - 2.0 * DotOf(a, b) + SquaresOf(b)
  {
    DistanceIsGap(a, b);
    GapOfExpands(a, b, 1.0, 1.0);
    assert Square(1.0) == 1.0 && Times(1.0, 1.0) == 1.0;
    OneTimes(SquaresOf(a));
    OneTimes(DotOf(a, b));
    OneTimes(SquaresOf(b));
  }

  lemma OneTimes(x: real)
    ensures Times(1.0, x) == x
  {
  }

  /** The squared length of a list is its squared distance from zero. */
  lemma {:induction false} LengthIsDistance(a: seq<real>, zero: seq<real>)
    requires |zero| == |a| && Zero(zero)
    ensures SquaresOf(a) == Distance(a, zero)
  {
    if a != [] {
      LengthIsDistance(a[1..], zero[1..]);
    }
  }

  /** A list that is empty, of another length, or zero scores nothing; any other, by the law of cosines. */
  lemma CosineIs(a: seq<real>, b: seq<real>, sqrt: Root)
    requires IsRoot(sqrt)
    ensures |a| != |b| || Zero(a) || Zero(b) ==> Cosine(a, b, sqrt) == 0.0
    ensures |a| == |b| && !Zero(a) && !Zero(b) ==>
              exists m, n :: PositiveRoot(m, SquaresOf(a)) && PositiveRoot(n, SquaresOf(b))
                          && 2.0 * Cosine(a, b, sqrt) * (m * n) == SquaresOf(a) + SquaresOf(b) - Distance(a, b)
  {
    hide IsRoot, Square, Zero, Distance, SquaresOf, DotOf;
    if |a| == |b| && !Zero(a) && !Zero(b) {
      var m := Lengths(a, sqrt);
      var n := Lengths(b, sqrt);
      SquareIs(m);
      SquareIs(n);
      EmptyIsZero(a);
      ProductPositive(m, n);
      DistanceIs(a, b);
      var c := Cosine(a, b, sqrt);
      assert c == DotOf(a, b) / Times(m, n);
      Doubled(c, m, n, DotOf(a, b));
      assert PositiveRoot(m, SquaresOf(a)) && PositiveRoot(n, SquaresOf(b));
    } else {
      ZeroLength(a, sqrt);
      ZeroLength(b, sqrt);
    }
  }

  lemma Doubled(c: real, m: real, n: real, d: real)
    requires Times(m, n) > 0.0 && c == d / Times(m, n)
    ensures 2.0 * c * (m * n) == 2.0 * d
  {
    var p := m * n;
    assert c * p == d;
    assert 2.0 * c * p == 2.0 * (c * p);
  }

  ghost predicate PositiveRoot(n: real, x: real) { n > 0.0 && n * n == x }

  lemma SquareIs(x: real)
    ensures Square(x) == x * x
  {
  }

  /** Among lists of one length the nearer to the query scores higher. */
  lemma NearerScoresHigher(q: seq<real>, a: seq<real>, b: seq<real>, sqrt: Root)
    requires IsRoot(sqrt) && |q| == |a| == |b| && !Zero(q) && !Zero(a) && !Zero(b) && SquaresOf(a) == SquaresOf(b)
    ensures Cosine(q, a, sqrt) > Cosine(q, b, sqrt) <==> Distance(q, a) < Distance(q, b)
  {
    hide IsRoot, Square, Zero, Distance, SquaresOf, DotOf;
    var m := Lengths(q, sqrt);
    var n := Lengths(a, sqrt);
    EmptyIsZero(q);
    EmptyIsZero(a);
    EmptyIsZero(b);
    ProductPositive(m, n);
    DistanceIs(q, a);
    DistanceIs(q, b);
    var k := Times(m, n);
    assert Cosine(q, a, sqrt) == DotOf(q, a) / k && Cosine(q, b, sqrt) == DotOf(q, b) / k;
    QuotientOrder(DotOf(q, a), DotOf(q, b), k);
  }

  lemma QuotientOrder(x: real, y: real, k: real)
    requires k > 0.0
    ensures x / k > y / k <==> x > y
  {
    var a, b := x / k, y / k;
    assert a * k == x && b * k == y;
    assert (a - b) * k == x - y;
  }

  // ---------------------------------------------------------------- ranking

  ghost predicate Descending<M>(s: seq<Scored<M>>) {
    forall i, j :: 0 <= i < j < |s| ==> s[i].score >= s[j].score
  }

  /** The elements with a given score, in order. */
  function WithScore<M>(s: seq<Scored<M>>, score: real): seq<Scored<M>> {
    if s == [] then []
    else (if s[0].score == score then [s[0]] else []) + WithScore(s[1..], score)
  }

  lemma {:induction false} WithScoreConcat<M>(a: seq<Scored<M>>, b: seq<Scored<M>>, score: real)
    ensures WithScore(a + b, score) == WithScore(a, score) + WithScore(b, score)
  {
    if a == [] {
      assert a + b == b;
    } else {
      hide WithScore;
      WithScoreConcat(a[1..], b, score);
      assert (a + b)[0] == a[0] && (a + b)[1..] == a[1..] + b;
      WithScoreStep(a, score);
      WithScoreStep(a + b, score);
      var head := if a[0].score == score then [a[0]] else [];
      Regroup(head, WithScore(a[1..], score), WithScore(b, score));
    }
  }

  lemma WithScoreStep<M>(s: seq<Scored<M>>, score: real)
    requires s != []
    ensures WithScore(s, score) == (if s[0].score == score then [s[0]] else []) + WithScore(s[1..], score)
  {
  }

  lemma {:induction false} WithScoreNone<M>(s: seq<Scored<M>>, score: real)
    requires forall i :: 0 <= i < |s| ==> s[i].score != score
    ensures WithScore(s, score) == []
  {
    if s != [] {
      WithScoreNone(s[1..], score);
    }
  }

  lemma {:induction false} PlacedDescending<M>(sorted: seq<Scored<M>>, x: Scored<M>)
    requires Descending(sorted)
    ensures Descending(Placed(sorted, x))
    ensures forall y :: y in Placed(sorted, x) ==> y == x || y in sorted
  {
    if sorted != [] && sorted[0].score >= x.score {
      var rest, next := sorted[1..], Placed(sorted[1..], x);
      PlacedDescending(rest, x);
      forall j | 0 <= j < |next|
        ensures next[j].score <= sorted[0].score
      {
        assert next[j] in next;
      }
      assert Placed(sorted, x) == [sorted[0]] + next;
    }
  }

  lemma {:induction false} PlacedScores<M>(sorted: seq<Scored<M>>, x: Scored<M>, score: real)
    requires Descending(sorted)
    ensures WithScore(Placed(sorted, x), score) == WithScore(sorted + [x], score)
  {
    if sorted == [] || sorted[0].score < x.score {
      WithScoreConcat([x], sorted, score);
      WithScoreConcat(sorted, [x], score);
      if x.score == score {
        WithScoreNone(sorted, score);
      }
    } else {
      var rest, next := sorted[1..], Placed(sorted[1..], x);
      PlacedScores(rest, x, score);
      assert (sorted + [x])[1..] == rest + [x];
      assert Placed(sorted, x)[1..] == next;
    }
  }

  /** The ranking is the one stable descending order: entries of equal score keep their order. */
  lemma {:induction false} RankedIsStable<M>(scored: seq<Scored<M>>, score: real)
    ensures Descending(Ranked(scored))
    ensures WithScore(Ranked(scored), score) == WithScore(scored, score)
    decreases |scored|
  {
    if scored != [] {
      var n := |scored| - 1;
      var init := scored[..n];
      RankedIsStable(init, score);
      PlacedDescending(Ranked(init), scored[n]);
      PlacedScores(Ranked(init), scored[n], score);
      assert scored == init + [scored[n]];
      WithScoreConcat(init, [scored[n]], score);
      WithScoreConcat(Ranked(init), [scored[n]], score);
    }
  }

  lemma {:induction false} WithScoreHead<M>(s: seq<Scored<M>>, score: real, i: nat)
    requires i < |s| && s[i].score == score && forall k :: 0 <= k < i ==> s[k].score != score
    ensures WithScore(s, score) != [] && WithScore(s, score)[0] == s[i]
  {
    if i > 0 {
      WithScoreHead(s[1..], score, i - 1);
    }
  }

  lemma {:induction false} WithScoreFrom<M>(s: seq<Scored<M>>, score: real)
    requires WithScore(s, score) != []
    ensures exists i :: 0 <= i < |s| && s[i].score == score
  {
    if s[0].score != score {
      WithScoreFrom(s[1..], score);
      var i :| 0 <= i < |s[1..]| && s[1..][i].score == score;
      assert s[i + 1].score == score;
    }
  }

  /** The first of the ranking is the earliest entry of highest score. */
  lemma RankedFirst<M>(scored: seq<Scored<M>>, i: nat)
    requires i < |scored| && forall k :: 0 <= k < |scored| ==> scored[k].score <= scored[i].score
    requires forall k :: 0 <= k < i ==> scored[k].score != scored[i].score
    ensures Ranked(scored)[0] == scored[i]
  {
    hide Ranked, WithScore;
    var best, ranked := scored[i].score, Ranked(scored);
    RankedIsStable(scored, best);
    WithScoreHead(scored, best, i);
    WithScoreFrom(ranked, best);
    var j :| 0 <= j < |ranked| && ranked[j].score == best;
    var top := ranked[0].score;
    assert top >= best;
    RankedIsStable(scored, top);
    WithScoreHead(ranked, top, 0);
    WithScoreFrom(scored, top);
  }

  lemma {:induction false} ScoreAllAt<M>(entries: seq<Stored<M>>, query: seq<real>, sqrt: Root, i: nat)
    requires i < |entries|
    ensures ScoreAll(entries, query, sqrt)[i] == Scored(Cosine(query, entries[i].embedding, sqrt), entries[i])
    decreases |entries|
  {
    hide Cosine;
    if i < |entries| - 1 {
      ScoreAllAt(entries[..|entries| - 1], query, sqrt, i);
    }
  }

  ghost predicate ParallelTo(query: seq<real>, embedding: seq<real>) {
    !Zero(query) && !Zero(embedding) && Parallel(query, embedding)
  }

  /** Whenever entries parallel to the query are stored, the earliest of them comes first, with score 1. */
  lemma ParallelComesFirst<M>(entries: seq<Stored<M>>, query: seq<real>, sqrt: Root, i: nat)
    requires IsRoot(sqrt) && i < |entries| && ParallelTo(query, entries[i].embedding)
    requires forall k :: 0 <= k < i ==> !ParallelTo(query, entries[k].embedding)
    ensures Ranked(ScoreAll(entries, query, sqrt))[0] == Scored(1.0, entries[i])
  {
    hide IsRoot, Cosine, ParallelTo, ScoreAll, Ranked;
    var scored := ScoreAll(entries, query, sqrt);
    forall k | 0 <= k < |entries|
      ensures scored[k].entry == entries[k] && scored[k].score <= 1.0
      ensures scored[k].score == 1.0 <==> ParallelTo(query, entries[k].embedding)
    {
      ScoreAllAt(entries, query, sqrt, k);
      ScoreIsOneIff(query, entries[k].embedding, sqrt);
    }
    RankedFirst(scored, i);
  }

  lemma ScoreIsOneIff(query: seq<real>, embedding: seq<real>, sqrt: Root)
    requires IsRoot(sqrt)
    ensures Cosine(query, embedding, sqrt) <= 1.0
    ensures Cosine(query, embedding, sqrt) == 1.0 <==> ParallelTo(query, embedding)
  {
    CosineRange(query, embedding, sqrt);
  }

  lemma {:induction false} RankedFrom<M>(scored: seq<Scored<M>>, i: nat)
    requires i < |scored|
    ensures Ranked(scored)[i] in scored
    decreases |scored|
  {
    hide WithScore;
    var n := |scored| - 1;
    var init := scored[..n];
    RankedIsStable(init, 0.0);
    PlacedDescending(Ranked(init), scored[n]);
    var x := Ranked(scored)[i];
    assert x in Placed(Ranked(init), scored[n]);
    if x != scored[n] {
      var k :| 0 <= k < |Ranked(init)| && Ranked(init)[k] == x;
      RankedFrom(init, k);
    }
  }

  /** A ranked entry is a stored one, and it scores 1 exactly when it is parallel to the query. */
  lemma RankedScores<M>(entries: seq<Stored<M>>, query: seq<real>, sqrt: Root, i: nat)
    requires IsRoot(sqrt) && i < |entries|
    ensures var x := Ranked(ScoreAll(entries, query, sqrt))[i];
            x.entry in entries && x.score <= 1.0 && (x.score == 1.0 <==> ParallelTo(query, x.entry.embedding))
  {
    hide IsRoot, Cosine, ParallelTo, ScoreAll, Ranked;
    var scored := ScoreAll(entries, query, sqrt);
    RankedFrom(scored, i);
    var k :| 0 <= k < |scored| && scored[k] == Ranked(scored)[i];
    ScoreAllAt(entries, query, sqrt, k);
    ScoreIsOneIff(query, entries[k].embedding, sqrt);
  }

  /** Only parallel entries are ranked above a parallel entry. */
  lemma NeverOutranked<M>(entries: seq<Stored<M>>, query: seq<real>, sqrt: Root, i: nat, j: nat)
    requires IsRoot(sqrt) && i < j < |entries|
    requires ParallelTo(query, Ranked(ScoreAll(entries, query, sqrt))[j].entry.embedding)
    ensures ParallelTo(query, Ranked(ScoreAll(entries, query, sqrt))[i].entry.embedding)
  {
    hide IsRoot, Cosine, ParallelTo, ScoreAll, Ranked;
    var scored := ScoreAll(entries, query, sqrt);
    RankedIsStable(scored, 1.0);
    RankedScores(entries, query, sqrt, i);
    RankedScores(entries, query, sqrt, j);
  }
}
