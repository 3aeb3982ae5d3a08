/** Two-phase replacement is simultaneous: inserted values are never expanded again. */
module PlaceholderLaws {
  import opened Text
  import opened Search
  import opened Decimal
  import opened Placeholders

  /** The word reserved for sentinels. */
  const RESERVED: string := "RUNNER_PLACEHOLDER_"

  // ---------------------------------------------------------------- tokens and sentinels

  /**
   The shape of the tokens the runner uses: bracketed by "<" and ">", or by "{{" and "}}", with no
   bracket and no doubled underscore inside.
   */
  predicate Framed(t: string) { Angled(t) || Braced(t) }

  predicate NoDoubleUnderscore(t: string) {
    forall k :: 0 <= k < |t| - 1 ==> !(t[k] == '_' && t[k + 1] == '_')
  }

  predicate Angled(t: string) {
    && |t| >= 2 && t[0] == '<' && t[|t| - 1] == '>' && NoDoubleUnderscore(t)
    && (forall k :: 0 < k < |t| ==> t[k] != '<' && t[k] != '{')
    && (forall k :: 0 <= k < |t| - 1 ==> t[k] != '>')
  }

  predicate Braced(t: string) {
    && |t| >= 5 && t[0] == '{' && t[1] == '{' && t[|t| - 2] == '}' && t[|t| - 1] == '}' && NoDoubleUnderscore(t)
    && (forall k :: 2 <= k < |t| ==> t[k] != '{' && t[k] != '<')
    && (forall k :: 0 <= k < |t| - 2 ==> t[k] != '}')
  }

  predicate IsSeed(s: string) { forall c :: c in s ==> IsDigit(c) || 'a' <= c <= 'f' }

  ghost predicate IsSentinel(s: string, index: nat) {
    exists seed :: IsSeed(seed) && s == Sentinel(index, seed)
  }

  /** One of two texts continues the other. */
  predicate Overlap(a: string, b: string) {
    if |a| <= |b| then b[..|a|] == a else a[..|b|] == b
  }

  lemma OverlapChar(a: string, b: string, k: nat)
    requires Overlap(a, b) && k < |a| && k < |b|
    ensures a[k] == b[k]
  {
  }

  /** Two framed tokens never overlap unless they are the same token in the same place. */
  lemma TokensApart(t: string, u: string, d: nat)
    requires Framed(t) && Framed(u) && d < |t| && (d > 0 || t != u)
    ensures !Overlap(t[d..], u)
  {
    if Overlap(t[d..], u) {
      OverlapChar(t[d..], u, 0);
      if d > 0 {
        OverlapChar(t[d..], u, 1);
      } else {
        assert t[0..] == t;
        TokensNotPrefix(t, u);
        TokensNotPrefix(u, t);
      }
    }
  }

  lemma TokensNotPrefix(t: string, u: string)
    requires Framed(t) && Framed(u) && t != u
    ensures !(|t| <= |u| && u[..|t|] == t)
  {
  }

  // ---------------------------------------------------------------- characters of a sentinel

  /** Characters of a sentinel: underscore, upper-case letters of the prefix, digits and "a" to "f". */
  predicate SentinelChar(c: char) { c == '_' || IsUpper(c) || IsDigit(c) || 'a' <= c <= 'f' }

  lemma PrefixChars(k: nat)
    requires k < |PREFIX|
    ensures SentinelChar(PREFIX[k])
    ensures |PREFIX| == 21
    ensures k < 20 && PREFIX[k] == '_' && PREFIX[k + 1] == '_' ==> k == 0
    ensures k < 20 && PREFIX[k] == 'R' && PREFIX[k + 1] == 'U' ==> k == 2
    ensures PREFIX[0] == '_' && PREFIX[1] == '_' && PREFIX[2] == 'R' && PREFIX[3] == 'U' && PREFIX[20] == '_'
    ensures PREFIX[2..] == RESERVED
  {
  }

  lemma SentinelParts(s: string, index: nat) returns (digits: string, seed: string)
    requires IsSentinel(s, index)
    ensures digits == ToDecimal(index) && digits != "" && IsSeed(seed)
    ensures forall c :: c in digits ==> IsDigit(c)
    ensures s == PREFIX + digits + "_" + seed + "__"
    ensures |s| == 24 + |digits| + |seed|
  {
    seed :| IsSeed(seed) && s == Sentinel(index, seed);
    digits := ToDecimal(index);
    ToDecimalDigits(index);
    PrefixChars(0);
  }

  /** Position by position: prefix, digits, underscore, seed, two underscores. */
  lemma SentinelAt(s: string, digits: string, seed: string, k: nat)
    requires s == PREFIX + digits + "_" + seed + "__" && k < |s|
    ensures |PREFIX| == 21 && |s| == 24 + |digits| + |seed|
    ensures k < 21 ==> s[k] == PREFIX[k]
    ensures 21 <= k < 21 + |digits| ==> s[k] == digits[k - 21]
    ensures k == 21 + |digits| ==> s[k] == '_'
    ensures 22 + |digits| <= k < 22 + |digits| + |seed| ==> s[k] == seed[k - 22 - |digits|]
    ensures k >= 22 + |digits| + |seed| ==> s[k] == '_'
  {
    PrefixChars(0);
  }

  /** What the proofs below need to know about the characters of a sentinel. */
  lemma SentinelChars(s: string, index: nat, k: nat)
    requires IsSentinel(s, index) && k < |s|
    ensures |s| >= 25 && SentinelChar(s[k]) && IsDigit(s[21])
    ensures k < 21 ==> s[k] == PREFIX[k]
    ensures k + 1 < |s| && s[k] == 'R' && s[k + 1] == 'U' ==> k == 2
  {
    var digits, seed := SentinelParts(s, index);
    SentinelAt(s, digits, seed, k);
    SentinelAt(s, digits, seed, 21);
    assert digits[0] in digits;
    if k < 21 {
      PrefixChars(k);
    } else if k < 21 + |digits| {
      assert digits[k - 21] in digits;
    } else if 22 + |digits| <= k < 22 + |digits| + |seed| {
      assert seed[k - 22 - |digits|] in seed;
    }
    if k + 1 < |s| {
      SentinelAt(s, digits, seed, k + 1);
    }
  }

  /** Sentinels of different indexes differ within both of them. */
  lemma SentinelsDiffer(s: string, i: nat, u: string, j: nat)
    requires IsSentinel(s, i) && IsSentinel(u, j) && i != j
    ensures !Overlap(s, u)
  {
    hide IsSentinel, Overlap;
    var a, x := SentinelParts(s, i);
    var b, y := SentinelParts(u, j);
    if a == b {
      ToDecimalInjective(i, j);
    }
    assert forall k :: 0 <= k < |a| ==> a[k] in a;
    assert forall k :: 0 <= k < |b| ==> b[k] in b;
    if Overlap(s, u) {
      if |a| == |b| {
        forall k | 0 <= k < |a|
          ensures a[k] == b[k]
        {
          SentinelAt(s, a, x, 21 + k);
          SentinelAt(u, b, y, 21 + k);
          OverlapChar(s, u, 21 + k);
        }
      } else {
        var n := if |a| < |b| then |a| else |b|;
        SentinelAt(s, a, x, 21 + n);
        SentinelAt(u, b, y, 21 + n);
        OverlapChar(s, u, 21 + n);
      }
    }
  }

  // ---------------------------------------------------------------- texts as pieces

  /** A text whose holes are filled from a list. */
  datatype Piece = Lit(c: char) | Hole(i: nat)

  ghost predicate Fits(pieces: seq<Piece>, fill: seq<string>) {
    forall k :: 0 <= k < |pieces| && pieces[k].Hole? ==> pieces[k].i < |fill|
  }

  ghost function Render(pieces: seq<Piece>, fill: seq<string>): string
    requires Fits(pieces, fill)
  {
    if pieces == [] then ""
    else
      (match pieces[0] case Lit(c) => [c] case Hole(i) => fill[i])
      + Render(pieces[1..], fill)
  }

  /** The scan `OneShot` makes, keeping the holes. */
  ghost function Pieces(s: string, tokens: seq<string>): (r: seq<Piece>)
    ensures Fits(r, tokens)
    decreases |s|
  {
    if s == "" then []
    else match TokenAt(s, tokens, 0)
      case Some(k) =>
        var rest := Pieces(s[|tokens[k]|..], tokens);
        FitsStep(Hole(k), rest, tokens);
        [Hole(k)] + rest
      case None =>
        var rest := Pieces(s[1..], tokens);
        FitsStep(Lit(s[0]), rest, tokens);
        [Lit(s[0])] + rest
  }

  lemma FitsStep(p: Piece, rest: seq<Piece>, fill: seq<string>)
    requires Fits(rest, fill) && (p.Hole? ==> p.i < |fill|)
    ensures Fits([p] + rest, fill)
    ensures ([p] + rest)[1..] == rest
  {
  }

  lemma FitsRest(pieces: seq<Piece>, fill: seq<string>)
    requires Fits(pieces, fill) && pieces != []
    ensures Fits(pieces[1..], fill)
    ensures pieces[0].Hole? ==> pieces[0].i < |fill|
  {
  }

  /** The template is its pieces filled with tokens; the intended result fills them with values. */
  lemma {:induction false} PiecesRender(s: string, tokens: seq<string>, values: seq<string>)
    requires |tokens| == |values|
    ensures Render(Pieces(s, tokens), tokens) == s
    ensures Fits(Pieces(s, tokens), values) && Render(Pieces(s, tokens), values) == OneShot(s, tokens, values)
    decreases |s|
  {
    if s != "" {
      match TokenAt(s, tokens, 0)
      case Some(k) =>
        PiecesRender(s[|tokens[k]|..], tokens, values);
        FitsStep(Hole(k), Pieces(s[|tokens[k]|..], tokens), tokens);
        assert s == tokens[k] + s[|tokens[k]|..];
      case None =>
        PiecesRender(s[1..], tokens, values);
        FitsStep(Lit(s[0]), Pieces(s[1..], tokens), tokens);
        assert s == [s[0]] + s[1..];
    }
  }

  // ---------------------------------------------------------------- words in the literal text

  /** The first `n` pieces are exactly the literal characters of `x`. */
  ghost predicate Spells(pieces: seq<Piece>, x: string) {
    |x| <= |pieces| && forall k :: 0 <= k < |x| ==> pieces[k] == Lit(x[k])
  }

  /** No fill continues a proper suffix of `x`. */
  ghost predicate Cuts(x: string, fill: seq<string>) {
    forall m, i :: 0 < m < |x| && 0 <= i < |fill| && fill[i] != "" ==> !Overlap(x[m..], fill[i])
  }

  ghost predicate Filled(pieces: seq<Piece>, fill: seq<string>) {
    forall k :: 0 <= k < |pieces| && pieces[k].Hole? ==> pieces[k].i < |fill| && fill[pieces[k].i] != ""
  }

  lemma StartsAfter(c: string, rest: string, x: string)
    requires StartsWith(c + rest, x) && |c| <= |x|
    ensures x[..|c|] == c && StartsWith(rest, x[|c|..])
  {
    assert (c + rest)[..|x|][..|c|] == c;
    assert (c + rest)[..|x|][|c|..] == rest[..|x| - |c|];
  }

  lemma OverlapOfStart(a: string, rest: string, x: string)
    requires StartsWith(a + rest, x)
    ensures Overlap(x, a)
  {
    if |x| <= |a| {
      assert (a + rest)[..|x|] == a[..|x|];
    } else {
      StartsAfter(a, rest, x);
    }
  }

  /** A word that starts in the literal text, and that no fill can continue, is spelt by literals. */
  lemma {:induction false} LiteralStart(pieces: seq<Piece>, fill: seq<string>, x: string)
    requires Fits(pieces, fill) && Filled(pieces, fill) && Cuts(x, fill)
    requires x != "" && pieces != [] && pieces[0].Lit? && StartsWith(Render(pieces, fill), x)
    ensures Spells(pieces, x)
    decreases |x|
  {
    var rest := pieces[1..];
    FitsRest(pieces, fill);
    var tail := Render(rest, fill);
    assert Render(pieces, fill) == [pieces[0].c] + tail;
    StartsAfter([pieces[0].c], tail, x);
    if |x| > 1 {
      var y := x[1..];
      assert y[0] == tail[0];
      assert rest != [];
      if rest[0].Hole? {
        FitsRest(rest, fill);
        assert pieces[1] == rest[0];
        OverlapOfStart(fill[rest[0].i], Render(rest[1..], fill), y);
      } else {
        CutsRest(x, fill);
        FilledRest(pieces, fill);
        LiteralStart(rest, fill, y);
        assert forall k :: 0 < k < |x| ==> pieces[k] == rest[k - 1] && x[k] == y[k - 1];
      }
    }
  }

  lemma CutsRest(x: string, fill: seq<string>)
    requires Cuts(x, fill) && |x| > 1
    ensures Cuts(x[1..], fill)
  {
    forall m, i | 0 < m < |x[1..]| && 0 <= i < |fill| && fill[i] != ""
      ensures !Overlap(x[1..][m..], fill[i])
    {
      assert x[1..][m..] == x[m + 1..];
    }
  }

  lemma FilledRest(pieces: seq<Piece>, fill: seq<string>)
    requires Filled(pieces, fill) && pieces != []
    ensures Filled(pieces[1..], fill)
  {
  }

  /** What literals spell is in every rendering. */
  lemma {:induction false} SpelledOccurs(pieces: seq<Piece>, fill: seq<string>, x: string)
    requires Fits(pieces, fill) && Spells(pieces, x)
    ensures StartsWith(Render(pieces, fill), x)
    decreases |x|
  {
    if x != "" {
      FitsRest(pieces, fill);
      assert forall k :: 0 <= k < |x[1..]| ==> pieces[1..][k] == pieces[k + 1];
      SpelledOccurs(pieces[1..], fill, x[1..]);
      assert x == [x[0]] + x[1..];
      var tail := Render(pieces[1..], fill);
      assert Render(pieces, fill) == [x[0]] + tail;
      assert ([x[0]] + tail)[..|x|] == [x[0]] + tail[..|x| - 1];
    }
  }

  // ---------------------------------------------------------------- first phase

  /** Tokens are empty or framed, and no token is given twice. */
  ghost predicate GoodTokens(tokens: seq<string>) {
    && (forall i :: 0 <= i < |tokens| ==> tokens[i] == "" || Framed(tokens[i]))
    && (forall i, j :: 0 <= i < j < |tokens| && tokens[i] != "" ==> tokens[i] != tokens[j])
  }

  /** The first `j` tokens have been replaced by their sentinels. */
  ghost predicate PartlyHidden(fill: seq<string>, tokens: seq<string>, j: nat) {
    && |fill| == |tokens| && j <= |tokens|
    && (forall i :: 0 <= i < |tokens| && tokens[i] == "" ==> fill[i] == "")
    && (forall i :: 0 <= i < j && tokens[i] != "" ==> IsSentinel(fill[i], i))
    && (forall i :: j <= i < |tokens| ==> fill[i] == tokens[i])
  }

  lemma SentinelNonEmpty(s: string, i: nat)
    requires IsSentinel(s, i)
    ensures s != ""
  {
  }

  lemma TokenOverSentinel(t: string, s: string, i: nat, d: nat)
    requires Framed(t) && IsSentinel(s, i)
    ensures d < |t| ==> !Overlap(t[d..], s)
    ensures d < |s| ==> !Overlap(s[d..], t)
  {
    hide IsSentinel;
    SentinelNonEmpty(s, i);
    SentinelChars(s, i, 0);
    SentinelChars(s, i, 1);
    PrefixChars(0);
    if d < |s| {
      SentinelChars(s, i, d);
      if Overlap(s[d..], t) {
        OverlapChar(s[d..], t, 0);
      }
    }
    if d < |t| && Overlap(t[d..], s) {
      OverlapChar(t[d..], s, 0);
      if d + 1 < |t| {
        OverlapChar(t[d..], s, 1);
      }
    }
  }

  lemma TokenCuts(tokens: seq<string>, fill: seq<string>, j: nat)
    requires GoodTokens(tokens) && PartlyHidden(fill, tokens, j) && j < |tokens| && tokens[j] != ""
    ensures Cuts(tokens[j], fill)
  {
    hide Framed, IsSentinel, Overlap;
    forall m, i | 0 < m < |tokens[j]| && 0 <= i < |fill| && fill[i] != ""
      ensures !Overlap(tokens[j][m..], fill[i])
    {
      if i < j {
        TokenOverSentinel(tokens[j], fill[i], i, m);
      } else {
        TokensApart(tokens[j], tokens[i], m);
      }
    }
  }

  lemma FillApart(tokens: seq<string>, fill: seq<string>, j: nat, i: nat, d: nat)
    requires GoodTokens(tokens) && PartlyHidden(fill, tokens, j) && j < |tokens| && tokens[j] != ""
    requires i < |tokens| && i != j && tokens[i] != "" && d < |fill[i]|
    ensures !Overlap(fill[i][d..], tokens[j])
  {
    hide Framed, IsSentinel, Overlap;
    if i < j {
      TokenOverSentinel(tokens[j], fill[i], i, d);
    } else {
      TokensApart(tokens[i], tokens[j], d);
    }
  }

  /** Text in which no occurrence starts is copied. */
  lemma {:induction false} ReplaceSkips(a: string, rest: string, t: string, x: string)
    requires t != "" && forall d :: 0 <= d < |a| ==> !StartsWith(a[d..] + rest, t)
    ensures Replace(a + rest, t, x) == a + Replace(rest, t, x)
    decreases |a|
  {
    if a == "" {
      assert a + rest == rest;
    } else {
      assert !StartsWith(a[0..] + rest, t) && a[0..] == a;
      assert (a + rest)[1..] == a[1..] + rest && (a + rest)[0] == a[0];
      forall d | 0 <= d < |a[1..]|
        ensures !StartsWith(a[1..][d..] + rest, t)
      {
        assert a[1..][d..] == a[d + 1..];
      }
      ReplaceSkips(a[1..], rest, t, x);
      assert a == [a[0]] + a[1..];
    }
  }

  lemma ReplaceHit(t: string, rest: string, x: string)
    requires t != ""
    ensures Replace(t + rest, t, x) == x + Replace(rest, t, x)
  {
    assert (t + rest)[..|t|] == t && (t + rest)[|t|..] == rest;
  }

  lemma {:induction false} TokenAtNone(s: string, tokens: seq<string>, i: nat, j: nat)
    requires i <= j < |tokens| && tokens[j] != "" && TokenAt(s, tokens, i).None?
    ensures !StartsWith(s, tokens[j])
    decreases j - i
  {
    if i < j {
      TokenAtNone(s, tokens, i + 1, j);
    }
  }

  lemma {:induction false} PiecesFilled(s: string, tokens: seq<string>, fill: seq<string>)
    requires |fill| == |tokens| && forall i :: 0 <= i < |tokens| && tokens[i] != "" ==> fill[i] != ""
    ensures Fits(Pieces(s, tokens), fill) && Filled(Pieces(s, tokens), fill)
    decreases |s|
  {
    if s != "" {
      match TokenAt(s, tokens, 0)
      case Some(k) => PiecesFilled(s[|tokens[k]|..], tokens, fill);
      case None => PiecesFilled(s[1..], tokens, fill);
    }
  }

  lemma HiddenNonEmpty(tokens: seq<string>, fill: seq<string>, j: nat)
    requires PartlyHidden(fill, tokens, j)
    ensures forall i :: 0 <= i < |tokens| && tokens[i] != "" ==> fill[i] != ""
  {
    forall i | 0 <= i < |tokens| && tokens[i] != ""
      ensures fill[i] != ""
    {
      if i < j {
        SentinelNonEmpty(fill[i], i);
      }
    }
  }

  /** Replacing one token replaces exactly its holes. */
  lemma {:induction false} ReplaceToken(s: string, tokens: seq<string>, fill: seq<string>, j: nat, x: string)
    requires GoodTokens(tokens) && PartlyHidden(fill, tokens, j) && j < |tokens| && tokens[j] != ""
    ensures Fits(Pieces(s, tokens), fill) && Fits(Pieces(s, tokens), fill[j := x])
    ensures Replace(Render(Pieces(s, tokens), fill), tokens[j], x) == Render(Pieces(s, tokens), fill[j := x])
    decreases |s|
  {
    hide Framed, IsSentinel, Overlap, GoodTokens, Cuts, Replace;
    HiddenNonEmpty(tokens, fill, j);
    PiecesFilled(s, tokens, fill);
    var t := tokens[j];
    if s == "" {
      ReplaceEmpty(t, x);
    } else {
      match TokenAt(s, tokens, 0)
      case Some(k) =>
        var tail := s[|tokens[k]|..];
        var rest := Render(Pieces(tail, tokens), fill);
        PiecesFilled(tail, tokens, fill);
        ReplaceToken(tail, tokens, fill, j, x);
        FitsStep(Hole(k), Pieces(tail, tokens), fill);
        FitsStep(Hole(k), Pieces(tail, tokens), fill[j := x]);
        if k == j {
          ReplaceHit(t, rest, x);
        } else {
          forall d | 0 <= d < |fill[k]|
            ensures !StartsWith(fill[k][d..] + rest, t)
          {
            FillApart(tokens, fill, j, k, d);
            ApartNotStart(fill[k][d..], rest, t);
          }
          ReplaceSkips(fill[k], rest, t, x);
        }
      case None =>
        var rest := Render(Pieces(s[1..], tokens), fill);
        PiecesFilled(s[1..], tokens, fill);
        ReplaceToken(s[1..], tokens, fill, j, x);
        FitsStep(Lit(s[0]), Pieces(s[1..], tokens), fill);
        FitsStep(Lit(s[0]), Pieces(s[1..], tokens), fill[j := x]);
        LiteralNotToken(s, tokens, fill, j);
        assert [s[0]][0..] == [s[0]];
        ReplaceSkips([s[0]], rest, t, x);
    }
  }

  lemma ReplaceEmpty(t: string, x: string)
    requires t != ""
    ensures Replace("", t, x) == ""
  {
  }

  lemma ApartNotStart(a: string, rest: string, t: string)
    requires !Overlap(a, t)
    ensures !StartsWith(a + rest, t)
  {
    if StartsWith(a + rest, t) {
      OverlapOfStart(a, rest, t);
    }
  }

  lemma LiteralNotToken(s: string, tokens: seq<string>, fill: seq<string>, j: nat)
    requires GoodTokens(tokens) && PartlyHidden(fill, tokens, j) && j < |tokens| && tokens[j] != ""
    requires s != "" && TokenAt(s, tokens, 0).None?
    requires Fits(Pieces(s, tokens), fill)
    ensures !StartsWith(Render(Pieces(s, tokens), fill), tokens[j])
  {
    hide GoodTokens, IsSentinel, Cuts, StartsWith, Spells;
    HiddenNonEmpty(tokens, fill, j);
    PiecesFilled(s, tokens, fill);
    TokenCuts(tokens, fill, j);
    if StartsWith(Render(Pieces(s, tokens), fill), tokens[j]) {
      LiteralStart(Pieces(s, tokens), fill, tokens[j]);
      SpelledOccurs(Pieces(s, tokens), tokens, tokens[j]);
      PiecesRender(s, tokens, tokens);
      TokenAtNone(s, tokens, 0, j);
    }
  }

  // ---------------------------------------------------------------- second phase

  ghost predicate SentinelFill(fill: seq<string>) {
    forall i :: 0 <= i < |fill| ==> fill[i] == "" || IsSentinel(fill[i], i)
  }

  /** The part of a sentinel that ends with the first digit of its index. */
  function Head(s: string): string
    requires |s| >= 22
  {
    s[..22]
  }

  lemma SentinelLong(s: string, i: nat)
    requires IsSentinel(s, i)
    ensures |s| >= 25 && s[0] == '_' && s[1] == '_' && s[2] == 'R' && s[3] == 'U' && IsDigit(s[21])
    ensures s[..21] == PREFIX && s[|s| - 1] == '_' && s[|s| - 2] == '_'
  {
    PrefixChars(0);
    var digits, seed := SentinelParts(s, i);
    SentinelChars(s, i, 0);
    SentinelAt(s, digits, seed, |s| - 1);
    SentinelAt(s, digits, seed, |s| - 2);
    assert s == PREFIX + (digits + "_" + seed + "__");
  }

  /** No sentinel can begin inside the head of another, past its first character. */
  lemma HeadCuts(s: string, i: nat, fill: seq<string>)
    requires IsSentinel(s, i) && SentinelFill(fill)
    ensures |s| >= 22 && Cuts(Head(s), fill)
  {
    hide IsSentinel, Overlap;
    SentinelLong(s, i);
    var h := Head(s);
    forall m, k | 0 < m < |h| && 0 <= k < |fill| && fill[k] != ""
      ensures !Overlap(h[m..], fill[k])
    {
      SentinelLong(fill[k], k);
      HeadPart(s, m);
      if Overlap(h[m..], fill[k]) {
        OverlapChar(h[m..], fill[k], 0);
        if m < 21 {
          OverlapChar(h[m..], fill[k], 1);
        }
      }
    }
  }

  lemma HeadPart(s: string, m: nat)
    requires |s| >= 22 && s[..21] == PREFIX && IsDigit(s[21]) && 0 < m < 22
    ensures |Head(s)| == 22 && Head(s)[m..][0] == s[m]
    ensures m < 21 ==> |Head(s)[m..]| >= 2 && Head(s)[m..][1] == s[m + 1] && !(s[m] == '_' && s[m + 1] == '_')
    ensures m == 21 ==> s[m] != '_'
  {
    if m < 21 {
      PrefixChars(m);
      assert s[m] == PREFIX[m];
      if m < 20 {
        assert s[m + 1] == PREFIX[m + 1];
      }
    }
  }

  /** The reserved word does not occur in the text the pieces stand for once values are in place. */
  ghost predicate ReservedFree(pieces: seq<Piece>, values: seq<string>) {
    Fits(pieces, values) && !Contains(Render(pieces, values), RESERVED)
  }

  lemma ReservedFreeRest(pieces: seq<Piece>, values: seq<string>)
    requires pieces != [] && ReservedFree(pieces, values)
    ensures ReservedFree(pieces[1..], values)
  {
    FitsRest(pieces, values);
    var rest := Render(pieces[1..], values);
    var head := match pieces[0] case Lit(c) => [c] case Hole(i) => values[i];
    assert Render(pieces, values) == head + rest;
    forall i
      ensures !OccursAt(rest, RESERVED, i)
    {
      if OccursAt(rest, RESERVED, i) {
        assert (head + rest)[|head| + i..|head| + i + |RESERVED|] == rest[i..i + |RESERVED|];
        assert OccursAt(head + rest, RESERVED, |head| + i);
      }
    }
  }

  lemma PrefixSlice(s: string, n: nat, from: nat, to: nat)
    requires from <= to <= n <= |s|
    ensures s[..n][from..to] == s[from..to]
  {
  }

  lemma DropSlice(s: string, m: nat, from: nat, to: nat)
    requires from <= to && m + to <= |s|
    ensures s[m..][from..to] == s[m + from..m + to]
  {
  }

  lemma ReservedIsTail()
    ensures |PREFIX| == 21 && |RESERVED| == 19 && PREFIX[2..21] == RESERVED
  {
  }

  lemma ReservedInHead(text: string, s: string, m: nat)
    requires |s| >= 22 && s[..21] == PREFIX && m <= 2 && StartsWith(text, Head(s)[m..])
    ensures Contains(text, RESERVED)
  {
    var y := Head(s)[m..];
    PrefixSlice(text, |y|, 2 - m, 21 - m);
    DropSlice(Head(s), m, 2 - m, 21 - m);
    PrefixSlice(s, 22, 2, 21);
    PrefixSlice(s, 21, 2, 21);
    ReservedIsTail();
    assert OccursAt(text, RESERVED, 2 - m);
  }

  /** A tail of a sentinel's head that includes the reserved word is not spelt by the literals. */
  lemma ReservedNotSpelled(pieces: seq<Piece>, values: seq<string>, s: string, i: nat, m: nat)
    requires ReservedFree(pieces, values) && IsSentinel(s, i) && m <= 2
    ensures |s| >= 22 && !Spells(pieces, Head(s)[m..])
  {
    hide IsSentinel, Spells;
    SentinelLong(s, i);
    if Spells(pieces, Head(s)[m..]) {
      SpelledOccurs(pieces, values, Head(s)[m..]);
      ReservedInHead(Render(pieces, values), s, m);
    }
  }

  lemma CutsFrom(x: string, fill: seq<string>, m: nat)
    requires Cuts(x, fill) && m <= |x|
    ensures Cuts(x[m..], fill)
  {
    forall n, i | 0 < n < |x[m..]| && 0 <= i < |fill| && fill[i] != ""
      ensures !Overlap(x[m..][n..], fill[i])
    {
      assert x[m..][n..] == x[m + n..];
    }
  }

  lemma StartsWithHead(text: string, s: string, m: nat)
    requires |s| >= 22 && m <= 2 && StartsWith(text, s[m..])
    ensures StartsWith(text, Head(s)[m..])
  {
    var y := Head(s)[m..];
    assert y == s[m..][..22 - m];
    assert text[..|y|] == text[..|s| - m][..|y|];
  }

  /** A sentinel, or what is left of one after one or two characters, does not start at a literal. */
  lemma NotAtLiteral(pieces: seq<Piece>, fill: seq<string>, values: seq<string>, s: string, i: nat, m: nat)
    requires SentinelFill(fill) && Fits(pieces, fill) && Filled(pieces, fill) && ReservedFree(pieces, values)
    requires IsSentinel(s, i) && m <= 2 && pieces != [] && pieces[0].Lit?
    ensures |s| >= 22 && !StartsWith(Render(pieces, fill), s[m..])
  {
    hide IsSentinel, Cuts, Spells;
    SentinelLong(s, i);
    HeadCuts(s, i, fill);
    CutsFrom(Head(s), fill, m);
    ReservedNotSpelled(pieces, values, s, i, m);
    hide StartsWith;
    if StartsWith(Render(pieces, fill), s[m..]) {
      StartsWithHead(Render(pieces, fill), s, m);
      LiteralStart(pieces, fill, Head(s)[m..]);
    }
  }

  /** Nor, after at least one character, at the next sentinel or at the end. */
  lemma NotAtPieces(pieces: seq<Piece>, fill: seq<string>, values: seq<string>, s: string, i: nat, m: nat)
    requires SentinelFill(fill) && Fits(pieces, fill) && Filled(pieces, fill) && ReservedFree(pieces, values)
    requires IsSentinel(s, i) && 1 <= m <= 2
    ensures |s| >= 22 && !StartsWith(Render(pieces, fill), s[m..])
  {
    hide IsSentinel, StartsWith;
    SentinelLong(s, i);
    if pieces == [] {
      NotAtEnd(s[m..]);
    } else if pieces[0].Lit? {
      NotAtLiteral(pieces, fill, values, s, i, m);
    } else {
      FitsRest(pieces, fill);
      var u, k, rest := fill[pieces[0].i], pieces[0].i, Render(pieces[1..], fill);
      SentinelLong(u, k);
      if StartsWith(u + rest, s[m..]) {
        StartChar(u, rest, s[m..], 2 - m);
      }
    }
  }

  lemma NotAtEnd(x: string)
    requires x != ""
    ensures !StartsWith("", x)
  {
  }

  lemma StartChar(a: string, rest: string, x: string, k: nat)
    requires StartsWith(a + rest, x) && k < |a| && k < |x|
    ensures x[k] == a[k]
  {
    assert (a + rest)[..|x|][k] == (a + rest)[k];
  }

  /** No other sentinel starts inside a sentinel, at any offset. */
  lemma NotInSentinel(u: string, k: nat, pieces: seq<Piece>, fill: seq<string>, values: seq<string>, s: string, i: nat,
                      d: nat)
    requires SentinelFill(fill) && Fits(pieces, fill) && Filled(pieces, fill) && ReservedFree(pieces, values)
    requires IsSentinel(s, i) && IsSentinel(u, k) && d < |u| && (d > 0 || i != k)
    ensures !StartsWith(u[d..] + Render(pieces, fill), s)
  {
    hide IsSentinel, Fits, Filled, ReservedFree, StartsWith, Overlap;
    SentinelLong(s, i);
    SentinelLong(u, k);
    var rest := Render(pieces, fill);
    if d + 2 >= |u| {
      NotAtPieces(pieces, fill, values, s, i, |u| - d);
      if StartsWith(u[d..] + rest, s) {
        StartsAfter(u[d..], rest, s);
      }
    } else if d == 0 {
      assert u[0..] == u;
      SentinelsDiffer(s, i, u, k);
      if StartsWith(u + rest, s) {
        OverlapOfStart(u, rest, s);
      }
    } else if StartsWith(u[d..] + rest, s) {
      if d + 3 < |u| {
        SentinelChars(u, k, d + 2);
        StartChar(u[d..], rest, s, 3);
      }
      StartChar(u[d..], rest, s, 2);
    }
  }

  /** Replacing one sentinel replaces exactly its holes. */
  lemma {:induction false} ReplaceSentinel(pieces: seq<Piece>, fill: seq<string>, values: seq<string>, j: nat,
                                           x: string)
    requires SentinelFill(fill) && Fits(pieces, fill) && Filled(pieces, fill) && ReservedFree(pieces, values)
    requires j < |fill| && fill[j] != ""
    ensures Fits(pieces, fill[j := x])
    ensures Replace(Render(pieces, fill), fill[j], x) == Render(pieces, fill[j := x])
    decreases |pieces|
  {
    hide IsSentinel, Replace, StartsWith, ReservedFree;
    var s := fill[j];
    assert IsSentinel(s, j);
    if pieces == [] {
      ReplaceEmpty(s, x);
    } else {
      FitsRest(pieces, fill);
      FilledRest(pieces, fill);
      ReservedFreeRest(pieces, values);
      ReplaceSentinel(pieces[1..], fill, values, j, x);
      var rest := Render(pieces[1..], fill);
      match pieces[0]
      case Lit(c) =>
        NotAtLiteral(pieces, fill, values, s, j, 0);
        assert s[0..] == s && [c][0..] == [c];
        assert Render(pieces, fill) == [c] + rest;
        ReplaceSkips([c], rest, s, x);
      case Hole(k) =>
        if k == j {
          ReplaceHit(s, rest, x);
        } else {
          assert IsSentinel(fill[k], k);
          forall d | 0 <= d < |fill[k]|
            ensures !StartsWith(fill[k][d..] + rest, s)
          {
            NotInSentinel(fill[k], k, pieces[1..], fill, values, s, j, d);
          }
          ReplaceSkips(fill[k], rest, s, x);
        }
    }
  }

  // ---------------------------------------------------------------- filling the holes one by one

  ghost function Literals(s: string): (r: seq<Piece>)
    ensures |r| == |s|
  {
    if s == "" then [] else [Lit(s[0])] + Literals(s[1..])
  }

  /** Every hole `j` becomes the literal text `v`. */
  ghost function Expand(pieces: seq<Piece>, j: nat, v: string): seq<Piece> {
    if pieces == [] then []
    else (if pieces[0] == Hole(j) then Literals(v) else [pieces[0]]) + Expand(pieces[1..], j, v)
  }

  lemma RenderStep(c: char, rest: seq<Piece>, fill: seq<string>)
    requires Fits(rest, fill)
    ensures Fits([Lit(c)] + rest, fill)
    ensures Render([Lit(c)] + rest, fill) == [c] + Render(rest, fill)
  {
    FitsStep(Lit(c), rest, fill);
  }

  lemma {:induction false} RenderLiterals(v: string, rest: seq<Piece>, fill: seq<string>)
    requires Fits(rest, fill)
    ensures Fits(Literals(v) + rest, fill)
    ensures Render(Literals(v) + rest, fill) == v + Render(rest, fill)
  {
    hide Fits, Render;
    if v == "" {
      assert Literals(v) + rest == rest;
    } else {
      var tail := Literals(v[1..]) + rest;
      RenderLiterals(v[1..], rest, fill);
      assert Literals(v) + rest == [Lit(v[0])] + tail;
      RenderStep(v[0], tail, fill);
      assert v + Render(rest, fill) == [v[0]] + (v[1..] + Render(rest, fill));
    }
  }

  lemma {:induction false} RenderExpanded(pieces: seq<Piece>, fill: seq<string>, j: nat, v: string)
    requires Fits(pieces, fill) && j < |fill|
    ensures Fits(Expand(pieces, j, v), fill) && Fits(pieces, fill[j := v])
    ensures Render(Expand(pieces, j, v), fill) == Render(pieces, fill[j := v])
    decreases |pieces|
  {
    if pieces != [] {
      FitsRest(pieces, fill);
      RenderExpanded(pieces[1..], fill, j, v);
      if pieces[0] == Hole(j) {
        RenderLiterals(v, Expand(pieces[1..], j, v), fill);
      } else {
        FitsStep(pieces[0], Expand(pieces[1..], j, v), fill);
      }
    }
  }

  ghost predicate HolesFrom(pieces: seq<Piece>, n: nat) {
    forall k :: 0 <= k < |pieces| && pieces[k].Hole? ==> pieces[k].i >= n
  }

  lemma {:induction false} LiteralsOnly(v: string)
    ensures forall k :: 0 <= k < |v| ==> Literals(v)[k].Lit?
  {
    if v != "" {
      LiteralsOnly(v[1..]);
    }
  }

  lemma {:induction false} ExpandHoles(pieces: seq<Piece>, fill: seq<string>, j: nat, v: string)
    requires HolesFrom(pieces, j) && Filled(pieces, fill)
    ensures HolesFrom(Expand(pieces, j, v), j + 1) && Filled(Expand(pieces, j, v), fill)
    decreases |pieces|
  {
    if pieces != [] {
      var rest := pieces[1..];
      assert forall k :: 0 <= k < |rest| ==> rest[k] == pieces[k + 1];
      ExpandHoles(rest, fill, j, v);
      LiteralsOnly(v);
    }
  }

  lemma {:induction false} RenderNoHoles(pieces: seq<Piece>, fill: seq<string>, values: seq<string>)
    requires HolesFrom(pieces, |fill|) && Fits(pieces, fill) && Fits(pieces, values)
    ensures Render(pieces, fill) == Render(pieces, values)
    decreases |pieces|
  {
    if pieces != [] {
      var rest := pieces[1..];
      assert forall k :: 0 <= k < |rest| ==> rest[k] == pieces[k + 1];
      FitsRest(pieces, fill);
      FitsRest(pieces, values);
      RenderNoHoles(rest, fill, values);
    }
  }

  lemma {:induction false} ShowIs(pieces: seq<Piece>, fill: seq<string>, values: seq<string>, i: nat)
    requires |fill| == |values| && i <= |values|
    requires SentinelFill(fill) && Fits(pieces, fill) && Filled(pieces, fill) && ReservedFree(pieces, values)
    requires HolesFrom(pieces, i)
    ensures Fits(pieces, values)
    ensures ShowValues(Render(pieces, fill), fill, values, i) == Render(pieces, values)
    decreases |values| - i
  {
    hide IsSentinel, Replace, Contains;
    if i == |values| {
      RenderNoHoles(pieces, fill, values);
    } else if fill[i] == "" {
      ShowIs(pieces, fill, values, i + 1);
    } else {
      ReplaceSentinel(pieces, fill, values, i, values[i]);
      RenderExpanded(pieces, fill, i, values[i]);
      RenderExpanded(pieces, values, i, values[i]);
      assert values[i := values[i]] == values;
      ExpandHoles(pieces, fill, i, values[i]);
      ShowIs(Expand(pieces, i, values[i]), fill, values, i + 1);
    }
  }

  // ---------------------------------------------------------------- both phases

  ghost predicate HexSeeds(seeds: Seeds) {
    forall i, t, a :: IsSeed(seeds(i, t, a))
  }

  lemma PickedIsSentinel(index: nat, token: string, seeds: Seeds, rendered: string, values: seq<string>)
    requires HexSeeds(seeds)
    ensures var s := PickSentinel(index, token, seeds, rendered, values);
            s.Some? ==> IsSentinel(s.value, index)
  {
    hide Fresh, Sentinel;
    forall a: nat
      ensures IsSentinel(Sentinel(index, seeds(index, token, a)), index)
    {
      assert IsSeed(seeds(index, token, a));
    }
  }

  /** Once all tokens are hidden the text is the template's pieces filled with sentinels. */
  lemma {:induction false} HideIs(template: string, tokens: seq<string>, values: seq<string>, seeds: Seeds,
                                  sentinels: seq<string>)
    requires GoodTokens(tokens) && HexSeeds(seeds) && |sentinels| <= |tokens|
    requires PartlyHidden(sentinels + tokens[|sentinels|..], tokens, |sentinels|)
    requires Fits(Pieces(template, tokens), sentinels + tokens[|sentinels|..])
    ensures var hidden := HideTokens(Render(Pieces(template, tokens), sentinels + tokens[|sentinels|..]),
                                     tokens, values, seeds, sentinels);
            hidden.Some? ==>
              && PartlyHidden(hidden.value.1, tokens, |tokens|)
              && Fits(Pieces(template, tokens), hidden.value.1)
              && hidden.value.0 == Render(Pieces(template, tokens), hidden.value.1)
    decreases |tokens| - |sentinels|
  {
    hide GoodTokens, IsSentinel, Replace, PickSentinel, Pieces, HexSeeds;
    var i := |sentinels|;
    var fill := sentinels + tokens[i..];
    if i == |tokens| {
      assert fill == sentinels;
    } else if tokens[i] == "" {
      assert (sentinels + [""]) + tokens[i + 1..] == fill;
      HideIs(template, tokens, values, seeds, sentinels + [""]);
    } else {
      var rendered := Render(Pieces(template, tokens), fill);
      var picked := PickSentinel(i, tokens[i], seeds, rendered, values);
      if picked.Some? {
        PickedIsSentinel(i, tokens[i], seeds, rendered, values);
        ReplaceToken(template, tokens, fill, i, picked.value);
        assert fill[i := picked.value] == (sentinels + [picked.value]) + tokens[i + 1..];
        HideIs(template, tokens, values, seeds, sentinels + [picked.value]);
      }
    }
  }

  /**
   When the reserved word is not in the intended result, the two-phase replacement is the simultaneous
   substitution: whichever sentinels the search picked, and whatever the values contain.
   */
  lemma TwoPhaseIsOneShot(template: string, tokens: seq<string>, values: seq<string>, seeds: Seeds)
    requires |tokens| == |values| && GoodTokens(tokens) && HexSeeds(seeds)
    requires !Contains(OneShot(template, tokens, values), RESERVED)
    ensures var r := TwoPhase(template, tokens, values, seeds);
            r.Some? ==> r.value == OneShot(template, tokens, values)
  {
    hide GoodTokens, IsSentinel, HideTokens, ShowValues, HexSeeds, Contains, Pieces;
    assert [] + tokens[0..] == tokens;
    PiecesRender(template, tokens, values);
    HideIs(template, tokens, values, seeds, []);
    var hidden := HideTokens(template, tokens, values, seeds, []);
    if hidden.Some? {
      var fill := hidden.value.1;
      HiddenNonEmpty(tokens, fill, |tokens|);
      PiecesFilled(template, tokens, fill);
      ShowIs(Pieces(template, tokens), fill, values, 0);
    }
  }
}
