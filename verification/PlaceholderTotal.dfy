/** When the reserved word is nowhere in sight, every first sentinel is fresh and replacement never fails. */
module PlaceholderTotal {
  import opened Wrappers
  import opened Search
  import opened Placeholders
  import opened PlaceholderLaws

  /** The pieces with every hole from index `j` on written out as its token. */
  ghost function Frozen(pieces: seq<Piece>, tokens: seq<string>, j: nat): seq<Piece> {
    if pieces == [] then []
    else FrozenPiece(pieces[0], tokens, j) + Frozen(pieces[1..], tokens, j)
  }

  ghost function FrozenPiece(p: Piece, tokens: seq<string>, j: nat): seq<Piece> {
    if p.Hole? && j <= p.i < |tokens| then Literals(tokens[p.i]) else [p]
  }

  lemma FilledStep(p: Piece, rest: seq<Piece>, fill: seq<string>)
    requires Filled(rest, fill) && (p.Hole? ==> p.i < |fill| && fill[p.i] != "")
    ensures Filled([p] + rest, fill)
  {
  }

  lemma {:induction false} FilledLiterals(v: string, rest: seq<Piece>, fill: seq<string>)
    requires Filled(rest, fill)
    ensures Filled(Literals(v) + rest, fill)
  {
    if v == "" {
      assert Literals(v) + rest == rest;
    } else {
      FilledLiterals(v[1..], rest, fill);
      FilledStep(Lit(v[0]), Literals(v[1..]) + rest, fill);
      assert Literals(v) + rest == [Lit(v[0])] + (Literals(v[1..]) + rest);
    }
  }

  /** Writing holes out as tokens leaves the text as it is, as long as those holes hold their tokens. */
  lemma {:induction false} FrozenRender(pieces: seq<Piece>, tokens: seq<string>, fill: seq<string>, g: seq<string>,
                                        j: nat)
    requires |fill| == |tokens| == |g| && Fits(pieces, fill) && Filled(pieces, fill)
    requires forall k :: j <= k < |fill| ==> fill[k] == tokens[k]
    requires forall k :: 0 <= k < j && k < |fill| ==> g[k] == fill[k]
    ensures var frozen := Frozen(pieces, tokens, j);
            Fits(frozen, g) && Filled(frozen, g) && Render(frozen, g) == Render(pieces, fill)
    decreases |pieces|
  {
    hide Literals;
    if pieces != [] {
      var p, rest := pieces[0], pieces[1..];
      FitsRest(pieces, fill);
      FilledRest(pieces, fill);
      FrozenRender(rest, tokens, fill, g, j);
      var tail := Frozen(rest, tokens, j);
      if p.Hole? && j <= p.i {
        RenderLiterals(tokens[p.i], tail, g);
        FilledLiterals(tokens[p.i], tail, g);
      } else {
        FitsStep(p, tail, g);
        FilledStep(p, tail, g);
      }
    }
  }

  /** A sentinel that fills no hole occurs nowhere. */
  lemma {:induction false} SentinelAbsent(pieces: seq<Piece>, fill: seq<string>, values: seq<string>, s: string,
                                          i: nat, p: nat)
    requires SentinelFill(fill) && Fits(pieces, fill) && Filled(pieces, fill) && ReservedFree(pieces, values)
    requires IsSentinel(s, i) && i < |fill| && fill[i] == ""
    ensures !OccursAt(Render(pieces, fill), s, p)
    decreases |pieces|
  {
    hide IsSentinel, ReservedFree, OccursAt;
    SentinelLong(s, i);
    if pieces == [] {
      NotInNothing(s, p);
    } else {
      FitsRest(pieces, fill);
      FilledRest(pieces, fill);
      ReservedFreeRest(pieces, values);
      var rest := Render(pieces[1..], fill);
      match pieces[0]
      case Lit(c) =>
        if p == 0 {
          NotAtLiteral(pieces, fill, values, s, i, 0);
          AtStart(Render(pieces, fill), s);
        } else {
          SentinelAbsent(pieces[1..], fill, values, s, i, p - 1);
          InTail([c], rest, s, p);
        }
      case Hole(k) =>
        var u := fill[k];
        assert IsSentinel(u, k);
        if p < |u| {
          NotInSentinel(u, k, pieces[1..], fill, values, s, i, p);
          FromOffset(u, rest, s, p);
        } else {
          SentinelAbsent(pieces[1..], fill, values, s, i, p - |u|);
          InTail(u, rest, s, p);
        }
    }
  }

  lemma NotInNothing(s: string, p: nat)
    requires s != ""
    ensures !OccursAt("", s, p)
  {
  }

  lemma AtStart(text: string, s: string)
    requires !StartsWith(text, s[0..])
    ensures !OccursAt(text, s, 0)
  {
    assert s[0..] == s;
  }

  lemma InTail(a: string, b: string, s: string, p: nat)
    requires |a| <= p && !OccursAt(b, s, p - |a|)
    ensures !OccursAt(a + b, s, p)
  {
    if OccursAt(a + b, s, p) {
      OccursInRight(a, b, s, p);
    }
  }

  lemma FromOffset(a: string, b: string, s: string, p: nat)
    requires p < |a| && !StartsWith(a[p..] + b, s)
    ensures !OccursAt(a + b, s, p)
  {
    if p + |s| <= |a + b| {
      assert (a + b)[p..p + |s|] == (a[p..] + b)[..|s|];
    }
  }

  /** A text with a sentinel in it has the reserved word in it. */
  lemma SentinelBringsWord(text: string, s: string, i: nat)
    requires IsSentinel(s, i) && Contains(text, s)
    ensures Contains(text, RESERVED)
  {
    hide IsSentinel, Contains;
    SentinelLong(s, i);
    var p := SomePlace(text, s);
    PrefixSlice(s, 21, 2, 21);
    ReservedIsTail();
    SliceOfSlice(text, p, |s|, 2, 21);
    HereIsOne(text, RESERVED, p + 2);
  }

  lemma SomePlace(text: string, s: string) returns (p: nat)
    requires Contains(text, s)
    ensures p + |s| <= |text| && text[p..p + |s|] == s
  {
    p :| OccursAt(text, s, p);
  }

  lemma HereIsOne(text: string, s: string, p: nat)
    requires p + |s| <= |text| && text[p..p + |s|] == s
    ensures Contains(text, s)
  {
    assert OccursAt(text, s, p);
  }

  lemma SliceOfSlice(s: string, p: nat, n: nat, from: nat, to: nat)
    requires p + n <= |s| && from <= to <= n
    ensures s[p..p + n][from..to] == s[p + from..p + to]
  {
    var t := s[p..p + n];
    forall k | 0 <= k < to - from
      ensures t[from..to][k] == s[p + from..p + to][k]
    {
      assert t[from + k] == s[p + from + k];
    }
  }

  /** No text involved holds the reserved word. */
  ghost predicate WordUnused(template: string, values: seq<string>) {
    !Contains(template, RESERVED) && forall i :: 0 <= i < |values| ==> !Contains(values[i], RESERVED)
  }

  /** The first sentinel tried for the next token is fresh. */
  lemma FirstIsFresh(template: string, tokens: seq<string>, values: seq<string>, fill: seq<string>, j: nat,
                     s: string)
    requires GoodTokens(tokens) && PartlyHidden(fill, tokens, j) && j < |tokens| && tokens[j] != ""
    requires Fits(Pieces(template, tokens), fill) && WordUnused(template, values) && IsSentinel(s, j)
    ensures !IsIn(s, Render(Pieces(template, tokens), fill)) && !AnyHolds(values, s)
  {
    hide GoodTokens, IsSentinel, Pieces, Contains, OccursAt, Frozen;
    var pieces := Pieces(template, tokens);
    HiddenNonEmpty(tokens, fill, j);
    PiecesFilled(template, tokens, fill);
    PiecesFilled(template, tokens, tokens);
    PiecesRender(template, tokens, tokens);
    var g := seq(|tokens|, k requires 0 <= k < |tokens| => if k < j then fill[k] else "");
    FrozenRender(pieces, tokens, fill, g, j);
    FrozenRender(pieces, tokens, tokens, tokens, j);
    var frozen := Frozen(pieces, tokens, j);
    forall p: nat
      ensures !OccursAt(Render(frozen, g), s, p)
    {
      SentinelAbsent(frozen, g, tokens, s, j, p);
    }
    NowhereIsNotIn(Render(pieces, fill), s);
    forall i | 0 <= i < |values|
      ensures !IsIn(s, values[i])
    {
      FindFirst(values[i], s);
      if Contains(values[i], s) {
        SentinelBringsWord(values[i], s, j);
      }
    }
  }

  lemma NowhereIsNotIn(text: string, s: string)
    requires forall p: nat :: !OccursAt(text, s, p)
    ensures !IsIn(s, text)
  {
    FindFirst(text, s);
  }

  /** So every search ends at its first attempt, and the first phase ends. */
  lemma {:induction false} HideSucceeds(template: string, tokens: seq<string>, values: seq<string>, seeds: Seeds,
                                        sentinels: seq<string>)
    requires GoodTokens(tokens) && HexSeeds(seeds) && WordUnused(template, values) && |sentinels| <= |tokens|
    requires PartlyHidden(sentinels + tokens[|sentinels|..], tokens, |sentinels|)
    requires Fits(Pieces(template, tokens), sentinels + tokens[|sentinels|..])
    ensures HideTokens(Render(Pieces(template, tokens), sentinels + tokens[|sentinels|..]),
                       tokens, values, seeds, sentinels).Some?
    decreases |tokens| - |sentinels|
  {
    hide GoodTokens, IsSentinel, Replace, Pieces, WordUnused, HexSeeds, IsIn, AnyHolds, Sentinel;
    var i := |sentinels|;
    var fill := sentinels + tokens[i..];
    if i == |tokens| {
    } else if tokens[i] == "" {
      assert (sentinels + [""]) + tokens[i + 1..] == fill;
      HideSucceeds(template, tokens, values, seeds, sentinels + [""]);
    } else {
      var rendered := Render(Pieces(template, tokens), fill);
      var s := Sentinel(i, seeds(i, tokens[i], 0));
      SeedIsSentinel(seeds, i, tokens[i]);
      FirstIsFresh(template, tokens, values, fill, i, s);
      OnlyFirst(i, tokens[i], seeds, rendered, values);
      ReplaceToken(template, tokens, fill, i, s);
      assert fill[i := s] == (sentinels + [s]) + tokens[i + 1..];
      HideSucceeds(template, tokens, values, seeds, sentinels + [s]);
    }
  }

  lemma OnlyFirst(index: nat, token: string, seeds: Seeds, rendered: string, values: seq<string>)
    requires Fresh(index, token, seeds, rendered, values, 0)
    ensures PickSentinel(index, token, seeds, rendered, values) == Some(Sentinel(index, seeds(index, token, 0)))
  {
    hide Fresh, Sentinel;
    assert FirstFresh(index, token, seeds, rendered, values, 0);
  }

  lemma SeedIsSentinel(seeds: Seeds, i: nat, token: string)
    requires HexSeeds(seeds)
    ensures IsSentinel(Sentinel(i, seeds(i, token, 0)), i)
  {
    hide Sentinel;
    assert IsSeed(seeds(i, token, 0));
  }

  /**
   With the reserved word in neither the template, any value nor the intended result, replacement always
   gives the intended result: simultaneous substitution.
   */
  lemma ReplacementIsSubstitution(template: string, tokens: seq<string>, values: seq<string>, seeds: Seeds)
    requires |tokens| == |values| && GoodTokens(tokens) && HexSeeds(seeds) && WordUnused(template, values)
    requires !Contains(OneShot(template, tokens, values), RESERVED)
    ensures TwoPhase(template, tokens, values, seeds) == Some(OneShot(template, tokens, values))
  {
    hide GoodTokens, HideTokens, ShowValues, HexSeeds, Contains, Pieces, WordUnused, OneShot;
    TwoPhaseIsOneShot(template, tokens, values, seeds);
    assert [] + tokens[0..] == tokens;
    PiecesRender(template, tokens, values);
    HideSucceeds(template, tokens, values, seeds, []);
  }
}
