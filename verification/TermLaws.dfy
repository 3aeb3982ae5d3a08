/** Which words of a text count: runs of letters between blanks, whatever their case. */
module TermLaws {
  import opened Text
  import opened Vectors
  import opened SemanticCache

  // ---------------------------------------------------------------- splitting

  lemma {:induction false} LStripBefore(a: string, b: string)
    requires LStrip(a) != ""
    ensures LStrip(a + b) == LStrip(a) + b
  {
    if IsSpace(a[0]) {
      LStripBefore(a[1..], b);
      assert (a + b)[1..] == a[1..] + b;
    }
  }

  lemma {:induction false} LStripPast(a: string, b: string)
    requires LStrip(a) == ""
    ensures LStrip(a + b) == LStrip(b)
  {
    if a == "" {
      assert a + b == b;
    } else {
      LStripPast(a[1..], b);
      assert (a + b)[1..] == a[1..] + b;
    }
  }

  lemma {:induction false} WordLengthBefore(a: string, b: string)
    requires b != "" && IsSpace(b[0])
    ensures WordLength(a + b) == WordLength(a)
  {
    if a == "" {
      assert a + b == b;
    } else if !IsSpace(a[0]) {
      WordLengthBefore(a[1..], b);
      assert (a + b)[1..] == a[1..] + b;
    }
  }

  lemma SplitStep(s: string)
    ensures var t := LStrip(s);
            Split(s) == if t == "" then [] else [t[..WordLength(t)]] + Split(t[WordLength(t)..])
  {
  }

  lemma SplitSame(s: string, u: string)
    requires LStrip(s) == LStrip(u)
    ensures Split(s) == Split(u)
  {
    SplitStep(s);
    SplitStep(u);
  }

  lemma FirstWordShortens(s: string)
    requires LStrip(s) != ""
    ensures var t := LStrip(s); 0 < WordLength(t) <= |t| <= |s|
  {
    LStripSuffix(s);
  }

  /** A blank separates what is before it from what is after it. */
  lemma {:induction false} SplitConcat(a: string, c: char, b: string)
    requires IsSpace(c)
    ensures Split(a + [c] + b) == Split(a) + Split(b)
    decreases |a|
  {
    hide Split, IsSpace, LStrip, WordLength;
    var tail := [c] + b;
    assert a + [c] + b == a + tail;
    SplitStep(a);
    SplitStep(a + tail);
    LStripOne(c, b);
    if LStrip(a) == "" {
      LStripPast(a, tail);
      SplitSame(a + tail, b);
    } else {
      var t := LStrip(a);
      var n := WordLength(t);
      LStripBefore(a, tail);
      WordLengthBefore(t, tail);
      FirstWordShortens(a);
      assert (t + tail)[..n] == t[..n] && (t + tail)[n..] == t[n..] + [c] + b;
      SplitConcat(t[n..], c, b);
      assert [t[..n]] + (Split(t[n..]) + Split(b)) == ([t[..n]] + Split(t[n..])) + Split(b);
    }
  }

  lemma LStripOne(c: char, b: string)
    requires IsSpace(c)
    ensures LStrip([c] + b) == LStrip(b)
  {
    assert ([c] + b)[1..] == b;
  }

  lemma {:induction false} OneWordLength(w: string)
    requires forall i :: 0 <= i < |w| ==> !IsSpace(w[i])
    ensures WordLength(w) == |w|
  {
    if w != "" {
      OneWordLength(w[1..]);
    }
  }

  lemma SplitOne(w: string)
    requires w != "" && forall i :: 0 <= i < |w| ==> !IsSpace(w[i])
    ensures Split(w) == [w]
  {
    hide IsSpace, Split, LStrip, WordLength;
    OneWordLength(w);
    NothingToStrip(w);
    SplitStep(w);
    assert w[..|w|] == w && w[|w|..] == "";
    SplitNothing();
  }

  lemma NothingToStrip(w: string)
    requires w != "" && !IsSpace(w[0])
    ensures LStrip(w) == w
  {
  }

  lemma SplitNothing()
    ensures Split("") == []
  {
  }

  lemma AlphabeticOne(w: string)
    ensures Alphabetic([w]) == if IsAlpha(w) then [ToLower(w)] else []
  {
    assert [w][1..] == [];
  }

  // ---------------------------------------------------------------- what counts

  lemma {:induction false} AlphabeticConcat(a: seq<string>, b: seq<string>)
    ensures Alphabetic(a + b) == Alphabetic(a) + Alphabetic(b)
  {
    hide Alphabetic;
    if a == [] {
      assert a + b == b;
      AlphabeticNone();
    } else {
      AlphabeticConcat(a[1..], b);
      AlphabeticStep(a);
      AlphabeticStep(a + b);
      assert (a + b)[0] == a[0] && (a + b)[1..] == a[1..] + b;
    }
  }

  lemma AlphabeticStep(words: seq<string>)
    requires words != []
    ensures Alphabetic(words) == (if IsAlpha(words[0]) then [ToLower(words[0])] else []) + Alphabetic(words[1..])
  {
  }

  /** The words of two texts with a blank between them are those of the one and then those of the other. */
  lemma TermsConcat(a: string, c: char, b: string)
    requires IsSpace(c)
    ensures Terms(a + [c] + b) == Terms(a) + Terms(b)
  {
    hide IsSpace, Split, Alphabetic;
    SplitConcat(a, c, b);
    AlphabeticConcat(Split(a), Split(b));
  }

  /** A run of letters counts in lower case; any other run of characters does not count. */
  lemma TermsOfWord(w: string)
    requires forall i :: 0 <= i < |w| ==> !IsSpace(w[i])
    ensures Terms(w) == if w != "" && forall i :: 0 <= i < |w| ==> IsAsciiLetter(w[i]) then [ToLower(w)] else []
  {
    hide IsSpace, IsAsciiLetter, ToLower, Split, Alphabetic;
    if w == "" {
      SplitNothing();
      AlphabeticNone();
    } else {
      SplitOne(w);
      AlphabeticOne(w);
    }
  }

  lemma AlphabeticNone()
    ensures Alphabetic([]) == []
  {
  }

  /** Lower case, letter by letter. */
  lemma {:induction false} LowerAt(s: string, i: nat)
    requires i < |s|
    ensures ToLower(s)[i] == if 'A' <= s[i] <= 'Z' then ((s[i] - 'A') + 'a') as char else s[i]
  {
    if i > 0 {
      LowerAt(s[1..], i - 1);
    }
  }

  // ---------------------------------------------------------------- what does not count

  /** The texts differ in the case of letters only. */
  ghost predicate SameButCase(a: string, b: string) {
    |a| == |b| && forall i :: 0 <= i < |a| ==> a[i] == b[i] || ToLowerChar(a[i]) == ToLowerChar(b[i])
  }

  lemma CaseKeepsKind(c: char, d: char)
    requires c == d || ToLowerChar(c) == ToLowerChar(d)
    ensures (IsSpace(c) <==> IsSpace(d)) && (IsAsciiLetter(c) <==> IsAsciiLetter(d)) && ToLowerChar(c) == ToLowerChar(d)
  {
  }

  lemma SameSlice(a: string, b: string, from: nat, to: nat)
    requires SameButCase(a, b) && from <= to <= |a|
    ensures SameButCase(a[from..to], b[from..to])
  {
    hide ToLowerChar;
    forall i | 0 <= i < to - from
      ensures a[from..to][i] == b[from..to][i] || ToLowerChar(a[from..to][i]) == ToLowerChar(b[from..to][i])
    {
      assert a[from..to][i] == a[from + i] && b[from..to][i] == b[from + i];
    }
  }

  lemma SameTail(a: string, b: string, from: nat)
    requires SameButCase(a, b) && from <= |a|
    ensures SameButCase(a[from..], b[from..])
  {
    hide SameButCase;
    assert |b| == |a| by { SameLength(a, b); }
    SameSlice(a, b, from, |a|);
    assert a[from..|a|] == a[from..] && b[from..|a|] == b[from..];
  }

  lemma SameLength(a: string, b: string)
    requires SameButCase(a, b)
    ensures |a| == |b|
  {
  }

  lemma {:induction false} LStripAlike(a: string, b: string)
    requires SameButCase(a, b)
    ensures SameButCase(LStrip(a), LStrip(b))
  {
    hide IsSpace, ToLowerChar;
    if a != "" {
      CaseKeepsKind(a[0], b[0]);
      SameTail(a, b, 1);
      LStripAlike(a[1..], b[1..]);
    }
  }

  lemma {:induction false} WordLengthAlike(a: string, b: string)
    requires SameButCase(a, b)
    ensures WordLength(a) == WordLength(b)
  {
    hide IsSpace, ToLowerChar;
    if a != "" {
      CaseKeepsKind(a[0], b[0]);
      SameTail(a, b, 1);
      WordLengthAlike(a[1..], b[1..]);
    }
  }

  lemma {:induction false} LowerAlike(a: string, b: string)
    requires SameButCase(a, b)
    ensures ToLower(a) == ToLower(b)
  {
    hide ToLowerChar;
    if a != "" {
      CaseKeepsKind(a[0], b[0]);
      SameTail(a, b, 1);
      LowerAlike(a[1..], b[1..]);
    }
  }

  lemma AlphaAlike(a: string, b: string)
    requires SameButCase(a, b)
    ensures IsAlpha(a) <==> IsAlpha(b)
  {
    hide IsAsciiLetter, ToLowerChar;
    forall i | 0 <= i < |a|
      ensures IsAsciiLetter(a[i]) <==> IsAsciiLetter(b[i])
    {
      CaseKeepsKind(a[i], b[i]);
    }
  }

  /** The case of letters does not count. */
  lemma {:induction false} CaseIgnored(a: string, b: string)
    requires SameButCase(a, b)
    ensures Terms(a) == Terms(b)
    decreases |a|
  {
    hide Split, LStrip, WordLength, Alphabetic, SameButCase, IsAlpha, ToLower;
    var s, t := LStrip(a), LStrip(b);
    LStripAlike(a, b);
    WordLengthAlike(s, t);
    SameLength(s, t);
    SplitStep(a);
    SplitStep(b);
    if s == "" {
      SameLength(s, t);
    } else {
      var n := WordLength(s);
      FirstWordShortens(a);
      FirstWordShortens(b);
      SameSlice(s, t, 0, n);
      assert s[0..n] == s[..n] && t[0..n] == t[..n];
      SameTail(s, t, n);
      CaseIgnored(s[n..], t[n..]);
      LowerAlike(s[..n], t[..n]);
      AlphaAlike(s[..n], t[..n]);
      AlphabeticConcat([s[..n]], Split(s[n..]));
      AlphabeticConcat([t[..n]], Split(t[n..]));
      AlphabeticOne(s[..n]);
      AlphabeticOne(t[..n]);
    }
  }

  ghost predicate IsGap(s: string) { s != "" && Blank(s) }

  /** Nor does it count how many blanks there are between words, or which. */
  lemma {:induction false} SpacingIgnored(a: string, gap: string, b: string)
    requires IsGap(gap)
    ensures Terms(a + gap + b) == Terms(a) + Terms(b)
    decreases |gap|
  {
    hide IsSpace, Terms;
    assert gap[0] in gap;
    if |gap| == 1 {
      assert gap == [gap[0]];
      TermsConcat(a, gap[0], b);
    } else {
      var rest := gap[1..];
      assert IsGap(rest) by { assert forall c :: c in rest ==> c in gap; }
      SpacingIgnored("", rest, b);
      assert "" + rest + b == rest + b;
      assert Terms("") == [] by { TermsOfWord(""); }
      TermsConcat(a, gap[0], rest + b);
      assert a + gap + b == a + [gap[0]] + (rest + b);
    }
  }

  // ---------------------------------------------------------------- what a query gives

  /** Texts whose words are the same have one embedding, so they get one answer. */
  lemma SameTermsSameAnswer<R>(store: seq<Entry<R>>, a: string, b: string, threshold: real, sqrt: Root)
    requires || SameButCase(a, b)
             || exists l, gap, other, r :: IsGap(gap) && IsGap(other) && a == l + gap + r && b == l + other + r
    ensures Embedded(Terms(a), sqrt) == Embedded(Terms(b), sqrt)
    ensures Lookup(store, Embedded(Terms(a), sqrt), threshold) == Lookup(store, Embedded(Terms(b), sqrt), threshold)
  {
    hide Terms, Embedded, Lookup, SameButCase, IsGap;
    if SameButCase(a, b) {
      CaseIgnored(a, b);
    } else {
      var l, gap, other, r :| IsGap(gap) && IsGap(other) && a == l + gap + r && b == l + other + r;
      SpacingIgnored(l, gap, r);
      SpacingIgnored(l, other, r);
    }
  }
}
