/** Which lines of the marked block are entries, as the pattern of the program has it. */
module LineLaws {
  import opened Wrappers
  import opened Text
  import opened MappingBlock

  /** `first,second]`, the text after the opening bracket. */
  ghost predicate IsPair(s: string, first: string, second: string) {
    s == first + "," + second + "]" && first != "" && ',' !in first && second != "" && ']' !in second
  }

  lemma {:induction false} CommaIndexFirst(s: string)
    ensures ',' !in s[..CommaIndex(s)] && (CommaIndex(s) < |s| ==> s[CommaIndex(s)] == ',')
  {
    if s != "" && s[0] != ',' {
      CommaIndexFirst(s[1..]);
      var n := CommaIndex(s[1..]);
      assert s[..n + 1] == [s[0]] + s[1..][..n];
    }
  }

  lemma CommaIndexIs(s: string, n: nat)
    requires n < |s| && s[n] == ',' && ',' !in s[..n]
    ensures CommaIndex(s) == n
  {
    CommaIndexFirst(s);
    FirstOnly(s, n, CommaIndex(s));
    FirstOnly(s, CommaIndex(s), n);
  }

  lemma FirstOnly(s: string, n: nat, i: nat)
    requires n <= |s| && i <= |s| && ',' !in s[..n] && (i < |s| ==> s[i] == ',')
    ensures i >= n
  {
    forall j | 0 <= j < n
      ensures s[j] != ','
    {
      assert s[..n][j] in s[..n];
    }
  }

  lemma PairParts(s: string, first: string, second: string)
    requires IsPair(s, first, second)
    ensures CommaIndex(s) == |first| && s[..|first|] == first && MatchPair(s) == Some((Strip(first), Strip(second)))
  {
    hide Strip, CommaIndex;
    assert s[..|first|] == first && s[|first|] == ',';
    CommaIndexIs(s, |first|);
    var rest := s[|first|..];
    assert rest == "," + second + "]" && rest[1..|rest| - 1] == second;
  }

  lemma MatchedPair(s: string) returns (first: string, second: string)
    requires MatchPair(s).Some?
    ensures IsPair(s, first, second) && MatchPair(s).value == (Strip(first), Strip(second))
  {
    hide Strip, CommaIndex;
    CommaIndexFirst(s);
    var rest := s[CommaIndex(s)..];
    first, second := s[..CommaIndex(s)], rest[1..|rest| - 1];
    assert s == first + rest && rest == "," + second + "]";
  }

  /** What may follow a key: an arrow and a bracket, with any whitespace before each, and then a pair. */
  ghost predicate IsTail(s: string, gap: string, between: string, first: string, second: string) {
    && Blank(gap) && Blank(between) && IsPair(first + "," + second + "]", first, second)
    && s == gap + ("->" + (between + ("[" + (first + "," + second + "]"))))
  }

  lemma StripGap(gap: string, s: string)
    requires Blank(gap) && s != "" && !IsSpace(s[0])
    ensures LStrip(gap + s) == s
  {
    LStripBlank(gap, s);
  }

  lemma GapOf(s: string) returns (gap: string)
    ensures Blank(gap) && s == gap + LStrip(s)
  {
    LStripSuffix(s);
    gap := s[..|s| - |LStrip(s)|];
  }

  lemma TailMatches(s: string, gap: string, between: string, first: string, second: string)
    requires IsTail(s, gap, between, first, second)
    ensures MatchHashes(s) == Some((Strip(first), Strip(second)))
  {
    hide Strip, LStrip, MatchPair;
    var body := first + "," + second + "]";
    var arrow := "->" + (between + ("[" + body));
    StripGap(gap, arrow);
    assert arrow[..2] == "->" && arrow[2..] == between + ("[" + body);
    StripGap(between, "[" + body);
    assert ("[" + body)[1..] == body;
    PairParts(body, first, second);
  }

  lemma MatchedTail(s: string, h: Hashes) returns (gap: string, between: string, first: string, second: string)
    requires MatchHashes(s) == Some(h)
    ensures IsTail(s, gap, between, first, second) && h == (Strip(first), Strip(second))
  {
    hide Strip, LStrip, MatchPair;
    var arrow := LStrip(s);
    gap := GapOf(s);
    var open := LStrip(arrow[2..]);
    between := GapOf(arrow[2..]);
    first, second := MatchedPair(open[1..]);
    assert open == "[" + open[1..] && arrow == "->" + arrow[2..];
  }

  /** The text is an entry for the key, which has no whitespace in it, with these hashes between the brackets. */
  ghost predicate HasEntry(s: string, key: string, h: Hashes) {
    && key != "" && (forall c :: c in key ==> !IsSpace(c))
    && exists tail, gap, between, first, second ::
         s == key + tail && IsTail(tail, gap, between, first, second) && h == (Strip(first), Strip(second))
  }

  lemma HasEntryIff(s: string, key: string, h: Hashes)
    ensures HasEntry(s, key, h) <==>
            && key != "" && (forall c :: c in key ==> !IsSpace(c)) && key <= s && MatchHashes(s[|key|..]) == Some(h)
  {
    hide MatchHashes, IsTail, Strip;
    if HasEntry(s, key, h) {
      var tail, gap, between, first, second :|
        s == key + tail && IsTail(tail, gap, between, first, second) && h == (Strip(first), Strip(second));
      assert s[|key|..] == tail;
      TailMatches(tail, gap, between, first, second);
    }
    if key <= s && MatchHashes(s[|key|..]) == Some(h) {
      var gap, between, first, second := MatchedTail(s[|key|..], h);
      assert s == key + s[|key|..];
    }
  }

  lemma {:induction false} WordLengthIff(s: string, n: nat)
    requires n <= |s|
    ensures n <= WordLength(s) <==> forall c :: c in s[..n] ==> !IsSpace(c)
  {
    if n > 0 {
      WordLengthIff(s[1..], n - 1);
      assert s[..n] == [s[0]] + s[1..][..n - 1];
    }
  }

  /** The match found is the longest there is up to `n`. */
  lemma {:induction false} MatchFromLongest(s: string, n: nat, k: nat)
    requires n <= |s| && 0 < k <= n && MatchHashes(s[k..]).Some?
    ensures MatchFrom(s, n).Some? && |MatchFrom(s, n).value.0| >= k
  {
    hide MatchHashes;
    if MatchHashes(s[n..]).None? {
      MatchFromLongest(s, n - 1, k);
    }
  }

  lemma {:induction false} MatchFromMatches(s: string, n: nat)
    requires n <= |s|
    ensures var m := MatchFrom(s, n);
            m.Some? ==> && 0 < |m.value.0| <= n && m.value.0 == s[..|m.value.0|]
                        && MatchHashes(s[|m.value.0|..]) == Some(m.value.1)
  {
    hide MatchHashes;
    if n > 0 && MatchHashes(s[n..]).None? {
      MatchFromMatches(s, n - 1);
    }
  }

  lemma FoundIsEntry(s: string)
    ensures var m := MatchFrom(s, WordLength(s)); m.Some? ==> HasEntry(s, m.value.0, m.value.1)
  {
    hide MatchHashes, MatchFrom, HasEntry;
    var m := MatchFrom(s, WordLength(s));
    MatchFromMatches(s, WordLength(s));
    if m.Some? {
      WordLengthIff(s, |m.value.0|);
      HasEntryIff(s, m.value.0, m.value.1);
    }
  }

  lemma EntryIsFound(s: string, key: string, h: Hashes)
    requires HasEntry(s, key, h)
    ensures var m := MatchFrom(s, WordLength(s)); m.Some? && |m.value.0| >= |key|
  {
    hide MatchHashes, MatchFrom, HasEntry;
    HasEntryIff(s, key, h);
    assert s[..|key|] == key;
    WordLengthIff(s, |key|);
    MatchFromLongest(s, WordLength(s), |key|);
  }

  /** A text is an entry for a key of given length with one pair of hashes only. */
  lemma OneEntry(s: string, key: string, h: Hashes, other: string, g: Hashes)
    requires HasEntry(s, key, h) && HasEntry(s, other, g) && |key| == |other|
    ensures key == other && h == g
  {
    hide MatchHashes, HasEntry;
    HasEntryIff(s, key, h);
    HasEntryIff(s, other, g);
    assert s[..|key|] == key && s[..|other|] == other;
  }

  /**
   A line is read as an entry exactly when it is one once stripped; of several keys it may be read with, the
   longest.
   */
  lemma ParseLineIff(line: string, key: string, h: Hashes)
    ensures ParseLine(line) == Some((key, h)) <==>
            HasEntry(Strip(line), key, h) && forall k, g :: HasEntry(Strip(line), k, g) ==> |k| <= |key|
  {
    hide MatchFrom, HasEntry, Strip;
    var s := Strip(line);
    var m := MatchFrom(s, WordLength(s));
    FoundIsEntry(s);
    forall k, g | HasEntry(s, k, g)
      ensures m.Some? && |k| <= |m.value.0|
    {
      EntryIsFound(s, k, g);
    }
    if m.Some? && HasEntry(s, key, h) && |m.value.0| <= |key| {
      OneEntry(s, key, h, m.value.0, m.value.1);
    }
  }

  // ---------------------------------------------------------------- all lines

  /** The lines with a character before them. */
  function Preceded(c: char, lines: seq<string>): seq<string>
    requires lines != []
  {
    if IsLineBreak(c) then [""] + lines else [[c] + lines[0]] + lines[1..]
  }

  lemma LinesStep(c: char, rest: string)
    ensures Lines([c] + rest) == Preceded(c, Lines(rest))
  {
    assert ([c] + rest)[1..] == rest;
  }

  lemma PrecededConcat(c: char, x: seq<string>, y: seq<string>)
    requires x != []
    ensures Preceded(c, x + y) == Preceded(c, x) + y
  {
  }

  lemma BreakPrecedes(c: char, lines: seq<string>)
    requires IsLineBreak(c) && lines != []
    ensures Preceded(c, lines) == [""] + lines
  {
  }

  /** A line break ends one line and starts the next. */
  lemma {:induction false} LinesConcat(a: string, c: char, b: string)
    requires IsLineBreak(c)
    ensures Lines(a + [c] + b) == Lines(a) + Lines(b)
  {
    hide IsLineBreak, Lines, Preceded;
    if a == "" {
      LinesStep(c, b);
      BreakPrecedes(c, Lines(b));
      OneLine("");
      assert a + [c] + b == [c] + b;
    } else {
      var rest := a[1..] + [c] + b;
      LinesConcat(a[1..], c, b);
      LinesStep(a[0], rest);
      LinesStep(a[0], a[1..]);
      PrecededConcat(a[0], Lines(a[1..]), Lines(b));
      assert a + [c] + b == [a[0]] + rest && a == [a[0]] + a[1..];
    }
  }

  /** A text without line breaks is one line. */
  lemma {:induction false} OneLine(s: string)
    requires forall c :: c in s ==> !IsLineBreak(c)
    ensures Lines(s) == [s]
  {
    if s != "" {
      assert s[0] in s && forall c :: c in s[1..] ==> c in s;
      OneLine(s[1..]);
      assert s == [s[0]] + s[1..];
    }
  }

  /** Line `i` is the last one that is an entry for the key, and has these hashes. */
  ghost predicate LastFor(lines: seq<string>, i: int, key: string, h: Hashes) {
    && 0 <= i < |lines| && ParseLine(lines[i]) == Some((key, h))
    && forall j :: i < j < |lines| ==> IsNotFor(lines[j], key)
  }

  ghost predicate IsNotFor(line: string, key: string) { ParseLine(line).Some? ==> ParseLine(line).value.0 != key }

  lemma {:induction false} AddLinesLast(entries: map<string, Hashes>, lines: seq<string>, key: string)
    ensures var all := AddLines(entries, lines);
            || (key in all && exists i :: LastFor(lines, i, key, all[key]))
            || ((forall i :: 0 <= i < |lines| ==> IsNotFor(lines[i], key))
                && (key in all <==> key in entries) && (key in all ==> all[key] == entries[key]))
    decreases |lines|
  {
    hide ParseLine;
    if lines != [] {
      var next, rest := AddLine(entries, lines[0]), lines[1..];
      AddLinesLast(next, rest, key);
      var all := AddLines(next, rest);
      if key in all && exists i :: LastFor(rest, i, key, all[key]) {
        var i :| LastFor(rest, i, key, all[key]);
        assert forall j :: i + 1 < j < |lines| ==> lines[j] == rest[j - 1];
        assert LastFor(lines, i + 1, key, all[key]);
      } else {
        assert forall j :: 0 < j < |lines| ==> lines[j] == rest[j - 1];
        if !IsNotFor(lines[0], key) {
          assert LastFor(lines, 0, key, all[key]);
        }
      }
    }
  }

  lemma EntryHasLast(block: string, key: string) returns (i: int)
    requires key in Entries(block)
    ensures LastFor(Lines(block), i, key, Entries(block)[key])
  {
    hide ParseLine, Lines, AddLines, LastFor;
    AddLinesLast(map[], Lines(block), key);
    i :| LastFor(Lines(block), i, key, Entries(block)[key]);
  }

  lemma LastIsEntry(block: string, key: string, h: Hashes, i: int)
    requires LastFor(Lines(block), i, key, h)
    ensures key in Entries(block) && Entries(block)[key] == h
  {
    hide ParseLine, Lines, AddLines, LastFor;
    FoundLast(Lines(block), i, key, h);
    AddLinesLast(map[], Lines(block), key);
    var k := EntryHasLast(block, key);
    OneLast(Lines(block), i, h, k, Entries(block)[key], key);
  }

  /** A block holds an entry exactly when its last line that is an entry for the key has these hashes. */
  lemma EntriesAre(block: string, key: string, h: Hashes)
    ensures key in Entries(block) && Entries(block)[key] == h <==> exists i :: LastFor(Lines(block), i, key, h)
  {
    hide Entries, LastFor, Lines;
    if key in Entries(block) && Entries(block)[key] == h {
      var i := EntryHasLast(block, key);
    }
    if i :| LastFor(Lines(block), i, key, h) {
      LastIsEntry(block, key, h, i);
    }
  }

  lemma FoundLast(lines: seq<string>, i: int, key: string, h: Hashes)
    requires LastFor(lines, i, key, h)
    ensures 0 <= i < |lines| && !IsNotFor(lines[i], key)
  {
  }

  lemma OneLast(lines: seq<string>, i: int, h: Hashes, k: int, g: Hashes, key: string)
    requires LastFor(lines, i, key, h) && LastFor(lines, k, key, g)
    ensures h == g
  {
    hide ParseLine;
    assert !IsNotFor(lines[i], key) && !IsNotFor(lines[k], key);
  }
}
