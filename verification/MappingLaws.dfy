/** The marked block refines a map from task ids to commit hashes. */
module MappingLaws {
  import opened Wrappers
  import opened Text
  import opened Tasks
  import opened Search
  import opened MappingBlock

  // ---------------------------------------------------------------- one line

  /** A commit hash or `SELF`. */
  predicate CleanHash(s: string) {
    s != "" && forall c :: c in s ==> IsAsciiLetter(c) || IsDigit(c)
  }

  ghost predicate Clean(entries: map<string, Hashes>) {
    forall k :: k in entries ==> IsTaskId(k) && CleanHash(entries[k].0) && CleanHash(entries[k].1)
  }

  /** Characters that may appear in an entry line. */
  predicate PlainChar(c: char) { !IsLineBreak(c) && c != '<' }

  lemma CleanPlain(s: string)
    requires IsTaskId(s) || CleanHash(s)
    ensures forall c :: c in s ==> PlainChar(c) && !IsSpace(c) && c != ',' && c != ']' && c != '['
  {
  }

  lemma {:induction false} WordLengthOf(word: string, rest: string)
    requires forall c :: c in word ==> !IsSpace(c)
    requires rest != "" && IsSpace(rest[0])
    ensures WordLength(word + rest) == |word|
  {
    if word == "" {
      assert word + rest == rest;
    } else {
      assert word[0] in word && forall c :: c in word[1..] ==> c in word;
      assert (word + rest)[1..] == word[1..] + rest;
      WordLengthOf(word[1..], rest);
    }
  }

  lemma {:induction false} CommaIndexOf(head: string, tail: string)
    requires ',' !in head && tail != "" && tail[0] == ','
    ensures CommaIndex(head + tail) == |head|
  {
    if head == "" {
      assert head + tail == tail;
    } else {
      assert head[0] in head && ',' !in head[1..];
      assert (head + tail)[1..] == head[1..] + tail;
      CommaIndexOf(head[1..], tail);
    }
  }

  lemma CleanStrips(s: string)
    requires CleanHash(s)
    ensures Strip(s) == s && Strip(" " + s) == s
  {
    CleanPlain(s);
    assert s[0] in s && s[|s| - 1] in s;
    StripTrimmed(s);
    assert (" " + s)[1..] == s;
    assert LStrip(" " + s) == s;
  }

  lemma SpaceStripped(rest: string)
    requires rest != "" && !IsSpace(rest[0])
    ensures LStrip(" " + rest) == rest
  {
    assert (" " + rest)[1..] == rest;
    assert LStrip(rest) == rest;
  }

  lemma ArrowMatches(body: string)
    ensures MatchHashes(" -> [" + body) == MatchPair(body)
  {
    hide MatchPair, LStrip;
    var open := "[" + body;
    var arrow := "-> " + open;
    assert " -> [" + body == " " + arrow;
    SpaceStripped(arrow);
    assert arrow[..2] == "->" && arrow[2..] == " " + open;
    SpaceStripped(open);
    assert open[1..] == body;
  }

  lemma PairMatches(h: Hashes)
    requires CleanHash(h.0) && CleanHash(h.1)
    ensures MatchPair(h.0 + ", " + h.1 + "]") == Some(h)
  {
    hide CleanHash, Strip, CommaIndex;
    var tail := ", " + h.1 + "]";
    var body := h.0 + tail;
    assert h.0 + ", " + h.1 + "]" == body;
    CleanPlain(h.0);
    CleanPlain(h.1);
    CommaIndexOf(h.0, tail);
    CleanNonEmpty(h.0);
    CleanNonEmpty(h.1);
    assert body[..|h.0|] == h.0 && body[|h.0|..] == tail;
    assert tail[1..|tail| - 1] == " " + h.1;
    assert ']' !in " " + h.1;
    CleanStrips(h.0);
    CleanStrips(h.1);
  }

  lemma HashesMatch(h: Hashes)
    requires CleanHash(h.0) && CleanHash(h.1)
    ensures MatchHashes(" -> [" + h.0 + ", " + h.1 + "]") == Some(h)
  {
    hide CleanHash, MatchHashes, MatchPair;
    var body := h.0 + ", " + h.1 + "]";
    assert " -> [" + h.0 + ", " + h.1 + "]" == " -> [" + body;
    ArrowMatches(body);
    PairMatches(h);
  }

  lemma CleanNonEmpty(s: string)
    requires CleanHash(s)
    ensures s != ""
  {
  }

  /** An entry line reads back as the entry it was printed from. */
  lemma LineRoundTrip(key: string, h: Hashes)
    requires IsTaskId(key) && CleanHash(h.0) && CleanHash(h.1)
    ensures ParseLine(EntryLine(key, h)) == Some((key, h))
  {
    hide MatchHashes, CleanHash;
    var rest := " -> [" + h.0 + ", " + h.1 + "]";
    var line := EntryLine(key, h);
    assert line == key + rest;
    CleanPlain(key);
    assert key[0] in key && line[0] == key[0] && line[|line| - 1] == ']';
    StripTrimmed(line);
    WordLengthOf(key, rest);
    HashesMatch(h);
    assert line[..|key|] == key && line[|key|..] == rest;
  }

  // ---------------------------------------------------------------- the block

  lemma {:induction false} LinesAppend(line: string, rest: string)
    requires forall c :: c in line ==> !IsLineBreak(c)
    ensures Lines(line + "\n" + rest) == [line] + Lines(rest)
  {
    var s := line + "\n" + rest;
    if line == "" {
      assert s[0] == '\n' && s[1..] == rest;
    } else {
      assert line[0] in line && forall c :: c in line[1..] ==> c in line;
      assert s[1..] == line[1..] + "\n" + rest;
      LinesAppend(line[1..], rest);
      assert [line[0]] + line[1..] == line;
    }
  }

  lemma EntryLinePlain(key: string, h: Hashes)
    requires IsTaskId(key) && CleanHash(h.0) && CleanHash(h.1)
    ensures forall c :: c in EntryLine(key, h) ==> PlainChar(c)
  {
    hide CleanHash;
    CleanPlain(key);
    CleanPlain(h.0);
    CleanPlain(h.1);
    assert forall c :: c in " -> [" ==> PlainChar(c);
    assert forall c :: c in ", " ==> PlainChar(c);
    assert forall c :: c in "]" ==> PlainChar(c);
    forall c | c in EntryLine(key, h)
      ensures PlainChar(c)
    {
      assert c in key || c in " -> [" || c in h.0 || c in ", " || c in h.1 || c in "]";
    }
  }

  /** The first `i` keys, with their hashes. */
  ghost function Restricted(entries: map<string, Hashes>, keys: seq<string>): map<string, Hashes> {
    map k | k in keys && k in entries :: entries[k]
  }

  lemma RestrictedStep(acc: map<string, Hashes>, entries: map<string, Hashes>, keys: seq<string>)
    requires keys != [] && keys[0] in entries
    ensures acc[keys[0] := entries[keys[0]]] + Restricted(entries, keys[1..]) == acc + Restricted(entries, keys)
  {
    assert forall k :: k in keys <==> k == keys[0] || k in keys[1..];
  }

  lemma {:induction false} PrintedParses(acc: map<string, Hashes>, entries: map<string, Hashes>, keys: seq<string>)
    requires Clean(entries) && forall i :: 0 <= i < |keys| ==> keys[i] in entries
    ensures AddLines(acc, Lines(PrintKeys(entries, keys))) == acc + Restricted(entries, keys)
    decreases |keys|
  {
    hide ParseLine, CleanHash, IsTaskId, EntryLine, Restricted;
    if keys == [] {
      assert Lines("") == [""];
      BlankLine();
      assert [""][1..] == [];
      NothingRestricted(acc, entries);
    } else {
      var key, rest := keys[0], PrintKeys(entries, keys[1..]);
      assert key in entries;
      assert forall i :: 0 <= i < |keys[1..]| ==> keys[1..][i] == keys[i + 1];
      var line := EntryLine(key, entries[key]);
      EntryLinePlain(key, entries[key]);
      LinesAppend(line, rest);
      hide Lines;
      LineRoundTrip(key, entries[key]);
      assert ([line] + Lines(rest))[1..] == Lines(rest);
      PrintedParses(acc[key := entries[key]], entries, keys[1..]);
      RestrictedStep(acc, entries, keys);
    }
  }

  lemma NothingRestricted(acc: map<string, Hashes>, entries: map<string, Hashes>)
    ensures acc + Restricted(entries, []) == acc
  {
  }

  lemma BlankLine()
    ensures ParseLine("").None?
  {
  }

  /** The block has one line per entry, in increasing order of task id. */
  lemma BlockSorted(entries: map<string, Hashes>) returns (keys: seq<string>)
    ensures Sorted(keys) && (forall k :: k in keys <==> k in entries)
    ensures forall i :: 0 <= i < |keys| ==> keys[i] in entries
    ensures Block(entries) == "\n" + PrintKeys(entries, keys)
  {
    hide PrintKeys, Less;
    keys := SortedKeys(entries.Keys);
    assert forall i :: 0 <= i < |keys| ==> keys[i] in keys;
  }

  lemma {:induction false} PrintedLines(entries: map<string, Hashes>, keys: seq<string>)
    requires Clean(entries) && forall i :: 0 <= i < |keys| ==> keys[i] in entries
    ensures var lines := Lines(PrintKeys(entries, keys));
            && |lines| == |keys| + 1 && lines[|keys|] == ""
            && forall i :: 0 <= i < |keys| ==> lines[i] == EntryLine(keys[i], entries[keys[i]])
  {
    hide CleanHash, IsTaskId, EntryLine, Lines;
    if keys == [] {
      assert Lines("") == [""] by { NoLines(); }
    } else {
      var line, rest := EntryLine(keys[0], entries[keys[0]]), keys[1..];
      PrintedLines(entries, rest);
      EntryLinePlain(keys[0], entries[keys[0]]);
      LinesAppend(line, PrintKeys(entries, rest));
      var lines := Lines(PrintKeys(entries, keys));
      assert lines == [line] + Lines(PrintKeys(entries, rest));
    }
  }

  lemma NoLines()
    ensures Lines("") == [""]
  {
  }

  /** Between its first and its last newline the block has a line for each entry, in increasing order of task id. */
  lemma BlockLines(entries: map<string, Hashes>) returns (keys: seq<string>)
    requires Clean(entries)
    ensures Sorted(keys) && (forall k :: k in keys <==> k in entries)
    ensures var lines := Lines(Block(entries));
            && |lines| == |keys| + 2 && lines[0] == "" && lines[|keys| + 1] == ""
            && forall i :: 0 <= i < |keys| ==>
                 && keys[i] in entries
                 && lines[i + 1] == keys[i] + " -> [" + entries[keys[i]].0 + ", " + entries[keys[i]].1 + "]"
  {
    hide PrintKeys, Less, Lines, CleanHash;
    keys := BlockSorted(entries);
    PrintedLines(entries, keys);
    LinesAppend("", PrintKeys(entries, keys));
    assert "" + "\n" + PrintKeys(entries, keys) == Block(entries);
  }

  /** Parsing a printed block gives back exactly the map it was printed from. */
  lemma BlockRoundTrip(entries: map<string, Hashes>)
    requires Clean(entries)
    ensures Entries(Block(entries)) == entries
  {
    hide ParseLine, Clean, AddLines, PrintKeys, Block, Lines, Sorted;
    var keys := BlockSorted(entries);
    var printed := PrintKeys(entries, keys);
    assert Block(entries) == "" + "\n" + printed;
    LinesAppend("", printed);
    PrintedParses(map[], entries, keys);
    AddBlankFirst(Lines(printed));
    assert map[] + Restricted(entries, keys) == entries;
  }

  lemma AddBlankFirst(lines: seq<string>)
    ensures AddLines(map[], [""] + lines) == AddLines(map[], lines)
  {
    BlankLine();
    assert ([""] + lines)[1..] == lines;
  }

  lemma {:induction false} PrintedPlain(entries: map<string, Hashes>, keys: seq<string>)
    requires Clean(entries) && forall i :: 0 <= i < |keys| ==> keys[i] in entries
    ensures forall c :: c in PrintKeys(entries, keys) ==> c != '<'
  {
    hide CleanHash, IsTaskId;
    if keys != [] {
      var key := keys[0];
      assert key in entries;
      assert forall i :: 0 <= i < |keys[1..]| ==> keys[1..][i] == keys[i + 1];
      EntryLinePlain(key, entries[key]);
      PrintedPlain(entries, keys[1..]);
    }
  }

  lemma BlockPlain(entries: map<string, Hashes>)
    requires Clean(entries)
    ensures forall c :: c in Block(entries) ==> c != '<'
  {
    hide Clean, PrintKeys, Block, Sorted;
    var keys := BlockSorted(entries);
    PrintedPlain(entries, keys);
  }

  // ---------------------------------------------------------------- the document

  /** The document is `before`, the marked block of `entries`, `after`; neither marker occurs in `before`. */
  ghost predicate Managed(text: string, before: string, entries: map<string, Hashes>, after: string) {
    && Clean(entries)
    && !Contains(before, MAPPING_START) && !Contains(before, MAPPING_END)
    && text == before + MAPPING_START + Block(entries) + MAPPING_END + after
  }

  /** The first start marker of a managed document is its own. */
  lemma ManagedStart(text: string, before: string, entries: map<string, Hashes>, after: string)
    requires Managed(text, before, entries, after)
    ensures Find(text, MAPPING_START) == |before|
  {
    hide Clean, Block;
    var rest := Block(entries) + MAPPING_END + after;
    assert text == before + MAPPING_START + rest;
    OccursBetween(before, MAPPING_START, rest);
    forall j | 0 <= j < |before|
      ensures !OccursAt(text, MAPPING_START, j)
    {
      NotAcross(before, MAPPING_START + rest, MAPPING_START, j);
      assert text == before + (MAPPING_START + rest);
    }
    FindIs(text, MAPPING_START, |before|);
  }

  /** A marker cannot start inside `a` when `a` does not contain it and a "<" follows `a`. */
  lemma NotAcross(a: string, b: string, marker: string, j: nat)
    requires marker == MAPPING_START || marker == MAPPING_END
    requires j < |a| && !Contains(a, marker) && b != "" && b[0] == '<'
    ensures !OccursAt(a + b, marker, j)
  {
    if OccursAt(a + b, marker, j) {
      if j + |marker| <= |a| {
        OccursInLeft(a, b, marker, j);
        assert Contains(a, marker);
      } else {
        OccursChars(a + b, marker, j, |a| - j);
        MarkerChars(|a| - j);
      }
    }
  }

  /** Its first end marker is its own as well: the block's lines hold no "<". */
  lemma ManagedEnd(text: string, before: string, entries: map<string, Hashes>, after: string)
    requires Managed(text, before, entries, after)
    ensures Find(text, MAPPING_END) == |before| + |MAPPING_START| + |Block(entries)|
  {
    hide Clean, Block, OccursAt, Contains, MAPPING_START, MAPPING_END;
    var block := Block(entries);
    var head, rest := before + MAPPING_START + block, block + MAPPING_END + after;
    assert text == head + MAPPING_END + after;
    assert text == before + MAPPING_START + rest;
    OccursBetween(head, MAPPING_END, after);
    OccursBetween(before, MAPPING_START, rest);
    forall j | 0 <= j < |head|
      ensures !OccursAt(text, MAPPING_END, j)
    {
      if j < |before| {
        NoEndBefore(before, rest, j);
      } else if j == |before| {
        MarkersDiffer(text, j);
      } else {
        InsideBlock(text, before, entries, after, j);
        NotAtOther(text, j);
      }
    }
    FindIs(text, MAPPING_END, |head|);
  }

  lemma NoEndBefore(before: string, rest: string, j: nat)
    requires j < |before| && !Contains(before, MAPPING_END)
    ensures !OccursAt(before + MAPPING_START + rest, MAPPING_END, j)
  {
    hide Contains, OccursAt;
    assert before + MAPPING_START + rest == before + (MAPPING_START + rest);
    NotAcross(before, MAPPING_START + rest, MAPPING_END, j);
  }

  lemma NotAtOther(text: string, j: nat)
    requires j < |text| && text[j] != '<'
    ensures !OccursAt(text, MAPPING_END, j)
  {
    if OccursAt(text, MAPPING_END, j) {
      OccursChars(text, MAPPING_END, j, 0);
    }
  }

  lemma InsideBlock(text: string, before: string, entries: map<string, Hashes>, after: string, j: nat)
    requires Managed(text, before, entries, after)
    requires |before| < j < |before| + |MAPPING_START| + |Block(entries)|
    ensures j < |text| && text[j] != '<'
  {
    hide Clean, Block, Contains;
    var block := Block(entries);
    BlockPlain(entries);
    if j < |before| + |MAPPING_START| {
      assert text[j] == MAPPING_START[j - |before|];
      MarkerChars(j - |before|);
    } else {
      var c := block[j - |before| - |MAPPING_START|];
      assert text[j] == c && c in block;
    }
  }

  /**
   Updating a managed document records the pair under its id, keeps every other entry and leaves the text
   on both sides of the block as it was.
   */
  lemma UpdateManaged(text: string, before: string, entries: map<string, Hashes>, after: string, id: string, h: Hashes)
    requires Managed(text, before, entries, after)
    requires IsTaskId(id) && CleanHash(h.0) && CleanHash(h.1)
    ensures UpdateBlock(text, id, h).Ok?
    ensures Managed(UpdateBlock(text, id, h).value, before, entries[id := h], after)
  {
    hide Block, Find, Entries, CleanHash, Contains, UpdateBlock;
    ManagedStart(text, before, entries, after);
    ManagedEnd(text, before, entries, after);
    var head, tail := before + MAPPING_START, MAPPING_END + after;
    Parts(head, Block(entries), tail);
    assert text == head + Block(entries) + tail;
    BlockRoundTrip(entries);
    UpdateAt(text, |before|, |head| + |Block(entries)|, id, h);
    var next := head + Block(entries[id := h]) + tail;
    assert next == before + MAPPING_START + Block(entries[id := h]) + MAPPING_END + after;
  }

  lemma UpdateAt(text: string, start: nat, end: nat, id: string, h: Hashes)
    requires Find(text, MAPPING_START) == start && Find(text, MAPPING_END) == end
    requires start + |MAPPING_START| <= end <= |text|
    ensures var from := start + |MAPPING_START|;
            UpdateBlock(text, id, h) == Ok(text[..from] + Block(Entries(text[from..end])[id := h]) + text[end..])
  {
    hide Block, Find, Entries;
  }

  lemma Parts(a: string, b: string, c: string)
    ensures var s := a + b + c;
            s[..|a|] == a && s[|a|..|a| + |b|] == b && s[|a| + |b|..] == c
  {
  }

  /** A document without markers gets an empty block at its end; trailing whitespace is dropped. */
  lemma EnsuredManaged(text: string)
    requires !Contains(text, MAPPING_START) && !Contains(text, MAPPING_END)
    ensures Managed(EnsureBlock(text), RStrip(text) + "\n\n", map[], "\n")
  {
    hide Clean, Contains, Find, Block;
    FindFirst(text, MAPPING_START);
    FindFirst(text, MAPPING_END);
    var base := RStrip(text);
    RStripPrefix(text);
    StillWithout(text, base, MAPPING_START);
    StillWithout(text, base, MAPPING_END);
    EmptyBlock();
    assert EnsureBlock(text) == (base + "\n\n") + MAPPING_START + Block(map[]) + MAPPING_END + "\n";
  }

  lemma ManagedEnsured(text: string, before: string, entries: map<string, Hashes>, after: string)
    requires Managed(text, before, entries, after)
    ensures EnsureBlock(text) == text
  {
    hide Managed, Find, Block;
    ManagedStart(text, before, entries, after);
    ManagedEnd(text, before, entries, after);
  }

  lemma UpdateAfterEnsure(text: string, id: string, h: Hashes)
    requires EnsureBlock(EnsureBlock(text)) == EnsureBlock(text)
    ensures UpdateBlock(EnsureBlock(text), id, h) == UpdateBlock(text, id, h)
  {
    hide EnsureBlock, Find, Block, Entries;
  }

  /** The first update of a document without markers appends the block; trailing whitespace is dropped. */
  lemma FirstUpdate(text: string, id: string, h: Hashes)
    requires !Contains(text, MAPPING_START) && !Contains(text, MAPPING_END)
    requires IsTaskId(id) && CleanHash(h.0) && CleanHash(h.1)
    ensures UpdateBlock(text, id, h).Ok?
    ensures Managed(UpdateBlock(text, id, h).value, RStrip(text) + "\n\n", map[id := h], "\n")
  {
    hide CleanHash, Contains, Managed, EnsureBlock, UpdateBlock, IsTaskId;
    var before, content := RStrip(text) + "\n\n", EnsureBlock(text);
    var none: map<string, Hashes> := map[];
    EnsuredManaged(text);
    ManagedEnsured(content, before, none, "\n");
    UpdateAfterEnsure(text, id, h);
    UpdateManaged(content, before, none, "\n", id, h);
    assert none[id := h] == map[id := h];
  }

  lemma EmptyBlock()
    ensures Block(map[]) == "\n" && Clean(map[])
  {
    var none: map<string, Hashes> := map[];
    assert none.Keys == {};
  }

  lemma StillWithout(text: string, base: string, marker: string)
    requires marker == MAPPING_START || marker == MAPPING_END
    requires !Contains(text, marker) && |base| <= |text| && base == text[..|base|]
    ensures !Contains(base + "\n\n", marker)
  {
    forall i
      ensures !OccursAt(base + "\n\n", marker, i)
    {
      NotInExtended(text, base, marker, i);
    }
  }

  lemma NotInExtended(text: string, base: string, marker: string, i: int)
    requires marker == MAPPING_START || marker == MAPPING_END
    requires !Contains(text, marker) && |base| <= |text| && base == text[..|base|]
    ensures !OccursAt(base + "\n\n", marker, i)
  {
    var s := base + "\n\n";
    if 0 <= i && i + |marker| <= |base| {
      assert text[i..i + |marker|] == s[i..i + |marker|];
      assert !OccursAt(text, marker, i);
    } else if OccursAt(s, marker, i) {
      var k := if i < |base| then |base| - i else 0;
      OccursChars(s, marker, i, k);
      MarkerChars(k);
    }
  }

  // ---------------------------------------------------------------- any number of updates

  datatype Update = Update(id: string, hashes: Hashes)

  ghost predicate CleanUpdates(updates: seq<Update>) {
    forall i :: 0 <= i < |updates| ==>
      IsTaskId(updates[i].id) && CleanHash(updates[i].hashes.0) && CleanHash(updates[i].hashes.1)
  }

  /** Apply updates in order; `None` once one fails. */
  function UpdateAll(text: string, updates: seq<Update>): Option<string>
    decreases |updates|
  {
    if updates == [] then Some(text)
    else match UpdateBlock(text, updates[0].id, updates[0].hashes)
      case Err(_) => None
      case Ok(next) => UpdateAll(next, updates[1..])
  }

  /** The map the updates describe: the last write to each id wins. */
  function Written(entries: map<string, Hashes>, updates: seq<Update>): map<string, Hashes>
    decreases |updates|
  {
    if updates == [] then entries else Written(entries[updates[0].id := updates[0].hashes], updates[1..])
  }

  lemma {:induction false} UpdatesManaged(text: string, before: string, entries: map<string, Hashes>, after: string,
                                          updates: seq<Update>)
    requires Managed(text, before, entries, after) && CleanUpdates(updates)
    ensures UpdateAll(text, updates).Some?
    ensures Managed(UpdateAll(text, updates).value, before, Written(entries, updates), after)
    decreases |updates|
  {
    hide Managed, UpdateBlock, CleanHash, IsTaskId;
    if updates != [] {
      UpdateManaged(text, before, entries, after, updates[0].id, updates[0].hashes);
      UpdatesManaged(UpdateBlock(text, updates[0].id, updates[0].hashes).value, before,
                     entries[updates[0].id := updates[0].hashes], after, updates[1..]);
    }
  }

  /**
   Starting from a document with neither marker, any nonempty sequence of updates succeeds, the block
   parses to exactly the last-write-wins map, and the text around the block stays what the first update
   made it.
   */
  lemma DocumentRefinesMap(text: string, updates: seq<Update>)
    requires !Contains(text, MAPPING_START) && !Contains(text, MAPPING_END)
    requires updates != [] && CleanUpdates(updates)
    ensures UpdateAll(text, updates).Some?
    ensures Managed(UpdateAll(text, updates).value, RStrip(text) + "\n\n", Written(map[], updates), "\n")
    ensures Entries(Block(Written(map[], updates))) == Written(map[], updates)
  {
    hide Managed, UpdateBlock, CleanHash, IsTaskId, Contains, Entries, Block;
    FirstUpdate(text, updates[0].id, updates[0].hashes);
    var first := map[][updates[0].id := updates[0].hashes];
    assert first == map[updates[0].id := updates[0].hashes];
    UpdatesManaged(UpdateBlock(text, updates[0].id, updates[0].hashes).value, RStrip(text) + "\n\n", first, "\n",
                   updates[1..]);
    ManagedClean(UpdateAll(text, updates).value, RStrip(text) + "\n\n", Written(map[], updates), "\n");
    BlockRoundTrip(Written(map[], updates));
  }

  lemma ManagedClean(text: string, before: string, entries: map<string, Hashes>, after: string)
    requires Managed(text, before, entries, after)
    ensures Clean(entries)
  {
  }

  /** Repeating an update changes nothing. */
  lemma UpdateTwice(text: string, before: string, entries: map<string, Hashes>, after: string, id: string, h: Hashes)
    requires Managed(text, before, entries, after)
    requires IsTaskId(id) && CleanHash(h.0) && CleanHash(h.1)
    ensures UpdateBlock(text, id, h).Ok?
    ensures UpdateBlock(UpdateBlock(text, id, h).value, id, h) == UpdateBlock(text, id, h)
  {
    hide UpdateBlock, CleanHash, IsTaskId, Clean, Block;
    UpdateManaged(text, before, entries, after, id, h);
    var once := UpdateBlock(text, id, h).value;
    UpdateManaged(once, before, entries[id := h], after, id, h);
    assert entries[id := h][id := h] == entries[id := h];
  }

  // ---------------------------------------------------------------- stray markers

  /** What `ensure_mapping_block` appends. */
  const APPENDED: string := "\n\n" + MAPPING_START + "\n" + MAPPING_END + "\n"

  /** A marker already in the text is found where it was. */
  lemma {:induction false} FindKept(base: string, tail: string, marker: string)
    requires marker == MAPPING_START || marker == MAPPING_END
    requires Contains(base, marker)
    ensures Find(base + tail, marker) == Find(base, marker) >= 0
  {
    FindFirst(base, marker);
    var i := Find(base, marker);
    assert (base + tail)[i..i + |marker|] == base[i..i + |marker|];
    forall j | 0 <= j < i
      ensures !OccursAt(base + tail, marker, j)
    {
      assert i + |marker| <= |base| && (base + tail)[j..j + |marker|] == base[j..j + |marker|];
      assert !OccursAt(base, marker, j);
    }
    FindIs(base + tail, marker, i);
  }

  lemma NotBeforeAppended(base: string, marker: string, j: nat)
    requires marker == MAPPING_START || marker == MAPPING_END
    requires !Contains(base, marker) && j < |base| + 2
    ensures !OccursAt(base + APPENDED, marker, j)
  {
    var s := base + APPENDED;
    assert s[|base|] == '\n' && s[|base| + 1] == '\n';
    if OccursAt(s, marker, j) {
      if j + |marker| <= |base| {
        OccursInLeft(base, APPENDED, marker, j);
        assert Contains(base, marker);
      } else {
        var k := if j <= |base| then |base| - j else 0;
        OccursChars(s, marker, j, k);
        MarkerChars(k);
      }
    }
  }

  lemma StartAppended(base: string)
    requires !Contains(base, MAPPING_START)
    ensures Find(base + APPENDED, MAPPING_START) == |base| + 2
  {
    hide Contains;
    var rest := "\n" + MAPPING_END + "\n";
    assert base + APPENDED == (base + "\n\n") + MAPPING_START + rest;
    OccursBetween(base + "\n\n", MAPPING_START, rest);
    forall j | 0 <= j < |base| + 2
      ensures !OccursAt(base + APPENDED, MAPPING_START, j)
    {
      NotBeforeAppended(base, MAPPING_START, j);
    }
    FindIs(base + APPENDED, MAPPING_START, |base| + 2);
  }

  /** Characters of the appended text between the start marker's "<" and the end marker. */
  lemma AppendedChar(head: string, start: string, tail: string, k: nat)
    requires start == MAPPING_START && 0 < k <= |start| && tail != "" && tail[0] == '\n'
    ensures var s := head + start + tail; |head| + k < |s| && s[|head| + k] != '<'
  {
    var s := head + start + tail;
    if k < |start| {
      assert s[|head| + k] == start[k];
      MarkerChars(k);
    } else {
      assert s[|head| + k] == tail[0];
    }
  }

  lemma EndAppended(base: string)
    requires !Contains(base, MAPPING_END)
    ensures Find(base + APPENDED, MAPPING_END) == |base| + 2 + |MAPPING_START| + 1
  {
    hide Contains, OccursAt;
    var s, head, tail := base + APPENDED, base + "\n\n", "\n" + MAPPING_END + "\n";
    var before := head + MAPPING_START + "\n";
    assert s == before + MAPPING_END + "\n" && s == head + MAPPING_START + tail;
    OccursBetween(before, MAPPING_END, "\n");
    forall j | 0 <= j < |before|
      ensures !OccursAt(s, MAPPING_END, j)
    {
      if j < |base| + 2 {
        NotBeforeAppended(base, MAPPING_END, j);
      } else if j == |base| + 2 {
        OccursBetween(head, MAPPING_START, tail);
        MarkersDiffer(s, j);
      } else {
        AppendedChar(head, MAPPING_START, tail, j - |head|);
        NotAtOther(s, j);
      }
    }
    FindIs(s, MAPPING_END, |before|);
  }

  /** Trailing whitespace cannot cut a marker. */
  lemma RStripKeepsMarkers(text: string, marker: string)
    requires marker == MAPPING_START || marker == MAPPING_END
    ensures Contains(RStrip(text), marker) <==> Contains(text, marker)
    ensures Contains(text, marker) ==> Find(RStrip(text), marker) == Find(text, marker)
  {
    hide RStrip, OccursAt;
    RStripPrefix(text);
    var base, tail := RStrip(text), text[|RStrip(text)|..];
    assert text == base + tail;
    FindFirst(text, marker);
    if Contains(text, marker) {
      var i := Find(text, marker);
      EndsBeforeSpace(text, |base|, marker, i);
      OccursInLeft(base, tail, marker, i);
      FindKept(base, tail, marker);
    }
    if i :| OccursAt(base, marker, i) {
      OccursLonger(base, tail, marker, i);
    }
  }

  /** A marker ends before the whitespace at the end of the text. */
  lemma EndsBeforeSpace(text: string, n: nat, marker: string, i: int)
    requires marker == MAPPING_START || marker == MAPPING_END
    requires OccursAt(text, marker, i) && n <= |text| && forall j :: n <= j < |text| ==> IsSpace(text[j])
    ensures i + |marker| <= n
  {
    MarkerEnds();
    OccursChars(text, marker, i, |marker| - 1);
  }

  lemma OccursLonger(a: string, b: string, p: string, i: int)
    requires OccursAt(a, p, i)
    ensures OccursAt(a + b, p, i)
  {
    assert (a + b)[i..i + |p|] == a[i..i + |p|];
  }

  lemma MarkerEnds()
    ensures !IsSpace(MAPPING_START[|MAPPING_START| - 1]) && !IsSpace(MAPPING_END[|MAPPING_END| - 1])
  {
  }

  /** Where the first markers of the ensured text are. */
  lemma EnsuredMarkers(text: string)
    ensures var content := EnsureBlock(text);
            && Find(content, MAPPING_START) >= 0 && Find(content, MAPPING_END) >= 0
            && (Find(content, MAPPING_END) < Find(content, MAPPING_START) <==>
                  Contains(text, MAPPING_END)
                  && (!Contains(text, MAPPING_START) || Find(text, MAPPING_END) < Find(text, MAPPING_START)))
  {
    hide Contains, Find, OccursAt, EnsureBlock;
    FindBound(text, MAPPING_START);
    FindBound(text, MAPPING_END);
    FindFirst(text, MAPPING_START);
    FindFirst(text, MAPPING_END);
    if Contains(text, MAPPING_START) && Contains(text, MAPPING_END) {
      EnsureKeeps(text);
    } else {
      EnsuredFinds(text);
    }
  }

  lemma EnsureKeeps(text: string)
    requires Contains(text, MAPPING_START) && Contains(text, MAPPING_END)
    ensures EnsureBlock(text) == text
  {
    hide Contains;
    FindFirst(text, MAPPING_START);
    FindFirst(text, MAPPING_END);
  }

  lemma EnsureAppends(text: string)
    requires !Contains(text, MAPPING_START) || !Contains(text, MAPPING_END)
    ensures EnsureBlock(text) == RStrip(text) + APPENDED
  {
    hide Contains, RStrip;
    FindFirst(text, MAPPING_START);
    FindFirst(text, MAPPING_END);
    var base := RStrip(text);
    assert base + APPENDED == base + "\n\n" + MAPPING_START + "\n" + MAPPING_END + "\n";
  }

  lemma EnsuredFinds(text: string)
    requires !Contains(text, MAPPING_START) || !Contains(text, MAPPING_END)
    ensures Find(EnsureBlock(text), MAPPING_START) ==
              if Contains(text, MAPPING_START) then Find(text, MAPPING_START) else |RStrip(text)| + 2
    ensures Find(EnsureBlock(text), MAPPING_END) ==
              if Contains(text, MAPPING_END) then Find(text, MAPPING_END) else |RStrip(text)| + 2 + |MAPPING_START| + 1
    ensures Contains(text, MAPPING_START) ==> Find(text, MAPPING_START) + |MAPPING_START| <= |RStrip(text)| <= |text|
    ensures Contains(text, MAPPING_END) ==> Find(text, MAPPING_END) + |MAPPING_END| <= |RStrip(text)| <= |text|
  {
    hide Contains, Find, OccursAt, EnsureBlock, RStrip;
    EnsureAppends(text);
    var base := RStrip(text);
    RStripPrefix(text);
    RStripKeepsMarkers(text, MAPPING_START);
    RStripKeepsMarkers(text, MAPPING_END);
    AppendedMarkers(base);
    FindBound(base, MAPPING_START);
    FindBound(base, MAPPING_END);
  }

  /** Where the first markers are once the empty block is appended. */
  lemma AppendedMarkers(base: string)
    ensures Find(base + APPENDED, MAPPING_START) ==
              if Contains(base, MAPPING_START) then Find(base, MAPPING_START) else |base| + 2
    ensures Find(base + APPENDED, MAPPING_END) ==
              if Contains(base, MAPPING_END) then Find(base, MAPPING_END) else |base| + 2 + |MAPPING_START| + 1
  {
    hide Contains, Find, OccursAt, FindFrom;
    if Contains(base, MAPPING_START) {
      FindKept(base, APPENDED, MAPPING_START);
    } else {
      StartAppended(base);
    }
    if Contains(base, MAPPING_END) {
      FindKept(base, APPENDED, MAPPING_END);
    } else {
      EndAppended(base);
    }
  }

  lemma FindBound(s: string, p: string)
    ensures Contains(s, p) ==> 0 <= Find(s, p) <= |s| - |p|
  {
    FindFirst(s, p);
  }

  /** An update is refused exactly when the first end marker has no start marker before it. */
  lemma UpdateRefusedIff(text: string, id: string, h: Hashes)
    ensures UpdateBlock(text, id, h).Err? <==>
            && Contains(text, MAPPING_END)
            && (!Contains(text, MAPPING_START) || Find(text, MAPPING_END) < Find(text, MAPPING_START))
  {
    hide Contains, Find, EnsureBlock, Entries, Block;
    EnsuredMarkers(text);
  }

  /**
   A start marker without an end marker makes the next update replace everything after it: of the text
   that followed, only what parses as an entry survives.
   */
  lemma StrayStartSwallows(text: string, id: string, h: Hashes)
    requires Contains(text, MAPPING_START) && !Contains(text, MAPPING_END)
    ensures var from := Find(text, MAPPING_START) + |MAPPING_START|;
            && 0 <= from <= |RStrip(text)| <= |text|
            && UpdateBlock(text, id, h) == Ok(
                 text[..from]
                 + Block(Entries(RStrip(text)[from..] + "\n\n" + MAPPING_START + "\n")[id := h])
                 + MAPPING_END + "\n")
  {
    hide Contains, Find, Entries, Block, UpdateBlock, EnsureBlock, RStrip;
    var base := RStrip(text);
    RStripPrefix(text);
    EnsuredFinds(text);
    EnsureAppends(text);
    FindBound(text, MAPPING_START);
    var start, end := Find(text, MAPPING_START), |base| + 2 + |MAPPING_START| + 1;
    var from := start + |MAPPING_START|;
    AppendedParts(base, from);
    UpdateEnsured(text, base + APPENDED, start, end, id, h);
    assert text[..from] == base[..from];
    var middle := base[from..] + "\n\n" + MAPPING_START + "\n";
    RegroupFour(text[..from], Block(Entries(middle)[id := h]), MAPPING_END, "\n");
  }

  lemma RegroupFour(a: string, b: string, c: string, d: string)
    ensures a + b + (c + d) == a + b + c + d
  {
  }

  lemma AppendedParts(base: string, from: nat)
    requires from <= |base|
    ensures var s, end := base + APPENDED, |base| + 2 + |MAPPING_START| + 1;
            && end <= |s| && s[..from] == base[..from]
            && s[from..end] == base[from..] + "\n\n" + MAPPING_START + "\n"
            && s[end..] == MAPPING_END + "\n"
  {
    AppendedPartsOf(base, from, "\n\n" + MAPPING_START + "\n", MAPPING_END + "\n");
    assert APPENDED == ("\n\n" + MAPPING_START + "\n") + (MAPPING_END + "\n");
    assert base[from..] + "\n\n" + MAPPING_START + "\n" == base[from..] + ("\n\n" + MAPPING_START + "\n");
  }

  lemma AppendedPartsOf(base: string, from: nat, middle: string, tail: string)
    requires from <= |base|
    ensures var s, end := base + (middle + tail), |base| + |middle|;
            s[..from] == base[..from] && s[from..end] == base[from..] + middle && s[end..] == tail
  {
  }

  lemma UpdateEnsured(text: string, content: string, start: nat, end: nat, id: string, h: Hashes)
    requires EnsureBlock(text) == content
    requires Find(content, MAPPING_START) == start && Find(content, MAPPING_END) == end
    requires start + |MAPPING_START| <= end <= |content|
    ensures var from := start + |MAPPING_START|;
            UpdateBlock(text, id, h) ==
                  Ok(content[..from] + Block(Entries(content[from..end])[id := h]) + content[end..])
  {
    hide Block, Find, Entries, EnsureBlock;
  }
}
