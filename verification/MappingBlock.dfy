/** The marked task map inside a campaign document (codex_runner/runner.py, update_mapping_block). */
module MappingBlock {
  import opened Wrappers
  import opened Text
  import opened Search

  const MAPPING_START: string := "<!-- RUNNER_TASK_MAP -->"
  const MAPPING_END: string := "<!-- /RUNNER_TASK_MAP -->"

  type Hashes = (string, string)

  // ---------------------------------------------------------------- parsing

  /** Characters `str.splitlines` breaks at. "\r\n" counts twice here, which only adds a blank line. */
  predicate IsLineBreak(c: char) {
    var n := c as int;
    0x0A <= n <= 0x0D || 0x1C <= n <= 0x1E || n == 0x85 || n == 0x2028 || n == 0x2029
  }

  function Lines(s: string): (r: seq<string>)
    ensures |r| >= 1
  {
    if s == "" then [""]
    else
      var rest := Lines(s[1..]);
      if IsLineBreak(s[0]) then [""] + rest else [[s[0]] + rest[0]] + rest[1..]
  }

  /** Index of the first comma, or the length. */
  function CommaIndex(s: string): (i: nat)
    ensures i <= |s|
  {
    if s == "" || s[0] == ',' then 0 else 1 + CommaIndex(s[1..])
  }

  /** `([^,]+),\s*([^\]]+)\]` against the whole of `s`, with both groups stripped. */
  function MatchPair(s: string): Option<Hashes> {
    var comma := CommaIndex(s);
    var first, rest := s[..comma], s[comma..];
    if first == "" || |rest| < 3 || rest[|rest| - 1] != ']' then None
    else
      var second := rest[1..|rest| - 1];
      if ']' in second then None else Some((Strip(first), Strip(second)))
  }

  /** `\s*->\s*\[` and then the pair. */
  function MatchHashes(s: string): Option<Hashes> {
    var arrow := LStrip(s);
    if |arrow| < 2 || arrow[..2] != "->" then None
    else
      var open := LStrip(arrow[2..]);
      if open == "" || open[0] != '[' then None else MatchPair(open[1..])
  }

  /** The greedy key of the pattern, shortened until the rest matches. */
  function MatchFrom(line: string, n: nat): Option<(string, Hashes)>
    requires n <= |line|
  {
    if n == 0 then None
    else
      var hashes := MatchHashes(line[n..]);
      if hashes.Some? then Some((line[..n], hashes.value)) else MatchFrom(line, n - 1)
  }

  /** The entry on one line, if the stripped line has the form of one. */
  function ParseLine(line: string): Option<(string, Hashes)> {
    var stripped := Strip(line);
    MatchFrom(stripped, WordLength(stripped))
  }

  function AddLine(entries: map<string, Hashes>, line: string): map<string, Hashes> {
    var entry := ParseLine(line);
    if entry.None? then entries else entries[entry.value.0 := entry.value.1]
  }

  function AddLines(entries: map<string, Hashes>, lines: seq<string>): map<string, Hashes>
    decreases |lines|
  {
    if lines == [] then entries else AddLines(AddLine(entries, lines[0]), lines[1..])
  }

  /** `parse_mapping_entries`. */
  function Entries(block: string): map<string, Hashes> {
    AddLines(map[], Lines(block))
  }

  // ---------------------------------------------------------------- printing

  function EntryLine(key: string, hashes: Hashes): string {
    key + " -> [" + hashes.0 + ", " + hashes.1 + "]"
  }

  /** One line per entry, each ended by a newline, after a leading newline. */
  function PrintKeys(entries: map<string, Hashes>, keys: seq<string>): string
    requires forall i :: 0 <= i < |keys| ==> keys[i] in entries
  {
    if keys == [] then "" else EntryLine(keys[0], entries[keys[0]]) + "\n" + PrintKeys(entries, keys[1..])
  }

  function Block(entries: map<string, Hashes>): string {
    var keys := SortedKeys(entries.Keys);
    assert forall i :: 0 <= i < |keys| ==> keys[i] in keys;
    "\n" + PrintKeys(entries, keys)
  }

  // ---------------------------------------------------------------- updating the document

  /** `ensure_mapping_block`. */
  function EnsureBlock(text: string): string {
    if Find(text, MAPPING_START) != -1 && Find(text, MAPPING_END) != -1 then text
    else RStrip(text) + "\n\n" + MAPPING_START + "\n" + MAPPING_END + "\n"
  }

  /** Neither marker has a "<" after its first character, or a newline anywhere. */
  lemma MarkerChars(k: nat)
    ensures 0 < k < |MAPPING_START| ==> MAPPING_START[k] != '<'
    ensures 0 < k < |MAPPING_END| ==> MAPPING_END[k] != '<'
    ensures k < |MAPPING_START| ==> MAPPING_START[k] != '\n'
    ensures k < |MAPPING_END| ==> MAPPING_END[k] != '\n'
  {
  }

  lemma MarkersDiffer(s: string, i: int)
    ensures !(OccursAt(s, MAPPING_START, i) && OccursAt(s, MAPPING_END, i))
  {
    if OccursAt(s, MAPPING_START, i) && OccursAt(s, MAPPING_END, i) {
      OccursChars(s, MAPPING_START, i, 5);
      OccursChars(s, MAPPING_END, i, 5);
    }
  }

  /** The markers cannot overlap, so the block between them is well defined. */
  lemma MarkersApart(s: string)
    requires 0 <= Find(s, MAPPING_START) <= Find(s, MAPPING_END)
    ensures Find(s, MAPPING_START) + |MAPPING_START| <= Find(s, MAPPING_END) <= |s|
  {
    var start, end := Find(s, MAPPING_START), Find(s, MAPPING_END);
    FindFirst(s, MAPPING_START);
    FindFirst(s, MAPPING_END);
    MarkersDiffer(s, start);
    if end < start + |MAPPING_START| {
      OccursChars(s, MAPPING_START, start, end - start);
      OccursChars(s, MAPPING_END, end, 0);
      MarkerChars(end - start);
    }
  }

  datatype BlockError = InvalidMappingBlock

  /** `update_mapping_block` on the document's text; an absent document is the empty text. */
  function UpdateBlock(text: string, id: string, hashes: Hashes): Result<string, BlockError> {
    var content := EnsureBlock(text);
    var start, end := Find(content, MAPPING_START), Find(content, MAPPING_END);
    if start == -1 || end == -1 || end < start then Err(InvalidMappingBlock)
    else
      MarkersApart(content);
      var blockStart := start + |MAPPING_START|;
      var entries := Entries(content[blockStart..end])[id := hashes];
      Ok(content[..blockStart] + Block(entries) + content[end..])
  }

  class CampaignDocument {
    var text: string

    constructor (content: string)
      ensures text == content
    {
      text := content;
    }

    /** The loop over the block's lines; later lines override earlier ones. */
    method ParseEntries(block: string) returns (entries: map<string, Hashes>)
      ensures entries == Entries(block)
    {
      hide ParseLine, Lines;
      entries := map[];
      var lines := Lines(block);
      for i := 0 to |lines|
        invariant AddLines(entries, lines[i..]) == Entries(block)
      {
        assert lines[i..][0] == lines[i] && lines[i..][1..] == lines[i + 1..];
        var entry := ParseLine(lines[i]);
        if entry.Some? {
          entries := entries[entry.value.0 := entry.value.1];
        }
      }
    }

    /** On the error the document is left as it was. */
    method UpdateMapping(id: string, implementation: string, receipt: string) returns (r: Result<(), BlockError>)
      modifies this
      ensures match UpdateBlock(old(text), id, (implementation, receipt))
              case Err(e) => r == Err(e) && text == old(text)
              case Ok(updated) => r == Ok(()) && text == updated
    {
      hide Entries, Block, EnsureBlock, Find;
      var content := EnsureBlock(text);
      var start, end := Find(content, MAPPING_START), Find(content, MAPPING_END);
      if start == -1 || end == -1 || end < start {
        return Err(InvalidMappingBlock);
      }
      var blockStart := start + |MAPPING_START|;
      MarkersApart(content);
      var entries := ParseEntries(content[blockStart..end]);
      entries := entries[id := (implementation, receipt)];
      text := content[..blockStart] + Block(entries) + content[end..];
      return Ok(());
    }
  }
}
