/** Decoded JSON values as Python holds them, with `str()` and truthiness. */
module Json {

  /** `Number` keeps the text Python prints for the number; `Object` keeps insertion order. */
  datatype Json =
    | Null
    | Bool(flag: bool)
    | Number(literal: string)
    | String(text: string)
    | Array(items: seq<Json>)
    | Object(fields: seq<Field>)

  datatype Field = Field(name: string, value: Json)

  /** `name in d`. */
  predicate Has(fields: seq<Field>, name: string) {
    exists i :: 0 <= i < |fields| && fields[i].name == name
  }

  lemma HasRest(fields: seq<Field>, name: string)
    requires fields != []
    ensures Has(fields, name) <==> fields[0].name == name || Has(fields[1..], name)
  {
    if Has(fields, name) {
      var i :| 0 <= i < |fields| && fields[i].name == name;
      assert i > 0 ==> fields[1..][i - 1].name == name;
    }
    if Has(fields[1..], name) {
      var i :| 0 <= i < |fields[1..]| && fields[1..][i].name == name;
      assert fields[i + 1].name == name;
    }
  }

  /** `d.get(name, fallback)`. */
  function Get(fields: seq<Field>, name: string, fallback: Json): Json {
    if fields == [] then fallback
    else if fields[0].name == name then fields[0].value
    else Get(fields[1..], name, fallback)
  }

  predicate Truthy(j: Json) {
    match j
    case Null => false
    case Bool(flag) => flag
    case Number(literal) => literal !in ["0", "0.0", "-0.0"]
    case String(text) => text != ""
    case Array(items) => items != []
    case Object(fields) => fields != []
  }

  /** `str(j)`. */
  function Str(j: Json): string {
    if j.String? then j.text else Repr(j)
  }

  /** `str(j or "")`. */
  function StrOrEmpty(j: Json): string {
    if Truthy(j) then Str(j) else ""
  }

  function Repr(j: Json): string {
    match j
    case Null => "None"
    case Bool(flag) => if flag then "True" else "False"
    case Number(literal) => literal
    case String(text) => Quoted(text)
    case Array(items) => "[" + ReprItems(items) + "]"
    case Object(fields) => "{" + ReprFields(fields) + "}"
  }

  function ReprItems(items: seq<Json>): string {
    if items == [] then ""
    else Repr(items[0]) + (if |items| == 1 then "" else ", ") + ReprItems(items[1..])
  }

  function ReprFields(fields: seq<Field>): string {
    if fields == [] then ""
    else
      var first := fields[0];
      Quoted(first.name) + ": " + Repr(first.value) + (if |fields| == 1 then "" else ", ") + ReprFields(fields[1..])
  }

  /** Python's quoted form; escapes for non-printable characters are not modelled. */
  function Quoted(text: string): string {
    var quote := if '\'' in text && '"' !in text then '"' else '\'';
    [quote] + Escaped(text, quote) + [quote]
  }

  function Escaped(text: string, quote: char): string {
    if text == "" then "" else EscapedChar(text[0], quote) + Escaped(text[1..], quote)
  }

  function EscapedChar(c: char, quote: char): (r: string)
    ensures r != ""
  {
    if c == '\\' || c == quote then ['\\', c]
    else if c == '\n' then "\\n"
    else if c == '\r' then "\\r"
    else if c == '\t' then "\\t"
    else [c]
  }

  // ---------------------------------------------------------------- reading quoted text

  /** The text an escaped text stands for. */
  function Unescaped(s: string): string {
    if |s| >= 2 && s[0] == '\\' then
      [if s[1] == 'n' then '\n' else if s[1] == 'r' then '\r' else if s[1] == 't' then '\t'
       else s[1]] + Unescaped(s[2..])
    else if s == "" then ""
    else [s[0]] + Unescaped(s[1..])
  }

  /** Where the text between quotes ends: at the first quote that is not escaped. */
  function Unquoted(s: string, quote: char): nat {
    if s == "" || s[0] == quote then 0
    else if s[0] == '\\' && |s| >= 2 then 2 + Unquoted(s[2..], quote)
    else 1 + Unquoted(s[1..], quote)
  }

  lemma UnescapedChar(c: char, quote: char, rest: string)
    requires quote == '\'' || quote == '"'
    ensures Unescaped(EscapedChar(c, quote) + rest) == [c] + Unescaped(rest)
  {
    var s := EscapedChar(c, quote) + rest;
    if |EscapedChar(c, quote)| == 2 {
      assert s[2..] == rest;
    } else {
      assert s[1..] == rest && s[0] == c;
    }
  }

  lemma UnquotedChar(c: char, quote: char, rest: string)
    requires quote == '\'' || quote == '"'
    ensures Unquoted(EscapedChar(c, quote) + rest, quote) == |EscapedChar(c, quote)| + Unquoted(rest, quote)
  {
    var s := EscapedChar(c, quote) + rest;
    if |EscapedChar(c, quote)| == 2 {
      assert s[2..] == rest;
    } else {
      assert s[1..] == rest && s[0] == c;
    }
  }

  lemma {:induction false} EscapedReadsBack(text: string, quote: char, rest: string)
    requires quote == '\'' || quote == '"'
    ensures Unescaped(Escaped(text, quote)) == text
    ensures Unquoted(Escaped(text, quote) + [quote] + rest, quote) == |Escaped(text, quote)|
  {
    hide Unescaped, Unquoted, EscapedChar;
    var end := [quote] + rest;
    if text == "" {
      NothingEscaped(quote, rest);
      assert "" + [quote] + rest == end;
    } else {
      var first, tail := EscapedChar(text[0], quote), Escaped(text[1..], quote);
      EscapedReadsBack(text[1..], quote, rest);
      UnescapedChar(text[0], quote, tail);
      UnquotedChar(text[0], quote, tail + end);
      assert text == [text[0]] + text[1..];
      assert first + tail + [quote] + rest == first + (tail + end) && tail + [quote] + rest == tail + end;
    }
  }

  lemma NothingEscaped(quote: char, rest: string)
    ensures Unescaped("") == "" && Unquoted([quote] + rest, quote) == 0
  {
  }

  /** A quoted text ends where it should and reads back as the text. */
  lemma QuotedReadsBack(text: string, rest: string)
    ensures var s := Quoted(text) + rest;
            && (s[0] == '\'' || s[0] == '"')
            && var n := Unquoted(s[1..], s[0]);
               n < |s| - 1 && Unescaped(s[1..1 + n]) == text && s[1 + n] == s[0] && s[2 + n..] == rest
  {
    hide Unescaped, Unquoted, Escaped;
    var quote := if '\'' in text && '"' !in text then '"' else '\'';
    var inner := Escaped(text, quote);
    EscapedReadsBack(text, quote, rest);
    var s := Quoted(text) + rest;
    assert s == [quote] + inner + [quote] + rest;
    assert s[1..] == inner + [quote] + rest;
    assert s[1..1 + |inner|] == inner && s[2 + |inner|..] == rest;
  }

  /** How Python prints values without parts. */
  lemma StrPlain()
    ensures Str(Null) == "None" && Str(Bool(true)) == "True" && Str(Bool(false)) == "False"
    ensures Str(Array([])) == "[]" && Str(Object([])) == "{}"
  {
    assert ReprItems([]) == "" && ReprFields([]) == "";
  }

  /** And those of two parts, or of one named part. */
  lemma StrParts(x: Json, y: Json, name: string)
    ensures Str(Array([x, y])) == "[" + (Repr(x) + ", " + Repr(y)) + "]"
    ensures Str(Object([Field(name, x)])) == "{" + (Quoted(name) + ": " + Repr(x)) + "}"
  {
    hide Quoted, ReprItems, ReprFields;
    OneItem(y);
    OneField(name, x);
    TwoItems(x, y);
  }

  lemma TwoItems(x: Json, y: Json)
    ensures ReprItems([x, y]) == Repr(x) + ", " + ReprItems([y])
  {
    hide Repr;
    assert [x, y][1..] == [y];
  }

  lemma OneItem(y: Json)
    ensures ReprItems([y]) == Repr(y)
  {
    hide Repr;
    assert [y][1..] == [];
    assert ReprItems([]) == "";
  }

  lemma OneField(name: string, x: Json)
    ensures ReprFields([Field(name, x)]) == Quoted(name) + ": " + Repr(x)
  {
    hide Quoted, Repr;
    assert [Field(name, x)][1..] == [];
    assert ReprFields([]) == "";
  }
}
