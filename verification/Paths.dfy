/** Repository-relative task file paths (codex_runner/runner.py, normalize_repo_relative_path). */
module Paths {
  import opened Wrappers
  import opened Collections
  import opened Text

  datatype PathError = EmptyPath | AbsolutePath | ParentPath | NoComponents

  /** `s.split(sep)` for a one-character separator. */
  function Split(s: string, sep: char): (parts: seq<string>)
    ensures |parts| >= 1
  {
    if s == "" then [""]
    else
      var rest := Split(s[1..], sep);
      if s[0] == sep then [""] + rest
      else [[s[0]] + rest[0]] + rest[1..]
  }

  /** `sep.join(parts)`. */
  function Join(parts: seq<string>, sep: char): string {
    if parts == [] then ""
    else if |parts| == 1 then parts[0]
    else parts[0] + [sep] + Join(parts[1..], sep)
  }

  lemma {:induction false} SplitPrefix(head: string, tail: string, sep: char)
    requires sep !in head
    ensures Split(head + [sep] + tail, sep) == [head] + Split(tail, sep)
  {
    var s := head + [sep] + tail;
    if head == "" {
      assert s == [sep] + tail && s[1..] == tail;
    } else {
      SplitPrefix(head[1..], tail, sep);
      assert s[1..] == head[1..] + [sep] + tail;
      assert [head[0]] + head[1..] == head;
    }
  }

  lemma {:induction false} SplitWhole(s: string, sep: char)
    requires sep !in s
    ensures Split(s, sep) == [s]
  {
    if s != "" {
      SplitWhole(s[1..], sep);
      assert [s[0]] + s[1..] == s;
    }
  }

  lemma {:induction false} SplitJoin(parts: seq<string>, sep: char)
    requires parts != []
    requires forall p :: p in parts ==> sep !in p
    ensures Split(Join(parts, sep), sep) == parts
  {
    if |parts| == 1 {
      SplitWhole(parts[0], sep);
    } else {
      SplitJoin(parts[1..], sep);
      SplitPrefix(parts[0], Join(parts[1..], sep), sep);
    }
  }

  lemma {:induction false} SplitParts(s: string, sep: char)
    ensures forall p :: p in Split(s, sep) ==> sep !in p && forall c :: c in p ==> c in s
  {
    if s != "" {
      SplitParts(s[1..], sep);
      var rest := Split(s[1..], sep);
      forall p | p in Split(s, sep)
        ensures sep !in p && forall c :: c in p ==> c in s
      {
        if s[0] != sep && p == [s[0]] + rest[0] {
          assert rest[0] in rest;
        } else if p != "" {
          assert p in rest;
        }
      }
    }
  }

  /** The components `PurePosixPath` keeps: neither empty nor ".". */
  function Components(parts: seq<string>): (kept: seq<string>)
    ensures forall p :: p in kept <==> p in parts && p != "" && p != "."
  {
    if parts == [] then []
    else if parts[0] == "" || parts[0] == "." then Components(parts[1..])
    else [parts[0]] + Components(parts[1..])
  }

  lemma {:induction false} ComponentsKeepAll(parts: seq<string>)
    requires forall p :: p in parts ==> p != "" && p != "."
    ensures Components(parts) == parts
  {
    if parts != [] {
      assert parts[0] in parts;
      assert forall p :: p in parts[1..] ==> p in parts;
      ComponentsKeepAll(parts[1..]);
    }
  }

  lemma {:induction false} ComponentsShrink(parts: seq<string>, sep: char)
    ensures |Join(Components(parts), sep)| <= |Join(parts, sep)|
    ensures Components(parts) == [] || |parts| >= 1
  {
    if parts != [] {
      ComponentsShrink(parts[1..], sep);
    }
  }

  lemma {:induction false} JoinSplit(s: string, sep: char)
    ensures Join(Split(s, sep), sep) == s
  {
    if s != "" {
      JoinSplit(s[1..], sep);
      var rest := Split(s[1..], sep);
      if s[0] == sep {
        assert ([""] + rest)[1..] == rest;
      } else {
        var whole := [[s[0]] + rest[0]] + rest[1..];
        assert whole[1..] == rest[1..];
        if |rest| == 1 {
        } else {
          assert Join(whole, sep) == [s[0]] + rest[0] + [sep] + Join(rest[1..], sep);
        }
      }
    }
  }

  function ForwardSlashes(s: string): (r: string)
    ensures '\\' !in s ==> r == s
    ensures '\\' !in r
  {
    if s == "" then "" else [if s[0] == '\\' then '/' else s[0]] + ForwardSlashes(s[1..])
  }

  predicate HasDrive(s: string) {
    |s| >= 2 && IsAsciiLetter(s[0]) && s[1] == ':'
  }

  function NormalizePath(raw: string): Result<string, PathError> {
    var candidate := Strip(ForwardSlashes(raw));
    if candidate == "" then Err(EmptyPath)
    else if candidate[0] == '/' then Err(AbsolutePath)
    else if HasDrive(candidate) then Err(AbsolutePath)
    else
      var kept := Components(Split(candidate, '/'));
      if ".." in kept then Err(ParentPath)
      else if kept == [] then Err(NoComponents)
      else Ok(Join(kept, '/'))
  }

  /** A path the runner may compare with changed files: relative, with plain components only. */
  predicate PlainRelative(path: string) {
    && path != ""
    && '\\' !in path
    && forall part :: part in Split(path, '/') ==> part != "" && part != "." && part != ".."
  }

  /** Accepted paths are plain relative paths; in particular never absolute and never through "..". */
  lemma NormalizedIsPlain(raw: string)
    ensures NormalizePath(raw).Ok? ==> PlainRelative(NormalizePath(raw).value)
  {
    if NormalizePath(raw).Ok? {
      var candidate := Strip(ForwardSlashes(raw));
      var kept := Components(Split(candidate, '/'));
      SplitParts(candidate, '/');
      SplitJoin(kept, '/');
      var path := Join(kept, '/');
      assert kept[0] in kept;
      JoinCharacters(kept, '/');
      StripIsTrimmed(ForwardSlashes(raw));
    }
  }

  lemma {:induction false} JoinCharacters(parts: seq<string>, sep: char)
    ensures forall c :: c in Join(parts, sep) ==> c == sep || exists p :: p in parts && c in p
    ensures parts != [] && parts[0] != "" ==> Join(parts, sep) != ""
  {
    if |parts| > 1 {
      JoinCharacters(parts[1..], sep);
      forall c | c in Join(parts, sep)
        ensures c == sep || exists p :: p in parts && c in p
      {
        if c in parts[0] {
          assert parts[0] in parts;
        } else if c != sep {
          assert c in Join(parts[1..], sep);
          var p :| p in parts[1..] && c in p;
          assert p in parts;
        }
      }
    } else if |parts| == 1 {
      assert parts[0] in parts;
    }
  }

  /**
   Normalising an accepted path again gives it back exactly when it is trimmed and does not look
   like a drive. It is not idempotent on every input: see `NormalizationCanMove`.
   */
  lemma NormalizeStableIff(raw: string)
    requires NormalizePath(raw).Ok?
    ensures var path := NormalizePath(raw).value;
            NormalizePath(path) == Ok(path) <==> Trimmed(path) && !HasDrive(path)
  {
    var path := NormalizePath(raw).value;
    NormalizedIsPlain(raw);
    assert ForwardSlashes(path) == path;
    if Trimmed(path) {
      StripTrimmed(path);
      ComponentsKeepAll(Split(path, '/'));
      JoinSplit(path, '/');
      assert path[0] != '/' by {
        assert Split(path, '/')[0] in Split(path, '/');
      }
    } else {
      var inner := Strip(path);
      StripShortens(path);
      JoinSplit(inner, '/');
      ComponentsShrink(Split(inner, '/'), '/');
    }
  }

  predicate PlainName(name: string) {
    name != "" && name != "." && name != ".." && '/' !in name && '\\' !in name && !IsSpace(name[|name| - 1])
  }

  /** A family of accepted inputs whose normal form is normalised to something else. */
  lemma NormalizationCanMove(name: string)
    requires PlainName(name) && Trimmed(name) && !HasDrive(name)
    ensures NormalizePath("./ " + name) == Ok(" " + name)
    ensures NormalizePath(" " + name) == Ok(name)
  {
    var spaced := " " + name;
    assert "./" + spaced == "./ " + name;
    assert |spaced| >= 2 && spaced[0] == ' ' && spaced[|spaced| - 1] == name[|name| - 1];
    DotPrefixDropped(spaced);
    SpacePrefixDropped(name);
  }

  lemma SpacePrefixDropped(name: string)
    requires PlainName(name) && Trimmed(name) && !HasDrive(name)
    ensures NormalizePath(" " + name) == Ok(name)
  {
    var spaced := " " + name;
    assert ForwardSlashes(spaced) == spaced;
    assert LStrip(spaced) == name by {
      assert spaced[1..] == name;
    }
    SplitWhole(name, '/');
    ComponentsKeepAll([name]);
  }

  /** A family of accepted inputs whose normal form is rejected. */
  lemma NormalizationCanReject(name: string)
    requires PlainName(name) && Trimmed(name) && HasDrive(name)
    ensures NormalizePath("./" + name) == Ok(name)
    ensures NormalizePath(name) == Err(AbsolutePath)
  {
    DotPrefixDropped(name);
    assert ForwardSlashes(name) == name;
    StripTrimmed(name);
  }

  lemma DotPrefixDropped(name: string)
    requires PlainName(name)
    ensures NormalizePath("./" + name) == Ok(name)
  {
    var raw := "./" + name;
    assert ForwardSlashes(raw) == raw;
    StripTrimmed(raw);
    assert raw == "." + ['/'] + name;
    SplitPrefix(".", name, '/');
    SplitWhole(name, '/');
    assert [".", name][1..] == [name];
    ComponentsKeepAll([name]);
  }

  // ---------------------------------------------------------------- what a normal form keeps

  predicate IsName(part: string) { part != "" && part != "." }

  ghost predicate NameAt(parts: seq<string>, i: int, name: string) {
    0 <= i < |parts| && parts[i] == name && IsName(name)
  }

  /** The names are the parts that are names, in their order; `at` gives their positions. */
  ghost predicate NamesAt(parts: seq<string>, names: seq<string>, at: seq<nat>) {
    && |at| == |names| && Increasing(at)
    && (forall k :: 0 <= k < |at| ==> NameAt(parts, at[k], names[k]))
    && (forall i, name :: NameAt(parts, i, name) ==> i in at)
  }

  lemma NameLater(parts: seq<string>, i: int, name: string)
    requires parts != []
    ensures NameAt(parts[1..], i - 1, name) <==> i > 0 && NameAt(parts, i, name)
  {
  }

  lemma {:induction false} ComponentsAt(parts: seq<string>) returns (at: seq<nat>)
    ensures NamesAt(parts, Components(parts), at)
  {
    at := [];
    if parts != [] {
      var rest := ComponentsAt(parts[1..]);
      var names := Components(parts[1..]);
      at := Later(rest);
      LaterIncreasing(rest);
      if IsName(parts[0]) {
        at := [0] + at;
      }
      var skipped := |at| - |rest|;
      forall k | 0 <= k < |at|
        ensures NameAt(parts, at[k], Components(parts)[k])
      {
        if k >= skipped {
          NameLater(parts, at[k], names[k - skipped]);
        }
      }
      forall i, name | NameAt(parts, i, name)
        ensures i in at
      {
        if i > 0 {
          NameLater(parts, i, name);
          var k :| 0 <= k < |rest| && rest[k] == i - 1;
          assert at[k + skipped] == i;
        }
      }
    }
  }

  /** The components of a normal form are the names among the parts of the path it comes from, in their order. */
  lemma NormalizedKeepsNames(raw: string) returns (at: seq<nat>)
    requires NormalizePath(raw).Ok?
    ensures NamesAt(Split(Strip(ForwardSlashes(raw)), '/'), Split(NormalizePath(raw).value, '/'), at)
  {
    hide Strip, ForwardSlashes, Split, Join, HasDrive, NamesAt;
    var candidate := Strip(ForwardSlashes(raw));
    at := ComponentsAt(Split(candidate, '/'));
    SplitParts(candidate, '/');
    SplitJoin(Components(Split(candidate, '/')), '/');
  }

  /** A path is accepted exactly when it is relative, has a name in it and never goes through "..". */
  lemma NormalizeAcceptsIff(raw: string)
    ensures var path := Strip(ForwardSlashes(raw));
            NormalizePath(raw).Ok? <==>
              && !(path != "" && path[0] == '/') && !(|path| >= 2 && IsAsciiLetter(path[0]) && path[1] == ':')
              && ".." !in Split(path, '/') && exists name :: name in Split(path, '/') && name != "" && name != "."
  {
    hide Strip, ForwardSlashes, Components;
    var path := Strip(ForwardSlashes(raw));
    var kept := Components(Split(path, '/'));
    if name :| name in Split(path, '/') && IsName(name) {
      assert name in kept;
    }
    if kept != [] {
      assert kept[0] in kept;
    }
  }

  lemma {:induction false} SlashesTurned(s: string)
    ensures |ForwardSlashes(s)| == |s|
    ensures forall i :: 0 <= i < |s| ==> ForwardSlashes(s)[i] == if s[i] == '\\' then '/' else s[i]
  {
    if s != "" {
      SlashesTurned(s[1..]);
    }
  }
}
