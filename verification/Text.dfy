/**
 Python string operations the modelled files rely on, on sequences of code points.
 Case folding is modelled for ASCII letters only.
 */
module Text {

  // ---------------------------------------------------------------- characters

  /** `str.isspace`, `str.strip` and the regular-expression class `\s`. */
  predicate IsSpace(c: char) {
    var n := c as int;
    || 0x09 <= n <= 0x0D || 0x1C <= n <= 0x20 || n == 0x85 || n == 0xA0 || n == 0x1680
    || 0x2000 <= n <= 0x200A || n == 0x2028 || n == 0x2029 || n == 0x202F || n == 0x205F || n == 0x3000
  }

  predicate IsDigit(c: char) { '0' <= c <= '9' }

  predicate IsLower(c: char) { 'a' <= c <= 'z' }

  predicate IsUpper(c: char) { 'A' <= c <= 'Z' }

  predicate IsAsciiLetter(c: char) { IsLower(c) || IsUpper(c) }

  function ToUpperChar(c: char): char {
    if IsLower(c) then (c as int - 32) as char else c
  }

  function ToLowerChar(c: char): char {
    if IsUpper(c) then (c as int + 32) as char else c
  }

  function ToUpper(s: string): (r: string)
    ensures |r| == |s|
  {
    if s == "" then "" else [ToUpperChar(s[0])] + ToUpper(s[1..])
  }

  function ToLower(s: string): (r: string)
    ensures |r| == |s|
  {
    if s == "" then "" else [ToLowerChar(s[0])] + ToLower(s[1..])
  }

  // ---------------------------------------------------------------- strip

  function LStrip(s: string): string {
    if s != "" && IsSpace(s[0]) then LStrip(s[1..]) else s
  }

  function RStrip(s: string): string {
    if s != "" && IsSpace(s[|s| - 1]) then RStrip(s[..|s| - 1]) else s
  }

  function Strip(s: string): string {
    RStrip(LStrip(s))
  }

  /** No whitespace at either end. */
  predicate Trimmed(s: string) {
    s == "" || (!IsSpace(s[0]) && !IsSpace(s[|s| - 1]))
  }

  lemma {:induction false} LStripSuffix(s: string)
    ensures var r := LStrip(s);
            && (r == "" || !IsSpace(r[0])) && |r| <= |s| && r == s[|s| - |r|..]
            && forall i :: 0 <= i < |s| - |r| ==> IsSpace(s[i])
  {
    if s != "" && IsSpace(s[0]) {
      LStripSuffix(s[1..]);
    }
  }

  lemma {:induction false} RStripPrefix(s: string)
    ensures var r := RStrip(s);
            && (r == "" || !IsSpace(r[|r| - 1])) && |r| <= |s| && r == s[..|r|]
            && forall i :: |r| <= i < |s| ==> IsSpace(s[i])
  {
    if s != "" && IsSpace(s[|s| - 1]) {
      RStripPrefix(s[..|s| - 1]);
    }
  }

  lemma StripIsTrimmed(s: string)
    ensures Trimmed(Strip(s)) && |Strip(s)| <= |s|
    ensures forall c :: c in Strip(s) ==> c in s
  {
    LStripSuffix(s);
    RStripPrefix(LStrip(s));
  }

  lemma StripTrimmed(s: string)
    requires Trimmed(s)
    ensures Strip(s) == s
  {
  }

  lemma StripShortens(s: string)
    requires !Trimmed(s)
    ensures |Strip(s)| < |s|
  {
    LStripSuffix(s);
    RStripPrefix(LStrip(s));
  }

  predicate Blank(s: string) { forall c :: c in s ==> IsSpace(c) }

  lemma {:induction false} LStripBlank(a: string, s: string)
    requires Blank(a)
    ensures LStrip(a + s) == LStrip(s)
  {
    if a == "" {
      assert a + s == s;
    } else {
      assert a[0] in a && forall c :: c in a[1..] ==> c in a;
      LStripBlank(a[1..], s);
      assert (a + s)[1..] == a[1..] + s;
    }
  }

  lemma {:induction false} RStripBlank(s: string, b: string)
    requires Blank(b)
    ensures RStrip(s + b) == RStrip(s)
  {
    if b == "" {
      assert s + b == s;
    } else {
      var n := |b| - 1;
      assert b[n] in b && forall c :: c in b[..n] ==> c in b;
      RStripBlank(s, b[..n]);
      assert (s + b)[..|s + b| - 1] == s + b[..n];
    }
  }

  /** The text before `t` and the text after it, both blank. */
  ghost predicate Surrounds(s: string, t: string, a: string, b: string) { s == a + t + b && Blank(a) && Blank(b) }

  lemma StripSurrounds(s: string) returns (a: string, b: string)
    ensures Trimmed(Strip(s)) && Surrounds(s, Strip(s), a, b)
  {
    StripIsTrimmed(s);
    LStripSuffix(s);
    var u, t := LStrip(s), Strip(s);
    RStripPrefix(u);
    a, b := s[..|s| - |u|], u[|t|..];
    assert u == t + b && s == a + u;
  }

  lemma SurroundsStrip(s: string, t: string, a: string, b: string)
    requires Trimmed(t) && Surrounds(s, t, a, b)
    ensures Strip(s) == t
  {
    hide IsSpace;
    assert s == a + (t + b);
    LStripBlank(a, t + b);
    if t == "" {
      assert t + b == b && b + "" == b;
      LStripBlank(b, "");
    } else {
      RStripBlank(t, b);
      StripTrimmed(t);
      assert LStrip(t + b) == t + b && LStrip(t) == t;
    }
  }

  /** The stripped text is the part with no whitespace at either end that has nothing but whitespace around it. */
  lemma StripIff(s: string, t: string)
    ensures Strip(s) == t <==> Trimmed(t) && exists a, b :: Surrounds(s, t, a, b)
  {
    hide Strip, Trimmed, Surrounds;
    if Strip(s) == t {
      var a, b := StripSurrounds(s);
    }
    if a, b :| Trimmed(t) && Surrounds(s, t, a, b) {
      SurroundsStrip(s, t, a, b);
    }
  }

  /** Length of the longest prefix without whitespace. */
  function WordLength(s: string): (n: nat)
    ensures n <= |s|
  {
    if s == "" || IsSpace(s[0]) then 0 else 1 + WordLength(s[1..])
  }

  // ---------------------------------------------------------------- order

  /** `a < b` on Python strings: code point by code point. */
  predicate Less(a: string, b: string) {
    if b == "" then false
    else if a == "" then true
    else if a[0] != b[0] then a[0] < b[0]
    else Less(a[1..], b[1..])
  }

  /** `a` comes first: it ends where `b` goes on, or has the smaller character where they first differ. */
  ghost predicate Precedes(a: string, b: string) {
    exists k :: 0 <= k <= |a| && PrecedesAt(a, b, k)
  }

  ghost predicate PrecedesAt(a: string, b: string, k: int)
    requires 0 <= k <= |a|
  {
    k < |b| && a[..k] == b[..k] && (k < |a| ==> a[k] < b[k])
  }

  lemma SameHead(a: string, b: string, k: nat)
    requires k <= |a| && k <= |b| && a[..k] == b[..k]
    ensures k > 0 ==> a[0] == b[0]
  {
    assert k > 0 ==> a[..k][0] == b[..k][0];
  }

  lemma {:induction false} LessIsPrecedes(a: string, b: string)
    ensures Less(a, b) <==> Precedes(a, b)
  {
    if a == "" || b == "" || a[0] != b[0] {
      if b != "" && (a == "" || a[0] < b[0]) {
        assert PrecedesAt(a, b, 0);
      }
      if k :| 0 <= k <= |a| && PrecedesAt(a, b, k) {
        SameHead(a, b, k);
      }
    } else {
      LessIsPrecedes(a[1..], b[1..]);
      if k :| 0 <= k <= |a[1..]| && PrecedesAt(a[1..], b[1..], k) {
        assert a[..k + 1] == [a[0]] + a[1..][..k] && b[..k + 1] == [b[0]] + b[1..][..k];
        assert PrecedesAt(a, b, k + 1);
      }
      if k :| 0 <= k <= |a| && PrecedesAt(a, b, k) {
        assert k > 0;
        assert a[1..][..k - 1] == a[..k][1..] && b[1..][..k - 1] == b[..k][1..];
        assert PrecedesAt(a[1..], b[1..], k - 1);
      }
    }
  }

  predicate AtMost(a: string, b: string) { a == b || Less(a, b) }

  lemma {:induction false} LessTotal(a: string, b: string)
    ensures Less(a, b) || a == b || Less(b, a)
  {
    if a != "" && b != "" && a[0] == b[0] {
      LessTotal(a[1..], b[1..]);
      if a[1..] == b[1..] {
        assert a == [a[0]] + a[1..] && b == [b[0]] + b[1..];
      }
    }
  }

  lemma {:induction false} LessTransitive(a: string, b: string, c: string)
    requires Less(a, b) && Less(b, c)
    ensures Less(a, c)
  {
    if a != "" && a[0] == b[0] && b[0] == c[0] {
      LessTransitive(a[1..], b[1..], c[1..]);
    }
  }

  lemma {:induction false} LessIrreflexive(a: string)
    ensures !Less(a, a)
  {
    if a != "" {
      LessIrreflexive(a[1..]);
    }
  }

  lemma LessAsymmetric(a: string, b: string)
    requires Less(a, b)
    ensures !Less(b, a) && a != b
  {
    if Less(b, a) {
      LessTransitive(a, b, a);
    }
    LessIrreflexive(a);
  }

  // ---------------------------------------------------------------- sorting a set of strings

  predicate Sorted(s: seq<string>) {
    forall i, j :: 0 <= i < j < |s| ==> Less(s[i], s[j])
  }

  predicate IsLeast(least: string, keys: set<string>) {
    least in keys && forall k :: k in keys ==> AtMost(least, k)
  }

  lemma LeastExists(keys: set<string>)
    requires keys != {}
    ensures exists least :: IsLeast(least, keys)
    decreases |keys|
  {
    var some :| some in keys;
    var rest := keys - {some};
    if rest == {} {
      assert keys == {some};
      assert IsLeast(some, keys);
    } else {
      LeastExists(rest);
      var l :| IsLeast(l, rest);
      LessTotal(some, l);
      var least := if Less(some, l) then some else l;
      forall k | k in keys
        ensures AtMost(least, k)
      {
        if k != some && Less(some, l) && l != k {
          assert k in rest && AtMost(l, k);
          LessTransitive(some, l, k);
        }
      }
      assert IsLeast(least, keys);
    }
  }

  lemma LeastUnique(a: string, b: string, keys: set<string>)
    requires IsLeast(a, keys) && IsLeast(b, keys)
    ensures a == b
  {
    if a != b {
      LessAsymmetric(a, b);
    }
  }

  function Least(keys: set<string>): (least: string)
    requires keys != {}
    ensures IsLeast(least, keys)
  {
    LeastExists(keys);
    assert forall a, b :: IsLeast(a, keys) && IsLeast(b, keys) ==> a == b by {
      forall a, b | IsLeast(a, keys) && IsLeast(b, keys) ensures a == b { LeastUnique(a, b, keys); }
    }
    var least :| IsLeast(least, keys);
    least
  }

  /** `sorted(keys)`: strictly increasing, with exactly the given elements. */
  function SortedKeys(keys: set<string>): (r: seq<string>)
    ensures Sorted(r)
    ensures forall k :: k in r <==> k in keys
    ensures |r| == |keys|
    decreases |keys|
  {
    if keys == {} then []
    else
      var least := Least(keys);
      assert forall k :: k in keys - {least} ==> Less(least, k);
      [least] + SortedKeys(keys - {least})
  }
}
