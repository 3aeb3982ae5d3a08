/** Python substring search: `in`, `find` and where occurrences can lie. */
module Search {

  predicate OccursAt(s: string, p: string, i: int) {
    0 <= i && i + |p| <= |s| && s[i..i + |p|] == p
  }

  /** `p in s`. */
  ghost predicate Contains(s: string, p: string) {
    exists i :: OccursAt(s, p, i)
  }

  /** `s.find(p, i)`; -1 when there is no occurrence. */
  function FindFrom(s: string, p: string, i: nat): (r: int)
    requires i <= |s|
    ensures r >= -1
    decreases |s| - i
  {
    if OccursAt(s, p, i) then i
    else if i == |s| then -1
    else FindFrom(s, p, i + 1)
  }

  function Find(s: string, p: string): (r: int)
    ensures r >= -1
  {
    FindFrom(s, p, 0)
  }

  lemma {:induction false} FindFromFirst(s: string, p: string, i: nat)
    requires i <= |s|
    ensures var r := FindFrom(s, p, i);
            && (r == -1 ==> forall j :: i <= j ==> !OccursAt(s, p, j))
            && (r != -1 ==> i <= r && OccursAt(s, p, r) && forall j :: i <= j < r ==> !OccursAt(s, p, j))
    decreases |s| - i
  {
    if !OccursAt(s, p, i) && i < |s| {
      FindFromFirst(s, p, i + 1);
    }
  }

  lemma FindFirst(s: string, p: string)
    ensures var r := Find(s, p);
            && (r == -1 <==> !Contains(s, p))
            && (r != -1 ==> OccursAt(s, p, r) && forall j :: 0 <= j < r ==> !OccursAt(s, p, j))
  {
    FindFromFirst(s, p, 0);
  }

  lemma FindIs(s: string, p: string, i: nat)
    requires OccursAt(s, p, i) && forall j :: 0 <= j < i ==> !OccursAt(s, p, j)
    ensures Find(s, p) == i
  {
    FindFirst(s, p);
  }

  /** An occurrence fixes every character it covers. */
  lemma OccursChars(s: string, p: string, i: int, k: nat)
    requires OccursAt(s, p, i) && k < |p|
    ensures s[i + k] == p[k]
  {
    assert s[i..i + |p|][k] == s[i + k];
  }

  lemma OccursInLeft(a: string, b: string, p: string, i: int)
    requires OccursAt(a + b, p, i) && i + |p| <= |a|
    ensures OccursAt(a, p, i)
  {
    assert (a + b)[i..i + |p|] == a[i..i + |p|];
  }

  lemma OccursInRight(a: string, b: string, p: string, i: int)
    requires OccursAt(a + b, p, i) && i >= |a|
    ensures OccursAt(b, p, i - |a|)
  {
    assert (a + b)[i..i + |p|] == b[i - |a|..i - |a| + |p|];
  }

  lemma OccursBetween(a: string, p: string, b: string)
    ensures OccursAt(a + p + b, p, |a|)
  {
    assert (a + p + b)[|a|..|a| + |p|] == p;
  }
}
