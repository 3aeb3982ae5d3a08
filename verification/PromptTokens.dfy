/** The placeholder tokens of the runner's own prompts, and when the search for sentinels ends. */
module PromptTokens {
  import opened Search
  import opened Decimal
  import opened Placeholders
  import opened PlaceholderLaws

  const AUDIT_TOKENS: seq<string> :=
    ["<REPO_ROOT>", "<AUDIT_ID>", "{{AUDIT_ID}}", "<RUN_ID>", "{{RUN_ID}}", "<INTENTION_PACKET>"]

  const COMPILER_TOKENS: seq<string> :=
    ["<REPO_ROOT>", "<PASTE MEGA_AUDIT_OUTPUT_JSON_HERE>", "<AUDIT_JSON>", "<INTENTION_PACKET>"]

  lemma ShortTokensFramed()
    ensures Angled("<REPO_ROOT>") && Angled("<AUDIT_ID>") && Angled("<RUN_ID>") && Angled("<AUDIT_JSON>")
  {
  }

  lemma BracedTokensFramed()
    ensures Braced("{{AUDIT_ID}}") && Braced("{{RUN_ID}}")
  {
  }

  lemma IntentionTokenFramed()
    ensures Angled("<INTENTION_PACKET>")
  {
  }

  lemma CompilerTokenFramed()
    ensures Angled("<PASTE MEGA_AUDIT_OUTPUT_JSON_HERE>")
  {
  }

  /** The token lists of both prompts are framed and without repetition. */
  lemma PromptTokensAreGood()
    ensures GoodTokens(AUDIT_TOKENS) && GoodTokens(COMPILER_TOKENS)
  {
    hide Angled, Braced;
    ShortTokensFramed();
    BracedTokensFramed();
    IntentionTokenFramed();
    CompilerTokenFramed();
  }

  // ---------------------------------------------------------------- the search ends

  function Concat(texts: seq<string>): string {
    if texts == [] then "" else texts[0] + Concat(texts[1..])
  }

  lemma {:induction false} ContainedInConcat(texts: seq<string>, i: nat, p: string)
    requires i < |texts| && Contains(texts[i], p)
    ensures Contains(Concat(texts), p)
  {
    var rest := Concat(texts[1..]);
    if i == 0 {
      var k :| OccursAt(texts[0], p, k);
      assert (texts[0] + rest)[k..k + |p|] == texts[0][k..k + |p|];
      assert OccursAt(texts[0] + rest, p, k);
    } else {
      ContainedInConcat(texts[1..], i - 1, p);
      var k :| OccursAt(rest, p, k);
      assert (texts[0] + rest)[|texts[0]| + k..|texts[0]| + k + |p|] == rest[k..k + |p|];
      assert OccursAt(texts[0] + rest, p, |texts[0]| + k);
    }
  }

  /** Different natural numbers below `n`: there are at most `n`. */
  lemma {:induction false} Pigeonhole(ps: seq<int>, n: nat)
    requires forall i :: 0 <= i < |ps| ==> 0 <= ps[i] < n
    requires forall i, j :: 0 <= i < j < |ps| ==> ps[i] != ps[j]
    ensures |ps| <= n
  {
    if ps == [] {
    } else {
      assert ps[0] < n;
      if n - 1 in ps {
        var k :| 0 <= k < |ps| && ps[k] == n - 1;
        Pigeonhole(ps[..k] + ps[k + 1..], n - 1);
      } else {
        Pigeonhole(ps, n - 1);
      }
    }
  }

  /** The first `n + 1` seeds are different and of one length. */
  ghost predicate FreshSeeds(seeds: Seeds, index: nat, token: string, n: nat) {
    forall a, b :: 0 <= a < b <= n ==>
      |seeds(index, token, a)| == |seeds(index, token, b)| && seeds(index, token, a) != seeds(index, token, b)
  }

  /** A refused attempt's sentinel occurs in the text or in a value. */
  lemma RefusedOccurs(index: nat, token: string, seeds: Seeds, rendered: string, values: seq<string>, a: nat)
    requires !Fresh(index, token, seeds, rendered, values, a)
    ensures Contains(Concat([rendered] + values), Sentinel(index, seeds(index, token, a)))
  {
    hide Sentinel, Contains, Concat;
    var texts := [rendered] + values;
    var sentinel := Sentinel(index, seeds(index, token, a));
    if IsIn(sentinel, rendered) {
      FindFirst(rendered, sentinel);
      ContainedInConcat(texts, 0, sentinel);
    } else {
      var i :| 0 <= i < |values| && IsIn(sentinel, values[i]);
      FindFirst(values[i], sentinel);
      assert texts[i + 1] == values[i];
      ContainedInConcat(texts, i + 1, sentinel);
    }
  }

  lemma SentinelsOfSeedsDiffer(index: nat, s: string, t: string)
    requires |s| == |t|
    ensures |Sentinel(index, s)| == |Sentinel(index, t)| > 0
    ensures s != t ==> Sentinel(index, s) != Sentinel(index, t)
  {
    var n := |PREFIX + ToDecimal(index) + "_"|;
    assert Sentinel(index, s)[n..n + |s|] == s;
    assert Sentinel(index, t)[n..n + |t|] == t;
  }

  /** There is no room for all of the sentinels: one of the first attempts is fresh. */
  lemma SomeFresh(index: nat, token: string, seeds: Seeds, rendered: string, values: seq<string>, n: nat)
    requires n == |Concat([rendered] + values)| && FreshSeeds(seeds, index, token, n)
    ensures exists a: nat :: a <= n && Fresh(index, token, seeds, rendered, values, a)
  {
    hide Fresh, Concat, Contains, Sentinel;
    if forall a: nat :: a <= n ==> !Fresh(index, token, seeds, rendered, values, a) {
      var big := Concat([rendered] + values);
      var ps := seq(n + 1, a requires 0 <= a <= n => Find(big, Sentinel(index, seeds(index, token, a))));
      forall a | 0 <= a <= n
        ensures 0 <= ps[a] && OccursAt(big, Sentinel(index, seeds(index, token, a)), ps[a])
      {
        RefusedOccurs(index, token, seeds, rendered, values, a);
        FindFirst(big, Sentinel(index, seeds(index, token, a)));
      }
      forall a, b | 0 <= a < b <= n
        ensures ps[a] != ps[b]
      {
        SentinelsOfSeedsDiffer(index, seeds(index, token, a), seeds(index, token, b));
      }
      forall a | 0 <= a <= n
        ensures ps[a] < |big|
      {
        SentinelsOfSeedsDiffer(index, seeds(index, token, a), seeds(index, token, a));
      }
      Pigeonhole(ps, |big|);
    }
  }

  lemma {:induction false} FirstOf(index: nat, token: string, seeds: Seeds, rendered: string, values: seq<string>,
                                   a: nat)
    requires Fresh(index, token, seeds, rendered, values, a)
    ensures exists first: nat :: first <= a && FirstFresh(index, token, seeds, rendered, values, first)
  {
    hide Fresh;
    if b: nat :| b < a && Fresh(index, token, seeds, rendered, values, b) {
      FirstOf(index, token, seeds, rendered, values, b);
    } else {
      assert FirstFresh(index, token, seeds, rendered, values, a);
    }
  }

  /** The search ends after at most as many rehashes as the text and the values have characters. */
  lemma SearchEnds(index: nat, token: string, seeds: Seeds, rendered: string, values: seq<string>)
    requires FreshSeeds(seeds, index, token, |Concat([rendered] + values)|)
    ensures PickSentinel(index, token, seeds, rendered, values).Some?
    ensures exists a: nat :: a <= |Concat([rendered] + values)| && FirstFresh(index, token, seeds, rendered, values, a)
  {
    hide Fresh, FirstFresh, Concat, FreshSeeds, Sentinel;
    var n := |Concat([rendered] + values)|;
    SomeFresh(index, token, seeds, rendered, values, n);
    var a: nat :| a <= n && Fresh(index, token, seeds, rendered, values, a);
    FirstOf(index, token, seeds, rendered, values, a);
  }
}
