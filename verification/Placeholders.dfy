/** Two-phase placeholder replacement (codex_runner/runner.py, replace_template_placeholders). */
module Placeholders {
  import opened Wrappers
  import opened Search
  import opened Decimal

  predicate StartsWith(s: string, p: string) { |p| <= |s| && s[..|p|] == p }

  /** `s.replace(t, v)` for a nonempty `t`: leftmost occurrences, not overlapping. */
  function Replace(s: string, t: string, v: string): string
    requires t != ""
    decreases |s|
  {
    if s == "" then ""
    else if StartsWith(s, t) then v + Replace(s[|t|..], t, v)
    else [s[0]] + Replace(s[1..], t, v)
  }

  const PREFIX: string := "__RUNNER_PLACEHOLDER_"

  function Sentinel(index: nat, seed: string): string {
    PREFIX + ToDecimal(index) + "_" + seed + "__"
  }

  /** The seeds: a hash of index and token, then hashes of hashes. `attempt` counts the rehashes. */
  type Seeds = (nat, string, nat) -> string

  predicate IsIn(p: string, s: string) { Find(s, p) != -1 }

  predicate AnyHolds(values: seq<string>, sentinel: string) {
    exists i :: 0 <= i < |values| && IsIn(sentinel, values[i])
  }

  /** The attempt's sentinel occurs neither in the text nor in any value. */
  predicate Fresh(index: nat, token: string, seeds: Seeds, rendered: string, values: seq<string>, attempt: nat) {
    var sentinel := Sentinel(index, seeds(index, token, attempt));
    !IsIn(sentinel, rendered) && !AnyHolds(values, sentinel)
  }

  ghost predicate FirstFresh(index: nat, token: string, seeds: Seeds, rendered: string, values: seq<string>,
                             attempt: nat) {
    && Fresh(index, token, seeds, rendered, values, attempt)
    && forall a: nat :: a < attempt ==> !Fresh(index, token, seeds, rendered, values, a)
  }

  /** The sentinel of the first fresh attempt; `None` where there is none and the search never ends. */
  ghost function PickSentinel(index: nat, token: string, seeds: Seeds, rendered: string,
                              values: seq<string>): Option<string> {
    if a: nat :| FirstFresh(index, token, seeds, rendered, values, a) then Some(Sentinel(index, seeds(index, token, a)))
    else None
  }

  /** Replace each token by its sentinel, in order; an empty token is skipped and keeps no sentinel. */
  ghost function HideTokens(rendered: string, tokens: seq<string>, values: seq<string>, seeds: Seeds,
                            sentinels: seq<string>): (r: Option<(string, seq<string>)>)
    requires |sentinels| <= |tokens|
    ensures r.Some? ==> |r.value.1| == |tokens|
    decreases |tokens| - |sentinels|
  {
    var i := |sentinels|;
    if i == |tokens| then Some((rendered, sentinels))
    else if tokens[i] == "" then HideTokens(rendered, tokens, values, seeds, sentinels + [""])
    else match PickSentinel(i, tokens[i], seeds, rendered, values)
      case None => None
      case Some(s) => HideTokens(Replace(rendered, tokens[i], s), tokens, values, seeds, sentinels + [s])
  }

  /** Replace each sentinel by its value, in order. */
  function ShowValues(rendered: string, sentinels: seq<string>, values: seq<string>, i: nat): string
    requires |sentinels| == |values| && i <= |values|
    decreases |values| - i
  {
    if i == |values| then rendered
    else if sentinels[i] == "" then ShowValues(rendered, sentinels, values, i + 1)
    else ShowValues(Replace(rendered, sentinels[i], values[i]), sentinels, values, i + 1)
  }

  ghost function TwoPhase(template: string, tokens: seq<string>, values: seq<string>, seeds: Seeds): (r: Option<string>)
    requires |tokens| == |values|
  {
    match HideTokens(template, tokens, values, seeds, [])
    case None => None
    case Some(hidden) => Some(ShowValues(hidden.0, hidden.1, values, 0))
  }

  /**
   The dictionary's items are given as two sequences, its keys and its values, in insertion order. Called
   where every search for a sentinel ends: elsewhere the program never returns.
   */
  method ReplaceTemplatePlaceholders(template: string, tokens: seq<string>, values: seq<string>, seeds: Seeds)
    returns (r: string)
    requires |tokens| == |values| && TwoPhase(template, tokens, values, seeds).Some?
    ensures Some(r) == TwoPhase(template, tokens, values, seeds)
  {
    hide PickSentinel, Replace, ShowValues;
    var rendered := template;
    var sentinels: seq<string> := [];
    for i := 0 to |tokens|
      invariant |sentinels| == i
      invariant HideTokens(rendered, tokens, values, seeds, sentinels) ==
                  HideTokens(template, tokens, values, seeds, [])
    {
      if tokens[i] == "" {
        sentinels := sentinels + [""];
        continue;
      }
      var picked := SearchSentinel(i, tokens[i], seeds, rendered, values);
      rendered := Replace(rendered, tokens[i], picked);
      sentinels := sentinels + [picked];
    }
    r := RestoreValues(rendered, sentinels, values);
  }

  /** The search loop, called where it ends. */
  method SearchSentinel(index: nat, token: string, seeds: Seeds, rendered: string, values: seq<string>)
    returns (sentinel: string)
    requires PickSentinel(index, token, seeds, rendered, values).Some?
    ensures Some(sentinel) == PickSentinel(index, token, seeds, rendered, values)
  {
    hide IsIn, AnyHolds, Sentinel;
    ghost var last: nat :| FirstFresh(index, token, seeds, rendered, values, last)
      && PickSentinel(index, token, seeds, rendered, values) == Some(Sentinel(index, seeds(index, token, last)));
    var attempt := 0;
    sentinel := Sentinel(index, seeds(index, token, attempt));
    while IsIn(sentinel, rendered) || AnyHolds(values, sentinel)
      invariant attempt <= last && sentinel == Sentinel(index, seeds(index, token, attempt))
      decreases last - attempt
    {
      assert !Fresh(index, token, seeds, rendered, values, attempt);
      attempt := attempt + 1;
      sentinel := Sentinel(index, seeds(index, token, attempt));
    }
    assert Fresh(index, token, seeds, rendered, values, attempt);
  }

  method RestoreValues(text: string, sentinels: seq<string>, values: seq<string>) returns (rendered: string)
    requires |sentinels| == |values|
    ensures rendered == ShowValues(text, sentinels, values, 0)
  {
    hide Replace;
    rendered := text;
    for i := 0 to |values|
      invariant ShowValues(rendered, sentinels, values, i) == ShowValues(text, sentinels, values, 0)
    {
      if sentinels[i] != "" {
        rendered := Replace(rendered, sentinels[i], values[i]);
      }
    }
  }

  // ---------------------------------------------------------------- what it should mean

  /** The first nonempty token, from index `i` on, that the text starts with. */
  function TokenAt(s: string, tokens: seq<string>, i: nat): (r: Option<nat>)
    requires i <= |tokens|
    ensures r.Some? ==> r.value < |tokens| && tokens[r.value] != "" && StartsWith(s, tokens[r.value])
    decreases |tokens| - i
  {
    if i == |tokens| then None
    else if tokens[i] != "" && StartsWith(s, tokens[i]) then Some(i)
    else TokenAt(s, tokens, i + 1)
  }

  /** Simultaneous substitution: one scan of the template, never looking at inserted values. */
  function OneShot(s: string, tokens: seq<string>, values: seq<string>): string
    requires |tokens| == |values|
    decreases |s|
  {
    if s == "" then ""
    else match TokenAt(s, tokens, 0)
      case Some(k) => values[k] + OneShot(s[|tokens[k]|..], tokens, values)
      case None => [s[0]] + OneShot(s[1..], tokens, values)
  }
}
