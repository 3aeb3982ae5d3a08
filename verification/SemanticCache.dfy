/** The similarity cache over word frequencies (guardian/cache.py, _embed, semantic_cache, semantic_cache_store). */
module SemanticCache {
  import opened Wrappers
  import opened Text
  import opened Vectors

  // ---------------------------------------------------------------- words

  /** `s.split()`: the runs of characters between whitespace. */
  function Split(s: string): seq<string>
    decreases |s|
  {
    LStripSuffix(s);
    var t := LStrip(s);
    if t == "" then [] else [t[..WordLength(t)]] + Split(t[WordLength(t)..])
  }

  predicate IsAlpha(w: string) { w != "" && forall i :: 0 <= i < |w| ==> IsAsciiLetter(w[i]) }

  function Alphabetic(words: seq<string>): seq<string> {
    if words == [] then []
    else (if IsAlpha(words[0]) then [ToLower(words[0])] else []) + Alphabetic(words[1..])
  }

  /** The words that are counted. */
  function Terms(text: string): seq<string> { Alphabetic(Split(text)) }

  /** `counts[word] = counts.get(word, 0) + 1`. */
  function Counted(v: Vector, word: string): Vector {
    if v == [] then [Term(word, 1.0)]
    else if v[0].word == word then [Term(word, v[0].weight + 1.0)] + v[1..]
    else [v[0]] + Counted(v[1..], word)
  }

  function Tally(words: seq<string>): Vector {
    if words == [] then [] else Counted(Tally(words[..|words| - 1]), words[|words| - 1])
  }

  /** `math.sqrt(sum of squares) or 1.0`. */
  function Norm(v: Vector, sqrt: Root): real {
    var n := sqrt(Squares(v));
    if n == 0.0 then 1.0 else n
  }

  function Divided(v: Vector, n: real): Vector
    requires n != 0.0
  {
    if v == [] then [] else [Term(v[0].word, v[0].weight / n)] + Divided(v[1..], n)
  }

  function Embedded(words: seq<string>, sqrt: Root): Vector {
    Divided(Tally(words), Norm(Tally(words), sqrt))
  }

  datatype Entry<R> = Entry(vector: Vector, result: R)

  /** The highest score above 0 among the first `n` entries and the first entry that has it. */
  function Best<R>(store: seq<Entry<R>>, q: Vector, n: nat): (r: (real, Option<nat>))
    requires n <= |store|
    ensures r.1.Some? ==> r.1.value < n
  {
    if n == 0 then (0.0, None)
    else
      var before := Best(store, q, n - 1);
      var score := Dot(q, store[n - 1].vector);
      if score > before.0 then (score, Some(n - 1)) else before
  }

  function Lookup<R>(store: seq<Entry<R>>, q: Vector, threshold: real): Option<R> {
    var best := Best(store, q, |store|);
    if best.0 >= threshold && best.1.Some? then Some(store[best.1.value].result) else None
  }

  class Store<R> {
    const sqrt: Root
    var entries: seq<Entry<R>>

    constructor (sqrt: Root)
      ensures this.sqrt == sqrt && entries == []
    {
      this.sqrt := sqrt;
      entries := [];
    }

    method Embed(text: string) returns (vector: Vector)
      ensures vector == Embedded(Terms(text), sqrt)
    {
      var words := SelectWords(Split(text));
      var counts: Vector := [];
      for i := 0 to |words|
        invariant counts == Tally(words[..i])
      {
        counts := Counted(counts, words[i]);
        assert words[..i + 1][..i] == words[..i];
      }
      assert words[..|words|] == words;
      vector := Divided(counts, Norm(counts, sqrt));
    }

    method SelectWords(split: seq<string>) returns (words: seq<string>)
      ensures words == Alphabetic(split)
    {
      words := [];
      for i := 0 to |split|
        invariant words + Alphabetic(split[i..]) == Alphabetic(split)
      {
        if IsAlpha(split[i]) {
          words := words + [ToLower(split[i])];
        }
      }
    }

    method Put(text: string, result: R)
      modifies this
      ensures entries == old(entries) + [Entry(Embedded(Terms(text), sqrt), result)]
    {
      var vector := Embed(text);
      entries := entries + [Entry(vector, result)];
    }

    /** `None` also stands for a best result that was never set. */
    method Query(text: string, threshold: real) returns (found: Option<R>)
      ensures found == Lookup(entries, Embedded(Terms(text), sqrt), threshold)
    {
      var q := Embed(text);
      var bestScore, bestResult := 0.0, None;
      for i := 0 to |entries|
        invariant var best := Best(entries, q, i);
                  bestScore == best.0 && bestResult == if best.1.Some? then Some(entries[best.1.value].result) else None
      {
        var score := Dot(q, entries[i].vector);
        if score > bestScore {
          bestScore, bestResult := score, Some(entries[i].result);
        }
      }
      found := if bestScore >= threshold then bestResult else None;
    }
  }
}
