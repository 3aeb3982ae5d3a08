/** The in-memory vector store with cosine ranking (guardian/vector_store.py). */
module VectorStore {
  import opened Vectors

  function DotOf(a: seq<real>, b: seq<real>): real
    requires |a| == |b|
  {
    if a == [] then 0.0 else Times(a[0], b[0]) + DotOf(a[1..], b[1..])
  }

  function SquaresOf(a: seq<real>): real {
    if a == [] then 0.0 else Square(a[0]) + SquaresOf(a[1..])
  }

  lemma TimesNonZero(x: real, y: real)
    requires x != 0.0 && y != 0.0
    ensures Times(x, y) != 0.0
  {
  }

  function Cosine(a: seq<real>, b: seq<real>, sqrt: Root): real {
    if a == [] || b == [] || |a| != |b| then 0.0
    else
      var na, nb := sqrt(SquaresOf(a)), sqrt(SquaresOf(b));
      if na == 0.0 || nb == 0.0 then 0.0
      else
        TimesNonZero(na, nb);
        DotOf(a, b) / Times(na, nb)
  }

  datatype Stored<M> = Stored(text: string, embedding: seq<real>, metadata: M)

  datatype Found<M> = Found(text: string, score: real, metadata: M)

  /** A score and the entry it belongs to. */
  datatype Scored<M> = Scored(score: real, entry: Stored<M>)

  function ScoreAll<M>(entries: seq<Stored<M>>, query: seq<real>, sqrt: Root): (r: seq<Scored<M>>)
    ensures |r| == |entries|
  {
    if entries == [] then []
    else
      var n := |entries| - 1;
      ScoreAll(entries[..n], query, sqrt) + [Scored(Cosine(query, entries[n].embedding, sqrt), entries[n])]
  }

  /** Insert after every element whose score is at least as high. */
  function Placed<M>(sorted: seq<Scored<M>>, x: Scored<M>): (r: seq<Scored<M>>)
    ensures |r| == |sorted| + 1
  {
    if sorted == [] || sorted[0].score < x.score then [x] + sorted
    else [sorted[0]] + Placed(sorted[1..], x)
  }

  /** `list.sort(key=score, reverse=True)`: stable, as Python's sort is also in reverse. */
  function Ranked<M>(scored: seq<Scored<M>>): (r: seq<Scored<M>>)
    ensures |r| == |scored|
  {
    if scored == [] then [] else Placed(Ranked(scored[..|scored| - 1]), scored[|scored| - 1])
  }

  function Top<M>(ranked: seq<Scored<M>>, n: int): (r: seq<Scored<M>>)
    ensures |r| == if n <= 0 then 0 else if n <= |ranked| then n else |ranked|
    ensures forall i :: 0 <= i < |r| ==> r[i] == ranked[i]
  {
    if n <= 0 then [] else if n <= |ranked| then ranked[..n] else ranked
  }

  class Store<M> {
    const sqrt: Root
    var entries: seq<Stored<M>>

    constructor (sqrt: Root)
      ensures this.sqrt == sqrt && entries == []
    {
      this.sqrt := sqrt;
      entries := [];
    }

    method Add(text: string, embedding: seq<real>, metadata: M)
      modifies this
      ensures entries == old(entries) + [Stored(text, embedding, metadata)]
    {
      entries := entries + [Stored(text, embedding, metadata)];
    }

    method Search(query: seq<real>, topK: int) returns (results: seq<Found<M>>)
      ensures var top := Top(Ranked(ScoreAll(entries, query, sqrt)), topK);
              |results| == |top| && forall i :: 0 <= i < |top| ==>
                results[i] == Found(top[i].entry.text, top[i].score, top[i].entry.metadata)
    {
      var scored: seq<Scored<M>> := [];
      for i := 0 to |entries|
        invariant scored == ScoreAll(entries[..i], query, sqrt)
      {
        scored := scored + [Scored(Cosine(query, entries[i].embedding, sqrt), entries[i])];
        assert entries[..i + 1][..i] == entries[..i];
      }
      assert entries[..|entries|] == entries;
      var top := Top(Ranked(scored), topK);
      results := [];
      for i := 0 to |top|
        invariant |results| == i
        invariant forall j :: 0 <= j < i ==> results[j] == Found(top[j].entry.text, top[j].score, top[j].entry.metadata)
      {
        results := results + [Found(top[i].entry.text, top[i].score, top[i].entry.metadata)];
      }
    }
  }
}
