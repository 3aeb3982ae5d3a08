/**
 Digging a payload out of nested provider output (codex_runner/runner.py, _candidate_payload_dicts and
 _select_payload). `decode` is the JSON decoder: `None` where it raises.
 */
module Payload {
  import opened Wrappers
  import opened Collections
  import opened Text
  import opened Json

  type Decoder = string -> Option<Json>

  const WRAPPERS: seq<string> := ["result", "output", "response", "data", "message", "content"]

  // ---------------------------------------------------------------- weight

  function Weight(j: Json): (w: nat)
    ensures w > 0
  {
    match j
    case String(text) => |text| + 1
    case Array(items) => 1 + WeightOf(items)
    case Object(fields) => 1 + FieldsWeight(fields)
    case _ => 1
  }

  function WeightOf(js: seq<Json>): nat {
    if js == [] then 0 else Weight(js[0]) + WeightOf(js[1..])
  }

  function FieldsWeight(fields: seq<Field>): nat {
    if fields == [] then 0 else Weight(fields[0].value) + FieldsWeight(fields[1..])
  }

  /** A decoded value never weighs more than its text has characters. */
  ghost predicate Shrinks(decode: Decoder) {
    forall text :: decode(text).Some? ==> Weight(decode(text).value) <= |text|
  }

  lemma {:induction false} WeightOfAppend(a: seq<Json>, b: seq<Json>)
    ensures WeightOf(a + b) == WeightOf(a) + WeightOf(b)
  {
    if a == [] {
      assert a + b == b;
    } else {
      WeightOfAppend(a[1..], b);
      assert (a + b)[1..] == a[1..] + b;
    }
  }

  // ---------------------------------------------------------------- one step of the walk

  /** The values an object holds under the given keys, in the order of the keys. */
  function Under(fields: seq<Field>, names: seq<string>): seq<Json> {
    if names == [] then []
    else (if Has(fields, names[0]) then [Get(fields, names[0], Null)] else []) + Under(fields, names[1..])
  }

  predicate Bracketed(text: string) { text != "" && (text[0] == '{' || text[0] == '[') }

  /** What a value leads to: wrapped values, list items, or the value a JSON text stands for. */
  function Inside(j: Json, decode: Decoder): seq<Json> {
    match j
    case Object(fields) => Under(fields, WRAPPERS)
    case Array(items) => items
    case String(s) =>
      var text := Strip(s);
      if !Bracketed(text) then []
      else (match decode(text) case None => [] case Some(v) => [v])
    case _ => []
  }

  lemma {:induction false} UnderRest(fields: seq<Field>, names: seq<string>)
    requires fields != [] && NoDuplicates(names)
    ensures WeightOf(Under(fields, names))
            <= WeightOf(Under(fields[1..], names)) + (if fields[0].name in names then Weight(fields[0].value) else 0)
  {
    if names != [] {
      var name := names[0];
      UnderRest(fields, names[1..]);
      HasRest(fields, name);
      UnderStep(fields, names);
      UnderStep(fields[1..], names);
    }
  }

  lemma WeightOfPrepend(j: Json, rest: seq<Json>)
    ensures WeightOf([j] + rest) == Weight(j) + WeightOf(rest)
  {
    assert ([j] + rest)[1..] == rest;
  }

  lemma UnderStep(fields: seq<Field>, names: seq<string>)
    requires names != []
    ensures WeightOf(Under(fields, names))
            == (if Has(fields, names[0]) then Weight(Get(fields, names[0], Null)) else 0)
               + WeightOf(Under(fields, names[1..]))
  {
    var rest := Under(fields, names[1..]);
    if Has(fields, names[0]) {
      var first := Get(fields, names[0], Null);
      assert Under(fields, names) == [first] + rest;
      WeightOfPrepend(first, rest);
    } else {
      assert Under(fields, names) == rest;
    }
  }

  lemma {:induction false} UnderWeight(fields: seq<Field>, names: seq<string>)
    requires NoDuplicates(names)
    ensures WeightOf(Under(fields, names)) <= FieldsWeight(fields)
    decreases |fields|
  {
    if fields == [] {
      UnderNothing(names);
    } else {
      UnderRest(fields, names);
      UnderWeight(fields[1..], names);
    }
  }

  lemma {:induction false} UnderNothing(names: seq<string>)
    ensures Under([], names) == []
  {
    if names != [] {
      UnderNothing(names[1..]);
    }
  }

  /** What is inside a value weighs less than the value. */
  lemma InsideLighter(j: Json, decode: Decoder)
    requires Shrinks(decode)
    ensures WeightOf(Inside(j, decode)) < Weight(j)
  {
    hide Strip, Under, Bracketed;
    match j
    case Object(fields) =>
      WrappersDistinct();
      UnderWeight(fields, WRAPPERS);
    case String(s) => StripIsTrimmed(s);
    case _ =>
  }

  lemma WrappersDistinct()
    ensures NoDuplicates(WRAPPERS)
  {
  }

  // ---------------------------------------------------------------- the walk

  /** What visiting a value adds to the queue: nothing for a text decoded before. */
  function Pushed(current: Json, seen: set<string>, decode: Decoder): seq<Json> {
    if current.String? && Strip(current.text) in seen then [] else Inside(current, decode)
  }

  /** The texts decoded once a value has been visited. */
  function Noted(current: Json, seen: set<string>): set<string> {
    if current.String? && Bracketed(Strip(current.text)) then seen + {Strip(current.text)} else seen
  }

  lemma PushedLighter(current: Json, rest: seq<Json>, seen: set<string>, decode: Decoder)
    requires Shrinks(decode)
    ensures WeightOf(rest + Pushed(current, seen, decode)) < WeightOf([current] + rest)
  {
    hide Inside, Weight, Shrinks;
    InsideLighter(current, decode);
    WeightOfAppend(rest, Pushed(current, seen, decode));
    WeightOfPrepend(current, rest);
  }

  /** The objects collected from a queue when the texts in `seen` were already decoded. */
  function Walk(queue: seq<Json>, seen: set<string>, decode: Decoder): seq<Json>
    requires Shrinks(decode)
    decreases WeightOf(queue)
  {
    if queue == [] then []
    else
      var current, rest := queue[0], queue[1..];
      PushedLighter(current, rest, seen, decode);
      assert queue == [current] + rest;
      (if current.Object? then [current] else [])
      + Walk(rest + Pushed(current, seen, decode), Noted(current, seen), decode)
  }

  method CandidatePayloadDicts(raw: Json, decode: Decoder) returns (candidates: seq<Json>)
    requires Shrinks(decode)
    ensures candidates == Walk([raw], {}, decode)
  {
    hide Shrinks, Pushed, Noted, Weight;
    var queue := [raw];
    var seen: set<string> := {};
    candidates := [];
    while queue != []
      invariant candidates + Walk(queue, seen, decode) == Walk([raw], {}, decode)
      decreases WeightOf(queue)
    {
      var current, rest := queue[0], queue[1..];
      PushedLighter(current, rest, seen, decode);
      assert queue == [current] + rest;
      var pushed, noted := Visit(current, seen, decode);
      if current.Object? {
        candidates := candidates + [current];
      }
      queue, seen := rest + pushed, noted;
    }
  }

  /** The `isinstance` branches of the loop's body. */
  method Visit(current: Json, seen: set<string>, decode: Decoder) returns (pushed: seq<Json>, noted: set<string>)
    ensures pushed == Pushed(current, seen, decode) && noted == Noted(current, seen)
  {
    pushed, noted := [], seen;
    match current
    case Object(fields) =>
      pushed := CollectWrapped(fields);
    case Array(items) =>
      pushed := items;
    case String(s) =>
      var text := Strip(s);
      if Bracketed(text) && text !in seen {
        noted := seen + {text};
        if decode(text).Some? {
          pushed := [decode(text).value];
        }
      }
    case _ =>
  }

  method CollectWrapped(fields: seq<Field>) returns (wrapped: seq<Json>)
    ensures wrapped == Under(fields, WRAPPERS)
  {
    wrapped := [];
    for i := 0 to |WRAPPERS|
      invariant wrapped + Under(fields, WRAPPERS[i..]) == Under(fields, WRAPPERS)
    {
      if Has(fields, WRAPPERS[i]) {
        wrapped := wrapped + [Get(fields, WRAPPERS[i], Null)];
      }
    }
  }

  // ---------------------------------------------------------------- selection

  function Keys(payload: Json): set<string> {
    if payload.Object? then set f | f in payload.fields :: f.name else {}
  }

  predicate Complete(payload: Json, required: set<string>) { required <= Keys(payload) }

  function Hint(payload: Json, name: string): nat { if name in Keys(payload) then 3 else 0 }

  function Score(payload: Json, required: set<string>): int {
    var keys := Keys(payload);
    |required * keys| * 10
    + (if required != {} && Complete(payload, required) then 1000 else 0)
    + Hint(payload, "status") + Hint(payload, "campaigns") + Hint(payload, "audit_id")
    - (if required != {} && !Complete(payload, required) && {"type", "id", "usage", "session_id"} * keys != {}
       then 2 else 0)
  }

  /** `max(candidates, key=score)`: the first of the best. */
  function Best(candidates: seq<Json>, required: set<string>): (r: Json)
    requires candidates != []
    ensures r in candidates
  {
    var last := candidates[|candidates| - 1];
    if |candidates| == 1 then last
    else
      var before := Best(candidates[..|candidates| - 1], required);
      if Score(last, required) > Score(before, required) then last else before
  }

  datatype PayloadError = NoObject | MissingKeys(keys: seq<string>)

  function SelectPayload(candidates: seq<Json>, required: set<string>): Result<Json, PayloadError> {
    if candidates == [] then Err(NoObject)
    else
      var chosen := Best(candidates, required);
      if required != {} && !Complete(chosen, required) then Err(MissingKeys(SortedKeys(required - Keys(chosen))))
      else Ok(chosen)
  }
}
