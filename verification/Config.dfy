/** Nested configuration: deep merge and dotted paths (guardian/config_loader.py). */
module Config {
  import opened Wrappers
  import opened Json
  import Paths

  /** `d[key] = value`: in place when the key is there, else at the end. */
  function Put(fields: seq<Field>, key: string, value: Json): seq<Field> {
    if fields == [] then [Field(key, value)]
    else if fields[0].name == key then [Field(key, value)] + fields[1..]
    else [fields[0]] + Put(fields[1..], key, value)
  }

  /**
   `_deep_update`: the merged dictionary, and whether the merge ran to its end. Where a nonempty dictionary
   meets something else the code raises `TypeError` and what was merged before stays merged.
   */
  function DeepUpdated(base: seq<Field>, update: seq<Field>): (seq<Field>, bool)
    decreases update
  {
    if update == [] then (base, true)
    else
      var step := Merged(base, update[0]);
      if step.1 then DeepUpdated(step.0, update[1..]) else (step.0, false)
  }

  /** One item of the update. */
  function Merged(base: seq<Field>, item: Field): (seq<Field>, bool)
    decreases item
  {
    if item.value.Object? && Has(base, item.name) then
      var target := Get(base, item.name, Null);
      if target.Object? then
        var inner := DeepUpdated(target.fields, item.value.fields);
        (Put(base, item.name, Object(inner.0)), inner.1)
      else (base, item.value.fields == [])
    else (Put(base, item.name, item.value), true)
  }

  /** The value at a path; `None` where the code meets `KeyError` or `TypeError`. */
  function Lookup(j: Json, path: seq<string>): Option<Json>
    decreases |path|
  {
    if path == [] then Some(j)
    else if j.Object? && Has(j.fields, path[0]) then Lookup(Get(j.fields, path[0], Null), path[1..])
    else None
  }

  /** Setting a path makes the dictionaries it lacks; `None` where a part of it is not a dictionary. */
  function SetAt(fields: seq<Field>, path: seq<string>, value: Json): Option<seq<Field>>
    requires path != []
    decreases |path|
  {
    if |path| == 1 then Some(Put(fields, path[0], value))
    else
      var next := if Has(fields, path[0]) then Get(fields, path[0], Null) else Object([]);
      if !next.Object? then None
      else match SetAt(next.fields, path[1..], value)
        case None => None
        case Some(inner) => Some(Put(fields, path[0], Object(inner)))
  }

  /** A changed dictionary back in its parents, innermost last: in the program they share it. */
  function PutBack(trail: seq<(seq<Field>, string)>, fields: Option<seq<Field>>): (r: Option<seq<Field>>)
    ensures r.Some? <==> fields.Some?
    decreases |trail|
  {
    if trail == [] || fields == None then fields
    else
      var n := |trail| - 1;
      PutBack(trail[..n], Some(Put(trail[n].0, trail[n].1, Object(fields.value))))
  }

  lemma {:induction false} PutAgain(fields: seq<Field>, key: string, first: Json)
    ensures Has(Put(fields, key, first), key) && Get(Put(fields, key, first), key, Null) == first
    ensures forall value :: Put(Put(fields, key, first), key, value) == Put(fields, key, value)
  {
    HasRest(Put(fields, key, first), key);
    if fields != [] && fields[0].name != key {
      PutAgain(fields[1..], key, first);
    }
  }

  class ConfigLoader {
    var config: seq<Field>

    constructor (config: seq<Field>)
      ensures this.config == config
    {
      this.config := config;
    }

    /** `_deep_update` on the whole configuration. */
    method Update(update: seq<Field>) returns (ok: bool)
      modifies this
      ensures (config, ok) == DeepUpdated(old(config), update)
    {
      config, ok := DeepUpdate(config, update);
    }

    static method DeepUpdate(base: seq<Field>, update: seq<Field>) returns (merged: seq<Field>, ok: bool)
      ensures (merged, ok) == DeepUpdated(base, update)
      decreases update
    {
      merged := base;
      for i := 0 to |update|
        invariant DeepUpdated(merged, update[i..]) == DeepUpdated(base, update)
      {
        var key, value := update[i].name, update[i].value;
        assert update[i..][0] == update[i] && update[i..][1..] == update[i + 1..];
        if value.Object? && Has(merged, key) {
          var target := Get(merged, key, Null);
          if target.Object? {
            var inner, fine := DeepUpdate(target.fields, value.fields);
            merged := Put(merged, key, Object(inner));
            if !fine {
              return merged, false;
            }
          } else if value.fields != [] {
            return merged, false;
          }
        } else {
          merged := Put(merged, key, value);
        }
      }
      ok := true;
    }

    method GetValue(key: string, fallback: Json) returns (value: Json)
      ensures value == match Lookup(Object(config), Paths.Split(key, '.')) case Some(v) => v case None => fallback
    {
      value := Object(config);
      var parts := Paths.Split(key, '.');
      for i := 0 to |parts|
        invariant Lookup(value, parts[i..]) == Lookup(Object(config), parts)
      {
        assert parts[i..][0] == parts[i] && parts[i..][1..] == parts[i + 1..];
        if !value.Object? || !Has(value.fields, parts[i]) {
          return fallback;
        }
        value := Get(value.fields, parts[i], Null);
      }
    }

    /** `set`; `ok` is false where the code raises `TypeError`. */
    method SetValue(key: string, value: Json) returns (ok: bool)
      modifies this
      ensures var next := SetAt(old(config), Paths.Split(key, '.'), value);
              ok == next.Some? && config == if ok then next.value else old(config)
    {
      var parts := Paths.Split(key, '.');
      var place, trail := config, [];
      for i := 0 to |parts| - 1
        invariant config == old(config)
        invariant SetAt(config, parts, value) == PutBack(trail, SetAt(place, parts[i..], value))
      {
        assert parts[i..][0] == parts[i] && parts[i..][1..] == parts[i + 1..];
        if !Has(place, parts[i]) {
          PutAgain(place, parts[i], Object([]));
          place := Put(place, parts[i], Object([]));
        }
        var next := Get(place, parts[i], Null);
        if !next.Object? {
          return false;
        }
        trail := trail + [(place, parts[i])];
        place := next.fields;
      }
      config := PutBack(trail, Some(Put(place, parts[|parts| - 1], value))).value;
      ok := true;
    }
  }
}
