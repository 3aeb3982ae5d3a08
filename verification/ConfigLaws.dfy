/** Laws of the deep merge and of dotted paths, as laws of trees. */
module ConfigLaws {
  import opened Wrappers
  import opened Json
  import opened Config
  import Paths

  // ---------------------------------------------------------------- one dictionary

  /** Storing under a key changes that key alone. */
  lemma {:induction false} PutLaws(fields: seq<Field>, key: string, value: Json, k: string)
    ensures Has(Put(fields, key, value), k) <==> k == key || Has(fields, k)
    ensures Get(Put(fields, key, value), k, Null) == if k == key then value else Get(fields, k, Null)
  {
    var next := Put(fields, key, value);
    HasRest(next, k);
    if fields == [] {
      assert next[1..] == [];
    } else {
      HasRest(fields, k);
      if fields[0].name == key {
        assert next[1..] == fields[1..];
      } else {
        PutLaws(fields[1..], key, value, k);
        assert next[1..] == Put(fields[1..], key, value);
      }
    }
  }

  /** The keys in their order. */
  function Names(fields: seq<Field>): (r: seq<string>)
    ensures |r| == |fields| && forall i :: 0 <= i < |fields| ==> r[i] == fields[i].name
  {
    seq(|fields|, i requires 0 <= i < |fields| => fields[i].name)
  }

  /** Storing under a key leaves the order of the keys; a new one comes last. */
  lemma {:induction false} PutOrder(fields: seq<Field>, key: string, value: Json)
    ensures Names(Put(fields, key, value)) == Names(fields) + (if Has(fields, key) then [] else [key])
  {
    if fields == [] {
    } else {
      HasRest(fields, key);
      if fields[0].name != key {
        PutOrder(fields[1..], key, value);
        assert Names(fields) == [fields[0].name] + Names(fields[1..]);
        assert Names(Put(fields, key, value)) == [fields[0].name] + Names(Put(fields[1..], key, value));
      }
    }
  }

  lemma MergedOrder(base: seq<Field>, item: Field)
    ensures Names(base) <= Names(Merged(base, item).0)
    ensures Merged(base, item).1 ==>
              Names(Merged(base, item).0) == Names(base) + (if Has(base, item.name) then [] else [item.name])
  {
    hide DeepUpdated, Put;
    if item.value.Object? && Has(base, item.name) {
      var target := Get(base, item.name, Null);
      if target.Object? {
        PutOrder(base, item.name, Object(DeepUpdated(target.fields, item.value.fields).0));
      }
    } else {
      PutOrder(base, item.name, item.value);
    }
  }

  /** A merge, even one that fails, keeps the keys in their order and adds new ones after them. */
  lemma {:induction false} OrderKept(base: seq<Field>, update: seq<Field>)
    ensures Names(base) <= Names(DeepUpdated(base, update).0)
    decreases |update|
  {
    hide Merged, Names;
    if update != [] {
      MergedOrder(base, update[0]);
      OrderKept(Merged(base, update[0]).0, update[1..]);
    }
  }

  lemma {:induction false} PutSame(fields: seq<Field>, key: string)
    requires Has(fields, key)
    ensures Put(fields, key, Get(fields, key, Null)) == fields
  {
    HasRest(fields, key);
    if fields[0].name != key {
      PutSame(fields[1..], key);
    }
    assert fields == [fields[0]] + fields[1..];
  }

  // ---------------------------------------------------------------- dotted paths

  /** Setting a path fails exactly when a proper part of it holds something other than a dictionary. */
  lemma {:induction false} SetFailsIff(fields: seq<Field>, path: seq<string>, value: Json)
    requires path != []
    ensures SetAt(fields, path, value).None? <==> exists n :: 0 < n < |path| && Blocked(fields, path[..n])
    decreases |path|
  {
    if |path| > 1 {
      var present := Has(fields, path[0]);
      var next := if present then Get(fields, path[0], Null) else Object([]);
      var rest := path[1..];
      if next.Object? {
        SetFailsIff(next.fields, rest, value);
        forall n | 0 < n < |rest|
          ensures Blocked(next.fields, rest[..n]) <==> Blocked(fields, path[..n + 1])
        {
          BlockedBelow(fields, path[..n + 1]);
          assert path[..n + 1][1..] == rest[..n];
          if !present {
            EmptyHasNothing(rest[..n]);
          }
        }
        BlockedAtOne(fields, path[0]);
        assert path[..1] == [path[0]];
        if n :| 0 < n < |path| && Blocked(fields, path[..n]) {
          assert n != 1;
          assert Blocked(next.fields, rest[..n - 1]);
        }
        if n :| 0 < n < |rest| && Blocked(next.fields, rest[..n]) {
          assert Blocked(fields, path[..n + 1]);
        }
      } else {
        BlockedAtOne(fields, path[0]);
        assert path[..1] == [path[0]];
        assert Blocked(fields, path[..1]);
      }
    }
  }

  /** The path holds something that is not a dictionary. */
  predicate Blocked(fields: seq<Field>, path: seq<string>) {
    var found := Lookup(Object(fields), path);
    found.Some? && !found.value.Object?
  }

  lemma BlockedBelow(fields: seq<Field>, path: seq<string>)
    requires |path| > 1
    ensures Has(fields, path[0]) && Get(fields, path[0], Null).Object? ==>
              (Blocked(fields, path) <==> Blocked(Get(fields, path[0], Null).fields, path[1..]))
    ensures !Has(fields, path[0]) ==> !Blocked(fields, path)
  {
  }

  lemma BlockedAtOne(fields: seq<Field>, key: string)
    ensures Blocked(fields, [key]) <==> Has(fields, key) && !Get(fields, key, Null).Object?
  {
    LookupStep(Object(fields), [key]);
    var rest := [key][1..];
    assert rest == [];
  }

  lemma EmptyHasNothing(path: seq<string>)
    requires path != []
    ensures !Blocked([], path)
  {
  }

  /** What was set is what is found. */
  lemma {:induction false} SetThenGet(fields: seq<Field>, path: seq<string>, value: Json)
    requires path != [] && SetAt(fields, path, value).Some?
    ensures Lookup(Object(SetAt(fields, path, value).value), path) == Some(value)
    decreases |path|
  {
    if |path| == 1 {
      PutLaws(fields, path[0], value, path[0]);
      assert path[1..] == [];
    } else {
      var next := if Has(fields, path[0]) then Get(fields, path[0], Null) else Object([]);
      SetThenGet(next.fields, path[1..], value);
      var inner := SetAt(next.fields, path[1..], value).value;
      PutLaws(fields, path[0], Object(inner), path[0]);
    }
  }

  /** Paths of which neither leads through the other. */
  predicate Unrelated(p: seq<string>, q: seq<string>) { !(p <= q) && !(q <= p) }

  /** Setting a path leaves every path unrelated to it as it was. */
  lemma {:induction false} SetLeavesOthers(fields: seq<Field>, path: seq<string>, value: Json, other: seq<string>)
    requires path != [] && SetAt(fields, path, value).Some? && Unrelated(path, other)
    ensures Lookup(Object(SetAt(fields, path, value).value), other) == Lookup(Object(fields), other)
    decreases |path|
  {
    var key := path[0];
    if other[0] != key {
      if |path| == 1 {
        PutLaws(fields, key, value, other[0]);
      } else {
        var next := if Has(fields, key) then Get(fields, key, Null) else Object([]);
        PutLaws(fields, key, Object(SetAt(next.fields, path[1..], value).value), other[0]);
      }
    } else {
      assert [key] <= other;
      var next := if Has(fields, key) then Get(fields, key, Null) else Object([]);
      var inner := SetAt(next.fields, path[1..], value).value;
      RestUnrelated(path, other);
      SetLeavesOthers(next.fields, path[1..], value, other[1..]);
      PutLaws(fields, key, Object(inner), key);
    }
  }

  lemma RestUnrelated(p: seq<string>, q: seq<string>)
    requires p != [] && q != [] && p[0] == q[0] && Unrelated(p, q)
    ensures |p| > 1 && |q| > 1 && Unrelated(p[1..], q[1..])
  {
    assert p == [p[0]] + p[1..] && q == [q[0]] + q[1..];
  }

  /** The same in dotted keys: the parts between the dots. */
  lemma DottedSetGet(fields: seq<Field>, parts: seq<string>, value: Json)
    requires parts != [] && forall p :: p in parts ==> '.' !in p
    requires SetAt(fields, parts, value).Some?
    ensures var key := Paths.Join(parts, '.');
            && Paths.Split(key, '.') == parts
            && Lookup(Object(SetAt(fields, Paths.Split(key, '.'), value).value), Paths.Split(key, '.')) == Some(value)
  {
    Paths.SplitJoin(parts, '.');
    SetThenGet(fields, parts, value);
  }

  // ---------------------------------------------------------------- the merge, key by key

  /** Every dictionary holds each key once. */
  predicate Keyed(j: Json)
    decreases j
  {
    j.Object? ==> KeyedFields(j.fields)
  }

  predicate KeyedFields(fields: seq<Field>)
    decreases fields
  {
    fields == [] || (!Has(fields[1..], fields[0].name) && Keyed(fields[0].value) && KeyedFields(fields[1..]))
  }

  /** What merging an item's value leaves under its key, and whether that merge runs to its end. */
  function Under(base: seq<Field>, item: Field): (Json, bool) {
    if item.value.Object? && Has(base, item.name) then
      var target := Get(base, item.name, Null);
      if target.Object? then
        var inner := DeepUpdated(target.fields, item.value.fields);
        (Object(inner.0), inner.1)
      else (target, item.value.fields == [])
    else (item.value, true)
  }

  predicate SameAt(a: seq<Field>, b: seq<Field>, k: string) {
    (Has(a, k) <==> Has(b, k)) && Get(a, k, Null) == Get(b, k, Null)
  }

  /** One item changes its own key only. */
  lemma MergedLaws(base: seq<Field>, item: Field, k: string)
    ensures var next := Merged(base, item);
            && next.1 == Under(base, item).1
            && (k != item.name ==> SameAt(next.0, base, k))
            && Has(next.0, item.name) && Get(next.0, item.name, Null) == Under(base, item).0
  {
    hide DeepUpdated;
    var value := Under(base, item).0;
    PutLaws(base, item.name, value, k);
    PutLaws(base, item.name, value, item.name);
  }

  lemma UnderSame(a: seq<Field>, b: seq<Field>, item: Field)
    requires SameAt(a, b, item.name)
    ensures Under(a, item) == Under(b, item)
  {
  }

  /** Keys outside the update keep their values, even when the merge fails half-way. */
  lemma {:induction false} OtherKeys(base: seq<Field>, update: seq<Field>, k: string)
    requires !Has(update, k)
    ensures SameAt(DeepUpdated(base, update).0, base, k)
    decreases |update|
  {
    hide Merged;
    if update != [] {
      HasRest(update, k);
      MergedLaws(base, update[0], k);
      if Merged(base, update[0]).1 {
        OtherKeys(Merged(base, update[0]).0, update[1..], k);
      }
    }
  }

  /** A key of the update ends as its item leaves it; a merge that fails may not have got there. */
  lemma {:induction false} KeyOfUpdate(base: seq<Field>, update: seq<Field>, i: nat)
    requires i < |update| && KeyedFields(update)
    ensures var r, item := DeepUpdated(base, update), update[i];
            && ((Has(r.0, item.name) && Get(r.0, item.name, Null) == Under(base, item).0)
                || (!r.1 && SameAt(r.0, base, item.name)))
            && (r.1 ==> Under(base, item).1)
    decreases |update|
  {
    hide Merged, Under, Keyed;
    var item, step := update[i], Merged(base, update[0]);
    MergedLaws(base, update[0], item.name);
    if i == 0 {
      if step.1 {
        OtherKeys(step.0, update[1..], item.name);
      }
    } else {
      assert update[1..][i - 1] == item;
      HasByIndex(update[1..], i - 1);
      if step.1 {
        KeyOfUpdate(step.0, update[1..], i - 1);
        UnderSame(step.0, base, item);
      }
    }
  }

  lemma HasByIndex(fields: seq<Field>, i: nat)
    requires i < |fields|
    ensures Has(fields, fields[i].name)
  {
  }

  lemma {:induction false} GetByIndex(fields: seq<Field>, i: nat)
    requires i < |fields| && KeyedFields(fields)
    ensures Get(fields, fields[i].name, Null) == fields[i].value && Keyed(fields[i].value)
  {
    if i > 0 {
      HasByIndex(fields[1..], i - 1);
      GetByIndex(fields[1..], i - 1);
    }
  }

  /** The index of a key in a dictionary. */
  lemma IndexOf(fields: seq<Field>, k: string) returns (i: nat)
    requires Has(fields, k) && KeyedFields(fields)
    ensures i < |fields| && fields[i].name == k && fields[i].value == Get(fields, k, Null) && Keyed(fields[i].value)
  {
    i :| 0 <= i < |fields| && fields[i].name == k;
    GetByIndex(fields, i);
  }

  // ---------------------------------------------------------------- the merge, path by path

  lemma LookupStep(j: Json, path: seq<string>)
    requires path != []
    ensures Lookup(j, path) == if j.Object? && Has(j.fields, path[0])
            then Lookup(Get(j.fields, path[0], Null), path[1..]) else None
  {
  }

  /** After a merge that ran to its end every leaf of the update is found at its path. */
  lemma {:induction false} LeavesAreRead(base: seq<Field>, update: seq<Field>, path: seq<string>)
    requires KeyedFields(update) && DeepUpdated(base, update).1
    requires Lookup(Object(update), path).Some? && !Lookup(Object(update), path).value.Object?
    ensures Lookup(Object(DeepUpdated(base, update).0), path) == Lookup(Object(update), path)
    decreases |path|
  {
    hide DeepUpdated, KeyedFields;
    var k := path[0];
    var i := IndexOf(update, k);
    KeyOfUpdate(base, update, i);
    var value := update[i].value;
    LookupStep(Object(update), path);
    LookupStep(Object(DeepUpdated(base, update).0), path);
    if value.Object? && Has(base, k) {
      assert path[1..] != [];
      var target := Get(base, k, Null);
      if target.Object? {
        LeavesAreRead(target.fields, value.fields, path[1..]);
      }
    }
  }

  /** Walking the path leaves the update at a missing key: the update does not mention it. */
  predicate Avoids(update: Json, path: seq<string>)
    decreases |path|
  {
    path != [] && update.Object?
    && (!Has(update.fields, path[0]) || Avoids(Get(update.fields, path[0], Null), path[1..]))
  }

  lemma {:induction false} AvoidedIsAbsent(update: Json, path: seq<string>)
    requires Avoids(update, path)
    ensures Lookup(update, path) == None
    decreases |path|
  {
    if Has(update.fields, path[0]) {
      AvoidedIsAbsent(Get(update.fields, path[0], Null), path[1..]);
    }
  }

  /** Paths the update does not mention keep what they held, even when the merge fails half-way. */
  lemma {:induction false} OthersKept(base: seq<Field>, update: seq<Field>, path: seq<string>)
    requires KeyedFields(update) && Avoids(Object(update), path)
    ensures Lookup(Object(DeepUpdated(base, update).0), path) == Lookup(Object(base), path)
    decreases |path|
  {
    hide DeepUpdated, KeyedFields;
    var k, next := path[0], DeepUpdated(base, update).0;
    LookupStep(Object(next), path);
    LookupStep(Object(base), path);
    if !Has(update, k) {
      OtherKeys(base, update, k);
    } else {
      var i := IndexOf(update, k);
      KeyOfUpdate(base, update, i);
      var value := update[i].value;
      if Has(base, k) {
        var target := Get(base, k, Null);
        if target.Object? {
          OthersKept(target.fields, value.fields, path[1..]);
        }
      } else {
        AvoidedIsAbsent(value, path[1..]);
      }
    }
  }

  // ---------------------------------------------------------------- when the merge fails

  /** At this path a nonempty dictionary of the update meets something else in the base. */
  predicate Clash(base: Json, update: Json, path: seq<string>) {
    var b, u := Lookup(base, path), Lookup(update, path);
    b.Some? && u.Some? && !b.value.Object? && u.value.Object? && u.value.fields != []
  }

  lemma {:induction false} ClashFails(base: seq<Field>, update: seq<Field>, path: seq<string>)
    requires KeyedFields(update) && Clash(Object(base), Object(update), path)
    ensures !DeepUpdated(base, update).1
    decreases |path|
  {
    hide DeepUpdated, KeyedFields;
    var k := path[0];
    LookupStep(Object(base), path);
    LookupStep(Object(update), path);
    var i := IndexOf(update, k);
    KeyOfUpdate(base, update, i);
    var target, value := Get(base, k, Null), update[i].value;
    if path[1..] != [] {
      ClashBelow(target, value, path[1..]);
      ClashFails(target.fields, value.fields, path[1..]);
    }
  }

  lemma ClashBelow(base: Json, update: Json, path: seq<string>)
    requires path != [] && Clash(base, update, path)
    ensures base.Object? && update.Object?
  {
  }

  lemma {:induction false} FailureClashes(base: seq<Field>, update: seq<Field>) returns (path: seq<string>)
    requires KeyedFields(update) && !DeepUpdated(base, update).1
    ensures Clash(Object(base), Object(update), path)
    decreases update
  {
    var item, step := update[0], Merged(base, update[0]);
    HasByIndex(update, 0);
    MergedLaws(base, item, item.name);
    if !step.1 {
      path := ItemClashes(base, item);
      LookupStep(Object(update), [item.name] + path);
      LookupStep(Object(base), [item.name] + path);
      assert ([item.name] + path)[1..] == path;
      path := [item.name] + path;
    } else {
      path := FailureClashes(step.0, update[1..]);
      LookupStep(Object(step.0), path);
      LookupStep(Object(base), path);
      LookupStep(Object(update), path);
      LookupStep(Object(update[1..]), path);
      HasRest(update, path[0]);
      MergedLaws(base, item, path[0]);
    }
  }

  lemma {:induction false} ItemClashes(base: seq<Field>, item: Field) returns (path: seq<string>)
    requires Keyed(item.value) && !Merged(base, item).1
    ensures Has(base, item.name) && Clash(Get(base, item.name, Null), item.value, path)
    decreases item
  {
    var target := Get(base, item.name, Null);
    if target.Object? {
      path := FailureClashes(target.fields, item.value.fields);
      assert Object(target.fields) == target && Object(item.value.fields) == item.value;
    } else {
      path := [];
    }
  }

  /** The merge fails exactly when somewhere a nonempty dictionary of the update meets something else. */
  lemma MergeFailsIff(base: seq<Field>, update: seq<Field>)
    requires KeyedFields(update)
    ensures !DeepUpdated(base, update).1 <==> exists path :: Clash(Object(base), Object(update), path)
  {
    hide DeepUpdated, KeyedFields, Clash;
    if !DeepUpdated(base, update).1 {
      var path := FailureClashes(base, update);
    }
    if path :| Clash(Object(base), Object(update), path) {
      ClashFails(base, update, path);
    }
  }

  // ---------------------------------------------------------------- merging again

  /** An item that the base already has as the merge would leave it. */
  predicate Absorbed(base: seq<Field>, item: Field) {
    && Has(base, item.name)
    && if item.value.Object? then
         var target := Get(base, item.name, Null);
         if target.Object? then DeepUpdated(target.fields, item.value.fields) == (target.fields, true)
         else item.value.fields == []
       else Get(base, item.name, Null) == item.value
  }

  lemma AbsorbedStays(base: seq<Field>, item: Field)
    requires Absorbed(base, item)
    ensures Merged(base, item) == (base, true)
  {
    hide DeepUpdated;
    PutSame(base, item.name);
  }

  lemma {:induction false} AllAbsorbed(base: seq<Field>, update: seq<Field>)
    requires forall i :: 0 <= i < |update| ==> Absorbed(base, update[i])
    ensures DeepUpdated(base, update) == (base, true)
    decreases |update|
  {
    hide Absorbed, Merged;
    if update != [] {
      AbsorbedStays(base, update[0]);
      forall i | 0 <= i < |update[1..]|
        ensures Absorbed(base, update[1..][i])
      {
        assert update[1..][i] == update[i + 1];
      }
      AllAbsorbed(base, update[1..]);
    }
  }

  /** A dictionary merged into itself is unchanged. */
  lemma {:induction false} SelfAbsorbed(fields: seq<Field>)
    requires KeyedFields(fields)
    ensures DeepUpdated(fields, fields) == (fields, true)
    decreases fields
  {
    hide DeepUpdated;
    forall i | 0 <= i < |fields|
      ensures Absorbed(fields, fields[i])
    {
      HasByIndex(fields, i);
      GetByIndex(fields, i);
      if fields[i].value.Object? {
        SelfAbsorbed(fields[i].value.fields);
      }
    }
    AllAbsorbed(fields, fields);
  }

  /** Merging the same update again changes nothing. */
  lemma {:induction false} MergeIdempotent(base: seq<Field>, update: seq<Field>)
    requires KeyedFields(update) && DeepUpdated(base, update).1
    ensures DeepUpdated(DeepUpdated(base, update).0, update) == (DeepUpdated(base, update).0, true)
    decreases update
  {
    hide DeepUpdated;
    var next := DeepUpdated(base, update).0;
    forall i | 0 <= i < |update|
      ensures Absorbed(next, update[i])
    {
      var item := update[i];
      KeyOfUpdate(base, update, i);
      GetByIndex(update, i);
      if item.value.Object? {
        if Has(base, item.name) {
          var target := Get(base, item.name, Null);
          if target.Object? {
            MergeIdempotent(target.fields, item.value.fields);
          }
        } else {
          SelfAbsorbed(item.value.fields);
        }
      }
    }
    AllAbsorbed(next, update);
  }
}
