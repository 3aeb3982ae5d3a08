/** The bounded in-memory cache (guardian/cache.py, lru_cache_safe). */
module LruCache {
  import opened Wrappers
  import opened Collections

  // ---------------------------------------------------------------- the compute log

  /** One run of the cached function and the time its result was stored. */
  datatype Computation<V> = Computation(key: string, stamp: real, value: V)

  function Without(keys: seq<string>, key: string): (r: seq<string>)
    ensures |r| <= |keys|
  {
    if keys == [] then []
    else (if keys[0] == key then [] else [keys[0]]) + Without(keys[1..], key)
  }

  /** Every key computed so far, once, in order of its last computation. */
  function ByLast<V>(computed: seq<Computation<V>>): seq<string> {
    if computed == [] then []
    else
      var key := computed[|computed| - 1].key;
      Without(ByLast(computed[..|computed| - 1]), key) + [key]
  }

  /** The last `maxsize` of them; 0 stands for "no bound". */
  function Keep(keys: seq<string>, maxsize: nat): seq<string> {
    if maxsize == 0 || |keys| <= maxsize then keys else keys[|keys| - maxsize..]
  }

  /** The last computation for a key. */
  function Last<V>(computed: seq<Computation<V>>, key: string): (r: Option<Computation<V>>)
    ensures r.Some? ==> r.value in computed && r.value.key == key
  {
    if computed == [] then None
    else if computed[|computed| - 1].key == key then Some(computed[|computed| - 1])
    else Last(computed[..|computed| - 1], key)
  }

  ghost predicate InOrder<V>(computed: seq<Computation<V>>) {
    forall i, j :: 0 <= i < j < |computed| ==> computed[i].stamp <= computed[j].stamp
  }

  lemma DistinctTail(keys: seq<string>)
    requires keys != [] && NoDuplicates(keys)
    ensures NoDuplicates(keys[1..]) && keys[0] !in keys[1..]
  {
  }

  lemma DistinctJoin(a: seq<string>, b: seq<string>)
    requires NoDuplicates(a) && NoDuplicates(b) && forall k :: k in a ==> k !in b
    ensures NoDuplicates(a + b)
  {
    forall i, j | 0 <= i < j < |a + b|
      ensures (a + b)[i] != (a + b)[j]
    {
      if i < |a| <= j {
        assert (a + b)[i] in a && (a + b)[j] in b;
      }
    }
  }

  lemma {:induction false} WithoutMembers(keys: seq<string>, key: string)
    requires NoDuplicates(keys)
    ensures NoDuplicates(Without(keys, key))
    ensures forall k :: k in Without(keys, key) <==> k in keys && k != key
  {
    if keys != [] {
      var rest := keys[1..];
      WithoutMembers(rest, key);
      assert keys == [keys[0]] + rest;
      DistinctTail(keys);
      if keys[0] != key {
        DistinctJoin([keys[0]], Without(rest, key));
      } else {
        assert [] + Without(rest, key) == Without(rest, key);
      }
    }
  }

  lemma {:induction false} WithoutAbsent(keys: seq<string>, key: string)
    requires key !in keys
    ensures Without(keys, key) == keys
  {
    if keys != [] {
      WithoutAbsent(keys[1..], key);
      assert keys == [keys[0]] + keys[1..];
    }
  }

  lemma {:induction false} WithoutConcat(a: seq<string>, b: seq<string>, key: string)
    ensures Without(a + b, key) == Without(a, key) + Without(b, key)
  {
    hide Without;
    if a == [] {
      assert a + b == b;
    } else {
      WithoutConcat(a[1..], b, key);
      WithoutStep(a, key);
      assert a + b != [] && (a + b)[0] == a[0] && (a + b)[1..] == a[1..] + b;
      WithoutStep(a + b, key);
    }
  }

  lemma WithoutStep(keys: seq<string>, key: string)
    requires keys != []
    ensures Without(keys, key) == (if keys[0] == key then [] else [keys[0]]) + Without(keys[1..], key)
  {
  }

  lemma {:induction false} WithoutOne(keys: seq<string>, key: string)
    requires NoDuplicates(keys) && key in keys
    ensures |Without(keys, key)| == |keys| - 1
  {
    if keys[0] == key {
      WithoutAbsent(keys[1..], key);
    } else {
      assert keys == [keys[0]] + keys[1..];
      WithoutOne(keys[1..], key);
    }
  }

  lemma {:induction false} ByLastDistinct<V>(computed: seq<Computation<V>>)
    ensures NoDuplicates(ByLast(computed))
    ensures forall k :: k in ByLast(computed) <==> Last(computed, k).Some?
  {
    if computed != [] {
      var init := computed[..|computed| - 1];
      ByLastDistinct(init);
      var key := computed[|computed| - 1].key;
      WithoutMembers(ByLast(init), key);
      DistinctJoin(Without(ByLast(init), key), [key]);
    }
  }

  /** The kept keys with one moved to the end are still the end of all keys with that one moved. */
  lemma MovedSuffix(all: seq<string>, key: string, maxsize: nat) returns (gone: seq<string>)
    requires NoDuplicates(all)
    ensures var kept := Keep(all, maxsize);
            && Without(all, key) + [key] == gone + (Without(kept, key) + [key])
            && |Without(kept, key)| <= |kept|
            && (gone == [] || (maxsize > 0 && |Without(kept, key)| + 1 >= maxsize))
  {
    var kept := Keep(all, maxsize);
    if kept == all {
      gone := [];
    } else {
      var cut := |all| - maxsize;
      gone := Without(all[..cut], key);
      assert all == all[..cut] + kept;
      WithoutConcat(all[..cut], kept, key);
      if key in kept {
        WithoutOne(kept, key);
      } else {
        WithoutAbsent(kept, key);
      }
    }
  }

  lemma InOrderNext<V>(computed: seq<Computation<V>>, c: Computation<V>)
    requires InOrder(computed) && forall d :: d in computed ==> d.stamp <= c.stamp
    ensures InOrder(computed + [c])
  {
  }

  lemma LastNext<V>(computed: seq<Computation<V>>, c: Computation<V>, key: string)
    ensures Last(computed + [c], key) == if key == c.key then Some(c) else Last(computed, key)
    ensures ByLast(computed + [c]) == Without(ByLast(computed), c.key) + [c.key]
  {
    assert (computed + [c])[..|computed|] == computed;
  }

  /** Keys computed later carry stamps that are no smaller. */
  lemma {:induction false} ByLastOrdered<V>(computed: seq<Computation<V>>, i: nat, j: nat)
    requires InOrder(computed) && i < j < |ByLast(computed)|
    ensures var keys := ByLast(computed);
            && Last(computed, keys[i]).Some? && Last(computed, keys[j]).Some?
            && Last(computed, keys[i]).value.stamp <= Last(computed, keys[j]).value.stamp
    decreases |computed|
  {
    var n := |computed| - 1;
    var init, last := computed[..n], computed[n];
    var older := ByLast(init);
    ByLastDistinct(computed);
    ByLastDistinct(init);
    WithoutMembers(older, last.key);
    var keys := ByLast(computed);
    assert keys == Without(older, last.key) + [last.key];
    assert keys[i] in Without(older, last.key);
    if j < |keys| - 1 {
      var x, y := WithoutPlaces(older, last.key, i, j);
      ByLastOrdered(init, x, y);
      assert keys[j] in Without(older, last.key);
    } else {
      assert Last(computed, keys[j]) == Some(last);
    }
  }

  /** Entries that stay keep their relative order. */
  lemma {:induction false} WithoutPlaces(keys: seq<string>, key: string, i: nat, j: nat) returns (x: nat, y: nat)
    requires i < j < |Without(keys, key)|
    ensures x < y < |keys| && keys[x] == Without(keys, key)[i] && keys[y] == Without(keys, key)[j]
  {
    var rest := keys[1..];
    if keys[0] == key {
      assert Without(keys, key) == Without(rest, key);
      x, y := WithoutPlaces(rest, key, i, j);
      x, y := x + 1, y + 1;
    } else {
      assert Without(keys, key) == [keys[0]] + Without(rest, key);
      if i > 0 {
        x, y := WithoutPlaces(rest, key, i - 1, j - 1);
        x, y := x + 1, y + 1;
      } else {
        y := WithoutPlace(rest, key, j - 1);
        x, y := 0, y + 1;
      }
    }
  }

  lemma {:induction false} WithoutPlace(keys: seq<string>, key: string, i: nat) returns (x: nat)
    requires i < |Without(keys, key)|
    ensures x < |keys| && keys[x] == Without(keys, key)[i]
  {
    if keys[0] == key {
      assert Without(keys, key) == Without(keys[1..], key);
      x := WithoutPlace(keys[1..], key, i);
      x := x + 1;
    } else if i == 0 {
      x := 0;
    } else {
      x := WithoutPlace(keys[1..], key, i - 1);
      x := x + 1;
    }
  }

  /** The keys are in order of the stamps of their last computations. */
  ghost predicate StampsInOrder<V>(keys: seq<string>, computed: seq<Computation<V>>) {
    && (forall k :: k in keys ==> Last(computed, k).Some?)
    && (forall i, j :: 0 <= i < j < |keys| ==>
          Last(computed, keys[i]).value.stamp <= Last(computed, keys[j]).value.stamp)
  }

  lemma ByLastInOrder<V>(computed: seq<Computation<V>>, gone: seq<string>, keys: seq<string>)
    requires InOrder(computed) && ByLast(computed) == gone + keys
    ensures StampsInOrder(keys, computed) && NoDuplicates(keys)
  {
    hide ByLast, Last, InOrder;
    ByLastDistinct(computed);
    var all := ByLast(computed);
    forall i | 0 <= i < |keys|
      ensures keys[i] == all[|gone| + i]
    {
    }
    forall i, j | 0 <= i < j < |keys|
      ensures Last(computed, keys[i]).value.stamp <= Last(computed, keys[j]).value.stamp
    {
      ByLastOrdered(computed, |gone| + i, |gone| + j);
    }
  }

  /** The keys after one more computation, before the bound is enforced, and the keys to be kept. */
  lemma Moved<V>(computed: seq<Computation<V>>, c: Computation<V>, maxsize: nat)
    requires InOrder(computed + [c])
    ensures var moved := Without(Keep(ByLast(computed), maxsize), c.key) + [c.key];
            && StampsInOrder(moved, computed + [c]) && NoDuplicates(moved)
            && Keep(ByLast(computed + [c]), maxsize)
               == (if maxsize != 0 && |moved| > maxsize then moved[1..] else moved)
  {
    hide ByLast, Last, InOrder, Without;
    ByLastDistinct(computed);
    LastNext(computed, c, c.key);
    var all, kept := ByLast(computed), Keep(ByLast(computed), maxsize);
    var gone := MovedSuffix(all, c.key, maxsize);
    var moved := Without(kept, c.key) + [c.key];
    ByLastInOrder(computed + [c], gone, moved);
  }

  // ---------------------------------------------------------------- the cache

  datatype Cell<V> = Cell(value: V, stamp: real)

  /** The dictionary holds the last computation of each key in the list. */
  ghost predicate Mirrors<V>(cells: map<string, Cell<V>>, keys: seq<string>, computed: seq<Computation<V>>) {
    && (forall k :: k in keys <==> k in cells)
    && (forall k :: k in cells ==>
          Last(computed, k).Some? && cells[k] == Cell(Last(computed, k).value.value, Last(computed, k).value.stamp))
  }

  lemma MirrorsNext<V>(cells: map<string, Cell<V>>, keys: seq<string>, computed: seq<Computation<V>>, c: Computation<V>)
    requires Mirrors(cells, keys, computed) && NoDuplicates(keys)
    ensures Mirrors((cells - {c.key})[c.key := Cell(c.value, c.stamp)], Without(keys, c.key) + [c.key], computed + [c])
  {
    hide Without, Last;
    WithoutMembers(keys, c.key);
    var next := (cells - {c.key})[c.key := Cell(c.value, c.stamp)];
    forall k | k in next
      ensures Last(computed + [c], k) == if k == c.key then Some(c) else Last(computed, k)
    {
      LastNext(computed, c, k);
    }
  }

  lemma MirrorsRest<V>(cells: map<string, Cell<V>>, keys: seq<string>, computed: seq<Computation<V>>)
    requires Mirrors(cells, keys, computed) && NoDuplicates(keys) && keys != []
    ensures Mirrors(cells - {keys[0]}, keys[1..], computed) && NoDuplicates(keys[1..])
  {
    DistinctTail(keys);
    assert keys == [keys[0]] + keys[1..];
  }

  /** The first key with the smallest stamp is the one at index `i`. */
  ghost predicate FirstSmallest<V>(cells: map<string, Cell<V>>, keys: seq<string>, i: nat) {
    && i < |keys| && (forall k :: k in keys ==> k in cells)
    && (forall j :: 0 <= j < i ==> cells[keys[j]].stamp > cells[keys[i]].stamp)
    && (forall j :: i <= j < |keys| ==> cells[keys[j]].stamp >= cells[keys[i]].stamp)
  }

  lemma KeysInCells<V>(cells: map<string, Cell<V>>, keys: seq<string>, computed: seq<Computation<V>>)
    requires Mirrors(cells, keys, computed)
    ensures forall k :: k in keys ==> k in cells
  {
  }

  lemma HeldKeys<V>(cells: map<string, Cell<V>>, keys: seq<string>, computed: seq<Computation<V>>, key: string)
    requires Mirrors(cells, keys, computed)
    ensures key in cells <==> key in keys
    ensures key in cells ==>
              Last(computed, key).Some? && cells[key].value == Last(computed, key).value.value
              && cells[key].stamp == Last(computed, key).value.stamp
  {
  }

  lemma SmallestIsFirst<V>(cells: map<string, Cell<V>>, keys: seq<string>, computed: seq<Computation<V>>, i: nat)
    requires FirstSmallest(cells, keys, i) && StampsInOrder(keys, computed) && Mirrors(cells, keys, computed)
    ensures i == 0
  {
    hide Last;
    assert keys[0] in cells && keys[i] in cells;
    assert cells[keys[0]].stamp <= cells[keys[i]].stamp;
  }

  /**
   The cell is stored last and every other key keeps its cell. No more than `maxsize` keys stay; none is dropped
   while there is room or the key was there, and one that is dropped is no younger than any that stays.
   */
  ghost predicate Stores<V>(before: map<string, Cell<V>>, kept: seq<string>, after: map<string, Cell<V>>,
                            order: seq<string>, key: string, cell: Cell<V>, maxsize: nat) {
    && key in after && after[key] == cell && order != [] && order[|order| - 1] == key
    && (forall k :: k in after && k != key ==> k in before && after[k] == before[k])
    && (maxsize != 0 ==> |order| <= maxsize)
    && (key in before || maxsize == 0 || |kept| < maxsize ==> before.Keys <= after.Keys)
    && (forall gone, k :: gone in before && gone !in after && k in after && k != key ==>
          before[gone].stamp <= before[k].stamp)
  }

  lemma KeptInOrder<V>(computed: seq<Computation<V>>, maxsize: nat)
    requires InOrder(computed)
    ensures StampsInOrder(Keep(ByLast(computed), maxsize), computed)
    ensures maxsize != 0 ==> |Keep(ByLast(computed), maxsize)| <= maxsize
  {
    hide ByLast, Last, InOrder, StampsInOrder;
    var all, kept := ByLast(computed), Keep(ByLast(computed), maxsize);
    var gone := all[..|all| - |kept|];
    assert all == gone + kept;
    ByLastInOrder(computed, gone, kept);
  }

  lemma StoresMoved<V>(held: map<string, Cell<V>>, kept: seq<string>, computed: seq<Computation<V>>, key: string,
                       cell: Cell<V>, maxsize: nat)
    requires Mirrors(held, kept, computed) && NoDuplicates(kept) && StampsInOrder(kept, computed)
    requires maxsize != 0 ==> |kept| <= maxsize
    ensures var all, moved := (held - {key})[key := cell], Without(kept, key) + [key];
            if maxsize != 0 && |moved| > maxsize
            then Stores(held, kept, all - {moved[0]}, moved[1..], key, cell, maxsize)
            else Stores(held, kept, all, moved, key, cell, maxsize)
  {
    hide Without, Last;
    if key in kept {
      WithoutOne(kept, key);
    } else {
      WithoutAbsent(kept, key);
      if maxsize != 0 && |kept| + 1 > maxsize {
        var all := (held - {key})[key := cell];
        assert (kept + [key])[0] == kept[0] && kept[0] in held;
        forall k | k in held && k != kept[0]
          ensures held[kept[0]].stamp <= held[k].stamp
        {
          var i :| 0 <= i < |kept| && kept[i] == k;
        }
      }
    }
  }

  class Cache<V> {
    const maxsize: nat
    const expire: real
    /** The dictionary, and its keys in insertion order. */
    var cells: map<string, Cell<V>>
    var order: seq<string>
    /** Every run of the cached function so far. */
    ghost var computed: seq<Computation<V>>

    ghost predicate Valid()
      reads this
    {
      InOrder(computed) && order == Keep(ByLast(computed), maxsize) && NoDuplicates(order)
          && Mirrors(cells, order, computed)
    }

    constructor (maxsize: nat, expire: real)
      ensures Valid() && computed == [] && this.maxsize == maxsize && this.expire == expire
    {
      this.maxsize := maxsize;
      this.expire := expire;
      cells := map[];
      order := [];
      computed := [];
    }

    /** The entry a call may return without running the function. */
    ghost predicate Hit(key: string, now: real)
      reads this
    {
      && key in Keep(ByLast(computed), maxsize)
      && Last(computed, key).Some? && now - Last(computed, key).value.stamp < expire
    }

    /**
     One call: `now` is the clock when an entry is checked, `done` when the result is stored and `result`
     what the function gives if it is run.
     */
    method Invoke(key: string, now: real, done: real, result: V) returns (value: V)
      requires Valid()
      requires now <= done && forall c :: c in computed ==> c.stamp <= now
      modifies this
      ensures Valid()
      ensures computed == if old(Hit(key, now)) then old(computed) else old(computed) + [Computation(key, done, result)]
      ensures value == if old(Hit(key, now)) then Last(old(computed), key).value.value else result
      ensures Last(computed, key).Some? && Last(computed, key).value.value == value && key in cells
      ensures if key in old(cells) && now - old(cells)[key].stamp < expire
              then cells == old(cells) && order == old(order) && value == cells[key].value
              else value == result && Stores(old(cells), old(order), cells, order, key, Cell(result, done), maxsize)
    {
      hide Keep, ByLast, Last, InOrder, Without, NoDuplicates, Mirrors, StampsInOrder, Stores;
      HeldKeys(cells, order, computed, key);
      ghost var was, kept, held := computed, order, cells;
      ghost var c := Computation(key, done, result);
      if key in cells {
        if now - cells[key].stamp < expire {
          return cells[key].value;
        }
        cells := cells - {key};
        order := Without(order, key);
      } else {
        WithoutAbsent(order, key);
        assert cells - {key} == cells;
      }
      value := result;
      cells := cells[key := Cell(value, done)];
      order := order + [key];
      computed := computed + [c];
      InOrderNext(was, c);
      Moved(was, c, maxsize);
      MirrorsNext(held, kept, was, c);
      LastNext(was, c, key);
      KeptInOrder(was, maxsize);
      StoresMoved(held, kept, was, key, Cell(result, done), maxsize);
      if maxsize != 0 && |order| > maxsize {
        EvictOldest();
      }
      assert order[|order| - 1] == key;
      HeldKeys(cells, order, computed, key);
    }

    /** Remove the key that `min` finds: the first one. */
    method EvictOldest()
      requires order != [] && NoDuplicates(order) && Mirrors(cells, order, computed) && StampsInOrder(order, computed)
      modifies this
      ensures computed == old(computed) && order == old(order)[1..] && cells == old(cells) - {old(order)[0]}
      ensures Mirrors(cells, order, computed) && NoDuplicates(order)
    {
      hide Last, NoDuplicates, Mirrors, StampsInOrder, Without, FirstSmallest;
      KeysInCells(cells, order, computed);
      var oldest := OldestKey();
      ghost var i: nat :| i < |order| && FirstSmallest(cells, order, i) && order[i] == oldest;
      SmallestIsFirst(cells, order, computed, i);
      MirrorsRest(cells, order, computed);
      DistinctTail(order);
      WithoutAbsent(order[1..], oldest);
      WithoutStep(order, oldest);
      cells := cells - {oldest};
      order := Without(order, oldest);
    }

    /** `min` over the keys in insertion order: the first key with the smallest stamp. */
    method OldestKey() returns (oldest: string)
      requires order != [] && forall k :: k in order ==> k in cells
      ensures exists i: nat :: i < |order| && FirstSmallest(cells, order, i) && order[i] == oldest
    {
      var i := 0;
      for n := 1 to |order|
        invariant 0 <= i < n
        invariant forall j :: 0 <= j < i ==> cells[order[j]].stamp > cells[order[i]].stamp
        invariant forall j :: i <= j < n ==> cells[order[j]].stamp >= cells[order[i]].stamp
      {
        if cells[order[n]].stamp < cells[order[i]].stamp {
          i := n;
        }
      }
      oldest := order[i];
      assert FirstSmallest(cells, order, i);
    }
  }
}
