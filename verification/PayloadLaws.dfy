/** The payload walk finds every object within reach, and selection misses keys only when it must. */
module PayloadLaws {
  import opened Wrappers
  import opened Collections
  import opened Text
  import opened Json
  import opened Payload

  // ---------------------------------------------------------------- reach

  predicate IsWrapper(name: string) {
    || name == "result" || name == "output" || name == "response" || name == "data" || name == "message"
    || name == "content"
  }

  /**
   One opening: a list leads to its items, an object to what it first holds under each wrapper name, and a
   text that starts with a brace or bracket, blanks aside, to the value it decodes to.
   */
  ghost predicate Leads(from: Json, to: Json, decode: Decoder) {
    match from
    case Array(items) => to in items
    case Object(fields) => exists name :: IsWrapper(name) && FirstUnder(fields, name, to)
    case String(text) =>
      var inner := Strip(text);
      |inner| > 0 && (inner[0] == '{' || inner[0] == '[') && decode(inner) == Some(to)
    case _ => false
  }

  ghost predicate FirstUnder(fields: seq<Field>, name: string, value: Json) {
    exists i :: 0 <= i < |fields| && fields[i] == Field(name, value)
             && forall k :: 0 <= k < i ==> fields[k].name != name
  }

  lemma {:induction false} FirstUnderIff(fields: seq<Field>, name: string, value: Json)
    ensures FirstUnder(fields, name, value) <==> Has(fields, name) && Get(fields, name, Null) == value
  {
    if fields != [] {
      var rest := fields[1..];
      FirstUnderIff(rest, name, value);
      HasRest(fields, name);
      if fields[0].name == name {
        if Get(fields, name, Null) == value {
          assert fields[0] == Field(name, value);
        }
        if i :|
          && 0 <= i < |fields| && fields[i] == Field(name, value)
          && forall k :: 0 <= k < i ==> fields[k].name != name
        {
          assert i == 0;
        }
      } else {
        if i :| 0 <= i < |rest| && rest[i] == Field(name, value) && forall k :: 0 <= k < i ==> rest[k].name != name {
          assert fields[i + 1] == rest[i];
          assert forall k :: 0 < k < i + 1 ==> fields[k] == rest[k - 1];
        }
        if i :|
          && 0 <= i < |fields| && fields[i] == Field(name, value)
          && forall k :: 0 <= k < i ==> fields[k].name != name
        {
          assert rest[i - 1] == fields[i];
          assert forall k :: 0 <= k < i - 1 ==> rest[k] == fields[k + 1];
        }
      }
    }
  }

  lemma {:induction false} UnderMembers(fields: seq<Field>, names: seq<string>, x: Json)
    ensures x in Under(fields, names)
            <==> exists name :: name in names && Has(fields, name) && Get(fields, name, Null) == x
  {
    if names != [] {
      UnderMembers(fields, names[1..], x);
      assert forall name :: name in names <==> name == names[0] || name in names[1..];
    }
  }

  lemma WrapperNames(name: string)
    ensures name in WRAPPERS <==> IsWrapper(name)
  {
    assert name in WRAPPERS <==> exists i :: 0 <= i < 6 && WRAPPERS[i] == name;
    assert WRAPPERS[0] == "result" && WRAPPERS[1] == "output" && WRAPPERS[2] == "response" && WRAPPERS[3] == "data";
    assert WRAPPERS[4] == "message" && WRAPPERS[5] == "content";
  }

  /** What the walk opens a value to is what it leads to. */
  lemma InsideIff(from: Json, to: Json, decode: Decoder)
    ensures to in Inside(from, decode) <==> Leads(from, to, decode)
  {
    hide Strip, Under, FirstUnder, IsWrapper, WRAPPERS, Get;
    if from.Object? {
      UnderMembers(from.fields, WRAPPERS, to);
      forall name
        ensures name in WRAPPERS <==> IsWrapper(name)
        ensures FirstUnder(from.fields, name, to) <==> Has(from.fields, name) && Get(from.fields, name, Null) == to
      {
        WrapperNames(name);
        FirstUnderIff(from.fields, name, to);
      }
    }
  }

  /** `target` is reached from `from` in exactly `n` openings. */
  ghost predicate ReachedIn(from: Json, target: Json, n: nat, decode: Decoder)
    decreases n
  {
    if n == 0 then from == target
    else exists via :: Leads(from, via, decode) && ReachedIn(via, target, n - 1, decode)
  }

  ghost predicate Reached(from: Json, target: Json, decode: Decoder) {
    exists n: nat :: ReachedIn(from, target, n, decode)
  }

  ghost predicate ReachedFromAny(queue: seq<Json>, target: Json, decode: Decoder) {
    exists from :: from in queue && Reached(from, target, decode)
  }

  lemma ReachedItself(j: Json, decode: Decoder)
    ensures Reached(j, j, decode)
  {
    assert ReachedIn(j, j, 0, decode);
  }

  lemma ReachedThrough(from: Json, via: Json, target: Json, decode: Decoder)
    requires via in Inside(from, decode) && Reached(via, target, decode)
    ensures Reached(from, target, decode)
  {
    hide Leads, Inside;
    InsideIff(from, via, decode);
    var n: nat :| ReachedIn(via, target, n, decode);
    assert ReachedIn(from, target, n + 1, decode);
  }

  /** Nothing is collected that is out of reach, and only objects are. */
  lemma {:induction false} WalkSound(queue: seq<Json>, seen: set<string>, decode: Decoder, found: Json)
    requires Shrinks(decode) && found in Walk(queue, seen, decode)
    ensures found.Object? && ReachedFromAny(queue, found, decode)
    decreases WeightOf(queue)
  {
    hide Shrinks, Weight, Inside, ReachedIn, Noted;
    var current, rest := queue[0], queue[1..];
    assert queue == [current] + rest;
    if current.Object? && found == current {
      ReachedItself(current, decode);
    } else {
      var pushed := Pushed(current, seen, decode);
      PushedLighter(current, rest, seen, decode);
      WalkSound(rest + pushed, Noted(current, seen), decode, found);
      var from :| from in rest + pushed && Reached(from, found, decode);
      if from in pushed {
        ReachedThrough(current, from, found, decode);
      }
    }
  }

  /** What was visited leads only to what was visited or is queued; so do the texts already decoded. */
  ghost predicate Explored(visited: set<Json>, seen: set<string>, queue: seq<Json>, decode: Decoder) {
    && (forall d, x :: d in visited && x in Inside(d, decode) ==> x in visited || x in queue)
    && (forall t :: t in seen && decode(t).Some? ==> decode(t).value in visited || decode(t).value in queue)
  }

  lemma ExploredStep(visited: set<Json>, seen: set<string>, queue: seq<Json>, decode: Decoder)
    requires queue != [] && Explored(visited, seen, queue, decode)
    ensures Explored(visited + {queue[0]}, Noted(queue[0], seen), queue[1..] + Pushed(queue[0], seen, decode), decode)
  {
    hide Strip, Bracketed, Under;
    var current, rest := queue[0], queue[1..];
    var pushed := Pushed(current, seen, decode);
    assert queue == [current] + rest;
    var next, visitedNext := rest + pushed, visited + {current};
    forall x | x in queue
      ensures x in visitedNext || x in next
    {
    }
    forall x | x in Inside(current, decode)
      ensures x in visitedNext || x in next
    {
      if x !in pushed {
        assert current.String? && Strip(current.text) in seen && x == decode(Strip(current.text)).value;
      }
    }
    forall t | t in Noted(current, seen) && decode(t).Some?
      ensures decode(t).value in visitedNext || decode(t).value in next
    {
      if t !in seen {
        assert decode(t).value in Inside(current, decode);
      }
    }
  }

  lemma {:induction false} ClosedReach(visited: set<Json>, from: Json, target: Json, n: nat, decode: Decoder)
    requires Explored(visited, {}, [], decode) && from in visited && ReachedIn(from, target, n, decode)
    ensures target in visited
    decreases n
  {
    hide Inside, Leads;
    if n > 0 {
      var via :| Leads(from, via, decode) && ReachedIn(via, target, n - 1, decode);
      InsideIff(from, via, decode);
      ClosedReach(visited, via, target, n - 1, decode);
    }
  }

  /** Every object within reach of the visited values and the queue is visited or still collected. */
  lemma {:induction false} WalkCovers(queue: seq<Json>, seen: set<string>, visited: set<Json>, decode: Decoder,
                                      from: Json, target: Json)
    requires Shrinks(decode) && Explored(visited, seen, queue, decode)
    requires (from in visited || from in queue) && Reached(from, target, decode) && target.Object?
    ensures target in visited || target in Walk(queue, seen, decode)
    decreases WeightOf(queue)
  {
    hide Shrinks, Weight, Inside, ReachedIn, Pushed, Noted;
    if queue == [] {
      var n: nat :| ReachedIn(from, target, n, decode);
      ClosedReach(visited, from, target, n, decode);
    } else {
      var current, rest := queue[0], queue[1..];
      assert queue == [current] + rest;
      PushedLighter(current, rest, seen, decode);
      ExploredStep(visited, seen, queue, decode);
      assert from in queue ==> from == current || from in rest;
      WalkCovers(rest + Pushed(current, seen, decode), Noted(current, seen), visited + {current}, decode, from, target);
    }
  }

  /** The candidates are exactly the objects within reach of the provider's value. */
  lemma WalkIsReach(raw: Json, decode: Decoder, j: Json)
    requires Shrinks(decode)
    ensures j in Walk([raw], {}, decode) <==> j.Object? && Reached(raw, j, decode)
  {
    hide Shrinks, Inside, ReachedIn, Walk;
    if j in Walk([raw], {}, decode) {
      WalkSound([raw], {}, decode, j);
    }
    if j.Object? && Reached(raw, j, decode) {
      WalkCovers([raw], {}, {}, decode, raw, j);
    }
  }

  // ---------------------------------------------------------------- nearer objects come first

  /** How many openings away each collected object was found; `ds` says it of the queue. */
  ghost function Depths(queue: seq<Json>, ds: seq<nat>, seen: set<string>, decode: Decoder): seq<nat>
    requires Shrinks(decode) && |ds| == |queue|
    decreases WeightOf(queue)
  {
    if queue == [] then []
    else
      var current, rest := queue[0], queue[1..];
      PushedLighter(current, rest, seen, decode);
      assert queue == [current] + rest;
      var pushed := Pushed(current, seen, decode);
      (if current.Object? then [ds[0]] else [])
      + Depths(rest + pushed, ds[1..] + OneDeeper(|pushed|, ds[0]), Noted(current, seen), decode)
  }

  ghost function OneDeeper(n: nat, depth: nat): (r: seq<nat>)
    ensures |r| == n && forall i :: 0 <= i < n ==> r[i] == depth + 1
  {
    seq(n, i => depth + 1)
  }

  /** The queue is in order of depth and spans at most two depths. */
  ghost predicate InLevels(ds: seq<nat>) {
    && (forall i, j :: 0 <= i < j < |ds| ==> ds[i] <= ds[j])
    && (ds != [] ==> ds[|ds| - 1] <= ds[0] + 1)
  }

  ghost predicate Climbs(ds: seq<nat>) { forall i, j :: 0 <= i < j < |ds| ==> ds[i] <= ds[j] }

  lemma LevelsStep(ds: seq<nat>, n: nat)
    requires ds != [] && InLevels(ds)
    ensures var next := ds[1..] + OneDeeper(n, ds[0]);
            InLevels(next) && (next != [] ==> ds[0] <= next[0])
  {
    var next := ds[1..] + OneDeeper(n, ds[0]);
    forall i | 0 <= i < |ds|
      ensures ds[0] <= ds[i] <= ds[0] + 1
    {
    }
    forall i, j | 0 <= i < j < |next|
      ensures next[i] <= next[j]
    {
      if j < |ds| - 1 {
        assert next[i] == ds[i + 1] && next[j] == ds[j + 1];
      } else if i < |ds| - 1 {
        assert next[i] == ds[i + 1] <= ds[0] + 1 == next[j];
      }
    }
  }

  /** Objects are collected in order of depth. */
  lemma {:induction false} DepthsClimb(queue: seq<Json>, ds: seq<nat>, seen: set<string>, decode: Decoder)
    requires Shrinks(decode) && |ds| == |queue| && InLevels(ds)
    ensures var found := Depths(queue, ds, seen, decode);
            && |found| == |Walk(queue, seen, decode)| && Climbs(found)
            && forall k :: 0 <= k < |found| ==> ds != [] && ds[0] <= found[k]
    decreases WeightOf(queue)
  {
    hide Shrinks, Weight, Pushed, Noted, InLevels;
    if queue != [] {
      var current, rest := queue[0], queue[1..];
      assert queue == [current] + rest;
      PushedLighter(current, rest, seen, decode);
      var pushed := Pushed(current, seen, decode);
      LevelsStep(ds, |pushed|);
      DepthsClimb(rest + pushed, ds[1..] + OneDeeper(|pushed|, ds[0]), Noted(current, seen), decode);
    }
  }

  ghost predicate ReachedSo(raw: Json, queue: seq<Json>, ds: seq<nat>, decode: Decoder) {
    |ds| == |queue| && forall i :: 0 <= i < |queue| ==> ReachedIn(raw, queue[i], ds[i], decode)
  }

  lemma {:induction false} ReachedNext(from: Json, via: Json, to: Json, n: nat, decode: Decoder)
    requires ReachedIn(from, via, n, decode) && Leads(via, to, decode)
    ensures ReachedIn(from, to, n + 1, decode)
    decreases n
  {
    hide Leads;
    if n == 0 {
      assert ReachedIn(to, to, 0, decode);
    } else {
      var next :| Leads(from, next, decode) && ReachedIn(next, via, n - 1, decode);
      ReachedNext(next, via, to, n - 1, decode);
    }
  }

  lemma PushedReached(raw: Json, current: Json, d: nat, seen: set<string>, decode: Decoder, x: Json)
    requires ReachedIn(raw, current, d, decode) && x in Pushed(current, seen, decode)
    ensures ReachedIn(raw, x, d + 1, decode)
  {
    hide ReachedIn, Leads, Inside;
    InsideIff(current, x, decode);
    ReachedNext(raw, current, x, d, decode);
  }

  /** Each object is reached in as many openings as its depth says. */
  lemma {:induction false} DepthsTrue(raw: Json, queue: seq<Json>, ds: seq<nat>, seen: set<string>, decode: Decoder)
    requires Shrinks(decode) && ReachedSo(raw, queue, ds, decode)
    ensures ReachedSo(raw, Walk(queue, seen, decode), Depths(queue, ds, seen, decode), decode)
    decreases WeightOf(queue)
  {
    hide Shrinks, Weight, Noted, ReachedIn, Leads, Inside, Pushed;
    if queue != [] {
      var current, rest := queue[0], queue[1..];
      assert queue == [current] + rest;
      PushedLighter(current, rest, seen, decode);
      var pushed := Pushed(current, seen, decode);
      forall i | 0 <= i < |pushed|
        ensures ReachedIn(raw, pushed[i], ds[0] + 1, decode)
      {
        PushedReached(raw, current, ds[0], seen, decode, pushed[i]);
      }
      DepthsTrue(raw, rest + pushed, ds[1..] + OneDeeper(|pushed|, ds[0]), Noted(current, seen), decode);
    }
  }

  /** The value was visited, or is queued, at that depth or nearer. */
  ghost predicate Near(visited: set<(Json, nat)>, queue: seq<Json>, ds: seq<nat>, x: Json, depth: nat)
    requires |ds| == |queue|
  {
    || (exists e: nat :: e <= depth && (x, e) in visited)
    || (exists i :: 0 <= i < |queue| && queue[i] == x && ds[i] <= depth)
  }

  /** What was visited leads only to what is near; so do the texts already decoded. */
  ghost predicate Mapped(visited: set<(Json, nat)>, seen: set<string>, queue: seq<Json>, ds: seq<nat>, decode: Decoder)
    requires |ds| == |queue|
  {
    MappedValues(visited, queue, ds, decode) && MappedTexts(visited, seen, queue, ds, decode)
  }

  ghost predicate MappedValues(visited: set<(Json, nat)>, queue: seq<Json>, ds: seq<nat>, decode: Decoder)
    requires |ds| == |queue|
  {
    forall d, e: nat, x :: (d, e) in visited && x in Inside(d, decode) ==> Near(visited, queue, ds, x, e + 1)
  }

  ghost predicate MappedTexts(visited: set<(Json, nat)>, seen: set<string>, queue: seq<Json>, ds: seq<nat>,
                              decode: Decoder)
    requires |ds| == |queue|
  {
    queue != [] ==> forall t :: t in seen && decode(t).Some? ==> Near(visited, queue, ds, decode(t).value, ds[0] + 1)
  }

  lemma NearStep(visited: set<(Json, nat)>, queue: seq<Json>, ds: seq<nat>, pushed: seq<Json>, x: Json, depth: nat)
    requires |ds| == |queue| && queue != [] && Near(visited, queue, ds, x, depth)
    ensures Near(visited + {(queue[0], ds[0])}, queue[1..] + pushed, ds[1..] + OneDeeper(|pushed|, ds[0]), x, depth)
  {
    var next, nds := queue[1..] + pushed, ds[1..] + OneDeeper(|pushed|, ds[0]);
    if e: nat :| e <= depth && (x, e) in visited {
      assert (x, e) in visited + {(queue[0], ds[0])};
    } else {
      var i :| 0 <= i < |queue| && queue[i] == x && ds[i] <= depth;
      if i == 0 {
        assert (x, ds[0]) in visited + {(queue[0], ds[0])};
      } else {
        assert next[i - 1] == x && nds[i - 1] == ds[i];
      }
    }
  }

  lemma NearDeeper(visited: set<(Json, nat)>, queue: seq<Json>, ds: seq<nat>, x: Json, depth: nat, deeper: nat)
    requires |ds| == |queue| && Near(visited, queue, ds, x, depth) && depth <= deeper
    ensures Near(visited, queue, ds, x, deeper)
  {
    if e: nat :| e <= depth && (x, e) in visited {
      assert e <= deeper;
    }
  }

  lemma NearPushed(visited: set<(Json, nat)>, rest: seq<Json>, ds: seq<nat>, pushed: seq<Json>, d: nat, x: Json)
    requires |ds| == |rest| && x in pushed
    ensures Near(visited, rest + pushed, ds + OneDeeper(|pushed|, d), x, d + 1)
  {
    var i :| 0 <= i < |pushed| && pushed[i] == x;
    assert (rest + pushed)[|rest| + i] == x && (ds + OneDeeper(|pushed|, d))[|rest| + i] == d + 1;
  }

  /** What the front of the queue leads to is near, once it is visited. */
  lemma FrontNear(visited: set<(Json, nat)>, seen: set<string>, queue: seq<Json>, ds: seq<nat>, decode: Decoder,
                  x: Json)
    requires |ds| == |queue| && queue != [] && Mapped(visited, seen, queue, ds, decode) && x in Inside(queue[0], decode)
    ensures var pushed := Pushed(queue[0], seen, decode);
            Near(visited + {(queue[0], ds[0])}, queue[1..] + pushed, ds[1..] + OneDeeper(|pushed|, ds[0]), x, ds[0] + 1)
  {
    hide Strip, Bracketed, Under, Near;
    var current, pushed := queue[0], Pushed(queue[0], seen, decode);
    if x in pushed {
      NearPushed(visited + {(current, ds[0])}, queue[1..], ds[1..], pushed, ds[0], x);
    } else {
      assert current.String? && Strip(current.text) in seen && x == decode(Strip(current.text)).value;
      NearStep(visited, queue, ds, pushed, x, ds[0] + 1);
    }
  }

  lemma TextNear(visited: set<(Json, nat)>, seen: set<string>, queue: seq<Json>, ds: seq<nat>, decode: Decoder,
                 t: string)
    requires |ds| == |queue| && queue != [] && Mapped(visited, seen, queue, ds, decode)
    requires t in Noted(queue[0], seen) && decode(t).Some?
    ensures var pushed := Pushed(queue[0], seen, decode);
            Near(visited + {(queue[0], ds[0])}, queue[1..] + pushed, ds[1..] + OneDeeper(|pushed|, ds[0]),
                 decode(t).value, ds[0] + 1)
  {
    hide Strip, Under, Near;
    if t in seen {
      NearStep(visited, queue, ds, Pushed(queue[0], seen, decode), decode(t).value, ds[0] + 1);
    } else {
      assert decode(t).value in Inside(queue[0], decode);
      hide Mapped, Inside;
      FrontNear(visited, seen, queue, ds, decode, decode(t).value);
    }
  }

  lemma MappedStep(visited: set<(Json, nat)>, seen: set<string>, queue: seq<Json>, ds: seq<nat>, decode: Decoder)
    requires |ds| == |queue| && queue != [] && Mapped(visited, seen, queue, ds, decode) && InLevels(ds)
    ensures var pushed := Pushed(queue[0], seen, decode);
            Mapped(visited + {(queue[0], ds[0])}, Noted(queue[0], seen), queue[1..] + pushed,
                   ds[1..] + OneDeeper(|pushed|, ds[0]), decode)
  {
    hide Noted, Inside, InLevels, Pushed, MappedValues, MappedTexts;
    MappedValuesStep(visited, seen, queue, ds, decode);
    MappedTextsStep(visited, seen, queue, ds, decode);
  }

  lemma MappedValuesStep(visited: set<(Json, nat)>, seen: set<string>, queue: seq<Json>, ds: seq<nat>, decode: Decoder)
    requires |ds| == |queue| && queue != [] && Mapped(visited, seen, queue, ds, decode)
    ensures var pushed := Pushed(queue[0], seen, decode);
            MappedValues(visited + {(queue[0], ds[0])}, queue[1..] + pushed, ds[1..] + OneDeeper(|pushed|, ds[0]),
                         decode)
  {
    hide Inside, Near, Pushed, MappedTexts;
    var current, pushed := queue[0], Pushed(queue[0], seen, decode);
    var next, nds, more := queue[1..] + pushed, ds[1..] + OneDeeper(|pushed|, ds[0]), visited + {(current, ds[0])};
    forall d, e: nat, x | (d, e) in more && x in Inside(d, decode)
      ensures Near(more, next, nds, x, e + 1)
    {
      if (d, e) in visited {
        NearStep(visited, queue, ds, pushed, x, e + 1);
      } else {
        FrontNear(visited, seen, queue, ds, decode, x);
      }
    }
  }

  lemma MappedTextsStep(visited: set<(Json, nat)>, seen: set<string>, queue: seq<Json>, ds: seq<nat>, decode: Decoder)
    requires |ds| == |queue| && queue != [] && Mapped(visited, seen, queue, ds, decode) && InLevels(ds)
    ensures var pushed := Pushed(queue[0], seen, decode);
            MappedTexts(visited + {(queue[0], ds[0])}, Noted(queue[0], seen), queue[1..] + pushed,
                        ds[1..] + OneDeeper(|pushed|, ds[0]), decode)
  {
    hide Inside, Near, Pushed, Noted, InLevels, Mapped;
    var current, pushed := queue[0], Pushed(queue[0], seen, decode);
    var next, nds, more := queue[1..] + pushed, ds[1..] + OneDeeper(|pushed|, ds[0]), visited + {(current, ds[0])};
    LevelsStep(ds, |pushed|);
    forall t | t in Noted(current, seen) && decode(t).Some?
      ensures next != [] ==> Near(more, next, nds, decode(t).value, nds[0] + 1)
    {
      TextNear(visited, seen, queue, ds, decode, t);
      if next != [] {
        NearDeeper(more, next, nds, decode(t).value, ds[0] + 1, nds[0] + 1);
      }
    }
  }

  lemma {:induction false} VisitedReach(visited: set<(Json, nat)>, from: Json, e: nat, target: Json, n: nat,
                                        decode: Decoder)
    requires Mapped(visited, {}, [], [], decode) && Near(visited, [], [], from, e) && ReachedIn(from, target, n, decode)
    ensures Near(visited, [], [], target, e + n)
    decreases n
  {
    hide Inside, Leads;
    if n > 0 {
      var via :| Leads(from, via, decode) && ReachedIn(via, target, n - 1, decode);
      InsideIff(from, via, decode);
      var d: nat :| d <= e && (from, d) in visited;
      NearDeeper(visited, [], [], via, d + 1, e + 1);
      VisitedReach(visited, via, e + 1, target, n - 1, decode);
    }
  }

  /** An object is visited, or will be collected, at a depth no greater than the openings it takes. */
  lemma {:induction false} WalkNears(queue: seq<Json>, ds: seq<nat>, seen: set<string>, visited: set<(Json, nat)>,
                                     decode: Decoder, from: Json, e: nat, target: Json, n: nat)
    requires Shrinks(decode) && |ds| == |queue| && InLevels(ds) && Mapped(visited, seen, queue, ds, decode)
    requires Near(visited, queue, ds, from, e) && ReachedIn(from, target, n, decode) && target.Object?
    ensures || (exists d: nat :: d <= e + n && (target, d) in visited)
            || CollectedBy(Walk(queue, seen, decode), Depths(queue, ds, seen, decode), target, e + n)
    decreases WeightOf(queue)
  {
    hide Shrinks, Weight, Inside, ReachedIn, Pushed, Noted, InLevels, Mapped, Near;
    if queue == [] {
      NothingQueued(visited, seen, decode);
      VisitedReach(visited, from, e, target, n, decode);
      NearVisited(visited, target, e + n);
    } else {
      var current, rest := queue[0], queue[1..];
      assert queue == [current] + rest;
      PushedLighter(current, rest, seen, decode);
      var pushed := Pushed(current, seen, decode);
      var nds, more := ds[1..] + OneDeeper(|pushed|, ds[0]), visited + {(current, ds[0])};
      LevelsStep(ds, |pushed|);
      MappedStep(visited, seen, queue, ds, decode);
      NearStep(visited, queue, ds, pushed, from, e);
      WalkNears(rest + pushed, nds, Noted(current, seen), more, decode, from, e, target, n);
      CollectedStep(queue, ds, seen, decode, target, e + n);
    }
  }

  lemma NothingQueued(visited: set<(Json, nat)>, seen: set<string>, decode: Decoder)
    requires Mapped(visited, seen, [], [], decode)
    ensures Mapped(visited, {}, [], [], decode)
  {
    hide Inside, Near;
  }

  lemma NearVisited(visited: set<(Json, nat)>, x: Json, depth: nat)
    requires Near(visited, [], [], x, depth)
    ensures exists d: nat :: d <= depth && (x, d) in visited
  {
  }

  ghost predicate CollectedBy(found: seq<Json>, depths: seq<nat>, target: Json, depth: nat) {
    |depths| == |found| && exists k :: 0 <= k < |found| && found[k] == target && depths[k] <= depth
  }

  lemma CollectedAfter(head: seq<Json>, headDepth: seq<nat>, found: seq<Json>, depths: seq<nat>, target: Json,
                       depth: nat)
    requires |head| == |headDepth| && CollectedBy(found, depths, target, depth)
    ensures CollectedBy(head + found, headDepth + depths, target, depth)
  {
    var k :| 0 <= k < |found| && found[k] == target && depths[k] <= depth;
    assert (head + found)[|head| + k] == target && (headDepth + depths)[|head| + k] == depths[k];
  }

  lemma CollectedFirst(target: Json, d: nat, found: seq<Json>, depths: seq<nat>, depth: nat)
    requires |found| == |depths| && d <= depth
    ensures CollectedBy([target] + found, [d] + depths, target, depth)
  {
    assert ([target] + found)[0] == target && ([d] + depths)[0] == d;
  }

  lemma CollectedStep(queue: seq<Json>, ds: seq<nat>, seen: set<string>, decode: Decoder, target: Json, depth: nat)
    requires Shrinks(decode) && |ds| == |queue| && queue != [] && InLevels(ds)
    ensures var pushed := Pushed(queue[0], seen, decode);
            var found := Walk(queue[1..] + pushed, Noted(queue[0], seen), decode);
            var depths := Depths(queue[1..] + pushed, ds[1..] + OneDeeper(|pushed|, ds[0]), Noted(queue[0], seen),
                                 decode);
            CollectedBy(found, depths, target, depth) || (queue[0] == target && target.Object? && ds[0] <= depth)
            ==> CollectedBy(Walk(queue, seen, decode), Depths(queue, ds, seen, decode), target, depth)
  {
    hide Shrinks, Weight, Pushed, Noted, InLevels, CollectedBy;
    var current, rest, pushed := queue[0], queue[1..], Pushed(queue[0], seen, decode);
    assert queue == [current] + rest;
    PushedLighter(current, rest, seen, decode);
    var nds := ds[1..] + OneDeeper(|pushed|, ds[0]);
    LevelsStep(ds, |pushed|);
    DepthsClimb(rest + pushed, nds, Noted(current, seen), decode);
    var found := Walk(rest + pushed, Noted(current, seen), decode);
    var depths := Depths(rest + pushed, nds, Noted(current, seen), decode);
    var head: seq<Json> := if current.Object? then [current] else [];
    var headDepth: seq<nat> := if current.Object? then [ds[0]] else [];
    assert Walk(queue, seen, decode) == head + found && Depths(queue, ds, seen, decode) == headDepth + depths;
    hide Walk, Depths;
    if CollectedBy(found, depths, target, depth) {
      CollectedAfter(head, headDepth, found, depths, target, depth);
    } else if current == target && target.Object? && ds[0] <= depth {
      CollectedFirst(target, ds[0], found, depths, depth);
    }
  }

  /**
   The candidates come in order of distance: each is reached in as many openings as `depths` says, the depths
   never fall, and every object that some openings reach is collected at that depth or nearer.
   */
  lemma NearerComesFirst(raw: Json, decode: Decoder) returns (depths: seq<nat>)
    requires Shrinks(decode)
    ensures ReachedSo(raw, Walk([raw], {}, decode), depths, decode) && Climbs(depths)
    ensures forall target: Json, n: nat :: target.Object? && ReachedIn(raw, target, n, decode) ==>
              CollectedBy(Walk([raw], {}, decode), depths, target, n)
  {
    hide Shrinks, Walk, Depths, ReachedIn, Inside;
    depths := Depths([raw], [0], {}, decode);
    assert ReachedIn(raw, raw, 0, decode) by { Itself(raw, decode); }
    DepthsTrue(raw, [raw], [0], {}, decode);
    DepthsClimb([raw], [0], {}, decode);
    forall target: Json, n: nat | target.Object? && ReachedIn(raw, target, n, decode)
      ensures CollectedBy(Walk([raw], {}, decode), depths, target, n)
    {
      assert [raw][0] == raw && [0][0] == 0;
      WalkNears([raw], [0], {}, {}, decode, raw, 0, target, n);
    }
  }

  lemma Itself(raw: Json, decode: Decoder)
    ensures ReachedIn(raw, raw, 0, decode)
  {
  }

  // ---------------------------------------------------------------- selection

  /** A candidate with all required keys outscores any without, however many keys are required. */
  lemma CompleteOutscores(p: Json, q: Json, required: set<string>)
    requires Complete(p, required) && !Complete(q, required)
    ensures Score(p, required) > Score(q, required)
  {
    assert required * Keys(p) == required;
    SubsetSize(required * Keys(q), required);
  }

  ghost predicate FirstBest(candidates: seq<Json>, i: nat, required: set<string>) {
    && i < |candidates|
    && (forall k :: 0 <= k < i ==> Score(candidates[k], required) < Score(candidates[i], required))
    && (forall k :: i <= k < |candidates| ==> Score(candidates[k], required) <= Score(candidates[i], required))
  }

  lemma FirstBestStep(candidates: seq<Json>, i: nat, required: set<string>)
    requires |candidates| > 1 && FirstBest(candidates[..|candidates| - 1], i, required)
    ensures FirstBest(candidates, if Score(candidates[|candidates| - 1], required) > Score(candidates[i], required)
                                  then |candidates| - 1 else i, required)
  {
    hide Score;
    var before := candidates[..|candidates| - 1];
    forall k | 0 <= k < |before|
      ensures candidates[k] == before[k] && Score(before[k], required) <= Score(before[i], required)
    {
    }
  }

  /** The choice is the first candidate of highest score. */
  lemma {:induction false} BestIsFirstBest(candidates: seq<Json>, required: set<string>) returns (i: nat)
    requires candidates != []
    ensures FirstBest(candidates, i, required) && candidates[i] == Best(candidates, required)
    decreases |candidates|
  {
    hide Score;
    var n := |candidates| - 1;
    if n == 0 {
      i := 0;
    } else {
      i := BestIsFirstBest(candidates[..n], required);
      FirstBestStep(candidates, i, required);
      i := if Score(candidates[n], required) > Score(candidates[i], required) then n else i;
    }
  }

  // ---------------------------------------------------------------- which candidate is preferred

  ghost predicate HasKey(p: Json, name: string) {
    p.Object? && exists i :: 0 <= i < |p.fields| && p.fields[i].name == name
  }

  /** How many of the required keys the candidate has. */
  ghost function KeysHeld(p: Json, required: set<string>): nat { |set k | k in required && HasKey(p, k)| }

  /** How many of the keys a stage's payload has the candidate has. */
  ghost function Hints(p: Json): nat {
    (if HasKey(p, "status") then 1 else 0) + (if HasKey(p, "campaigns") then 1 else 0)
    + (if HasKey(p, "audit_id") then 1 else 0)
  }

  /** The candidate looks like an envelope of the provider. */
  ghost predicate Envelope(p: Json) {
    HasKey(p, "type") || HasKey(p, "id") || HasKey(p, "usage") || HasKey(p, "session_id")
  }

  ghost predicate HasAll(p: Json, required: set<string>) { forall k :: k in required ==> HasKey(p, k) }

  /**
   `p` is preferred to `q`: having all required keys decides; then two required keys more do, and one more does
   unless the other has all hints and `p` none, and only `p` looks like an envelope; then more hints, and then
   not looking like one.
   */
  ghost predicate Preferred(p: Json, q: Json, required: set<string>) {
    var k, l := KeysHeld(p, required), KeysHeld(q, required);
    if HasAll(p, required) || HasAll(q, required) then
      !HasAll(q, required) || (HasAll(p, required) && Hints(p) > Hints(q))
    else if k == l then Hints(p) > Hints(q) || (Hints(p) == Hints(q) && Envelope(q) && !Envelope(p))
    else if k == l + 1 then !(Hints(p) == 0 && Hints(q) == 3 && Envelope(p) && !Envelope(q))
    else if l == k + 1 then Hints(p) == 3 && Hints(q) == 0 && !Envelope(p) && Envelope(q)
    else k > l
  }

  lemma HasKeyIff(p: Json, name: string)
    ensures HasKey(p, name) <==> name in Keys(p)
  {
    if p.Object? && name in Keys(p) {
      var f :| f in p.fields && f.name == name;
      var i :| 0 <= i < |p.fields| && p.fields[i] == f;
    }
  }

  /** The parts of the score. */
  lemma ScoreParts(p: Json, required: set<string>)
    ensures HasAll(p, required) <==> Complete(p, required)
    ensures HasAll(p, required) ==> KeysHeld(p, required) == |required|
    ensures Score(p, required) == 10 * KeysHeld(p, required) + 3 * Hints(p)
            + (if required != {} && HasAll(p, required) then 1000 else 0)
            - (if required != {} && !HasAll(p, required) && Envelope(p) then 2 else 0)
  {
    hide HasKey, Keys, Envelope;
    KeysHeldIs(p, required);
    HintsIs(p);
    EnvelopeIff(p);
  }

  lemma KeysHeldIs(p: Json, required: set<string>)
    ensures HasAll(p, required) <==> Complete(p, required)
    ensures HasAll(p, required) ==> KeysHeld(p, required) == |required|
    ensures KeysHeld(p, required) == |required * Keys(p)|
  {
    hide HasKey, Keys;
    forall name
      ensures HasKey(p, name) <==> name in Keys(p)
    {
      HasKeyIff(p, name);
    }
    assert (set k | k in required && HasKey(p, k)) == required * Keys(p);
    if HasAll(p, required) {
      assert required * Keys(p) == required;
    }
  }

  lemma HintsIs(p: Json)
    ensures Hint(p, "status") + Hint(p, "campaigns") + Hint(p, "audit_id") == 3 * Hints(p)
  {
    hide HasKey, Keys;
    HasKeyIff(p, "status");
    HasKeyIff(p, "campaigns");
    HasKeyIff(p, "audit_id");
  }

  lemma MeetsIff(a: string, b: string, c: string, d: string, keys: set<string>)
    ensures {a, b, c, d} * keys != {} <==> a in keys || b in keys || c in keys || d in keys
  {
    var both := {a, b, c, d} * keys;
    if a in keys {
      assert a in both;
    }
    if b in keys {
      assert b in both;
    }
    if c in keys {
      assert c in both;
    }
    if d in keys {
      assert d in both;
    }
  }

  lemma EnvelopeIff(p: Json)
    ensures Envelope(p) <==> {"type", "id", "usage", "session_id"} * Keys(p) != {}
  {
    hide HasKey, Keys;
    HasKeyIff(p, "type");
    HasKeyIff(p, "id");
    HasKeyIff(p, "usage");
    HasKeyIff(p, "session_id");
    MeetsIff("type", "id", "usage", "session_id", Keys(p));
  }

  /** A candidate scores higher exactly when it is preferred. */
  lemma ScoresHigherIff(p: Json, q: Json, required: set<string>)
    ensures Score(p, required) > Score(q, required) <==> Preferred(p, q, required)
  {
    hide Score, HasAll, KeysHeld, Envelope, HasKey;
    ScoreParts(p, required);
    ScoreParts(q, required);
    HeldAtMost(p, required);
    HeldAtMost(q, required);
    if required == {} {
      assert HasAll(p, required) && HasAll(q, required) by { NothingRequired(p); NothingRequired(q); }
    }
    assert Hints(p) <= 3 && Hints(q) <= 3;
  }

  lemma NothingRequired(p: Json)
    ensures HasAll(p, {})
  {
  }

  lemma HeldAtMost(p: Json, required: set<string>)
    ensures KeysHeld(p, required) <= |required|
    ensures !HasAll(p, required) ==> KeysHeld(p, required) < |required|
  {
    hide HasKey;
    var held := set k | k in required && HasKey(p, k);
    SubsetSize(held, required);
    if !HasAll(p, required) {
      var k :| k in required && !HasKey(p, k);
      assert k !in held;
    }
  }

  /** The choice is preferred to every candidate before it, and none after it is preferred to it. */
  lemma BestIsFirstPreferred(candidates: seq<Json>, required: set<string>) returns (i: nat)
    requires candidates != []
    ensures i < |candidates| && candidates[i] == Best(candidates, required)
    ensures forall k :: 0 <= k < i ==> Preferred(candidates[i], candidates[k], required)
    ensures forall k :: i <= k < |candidates| ==> !Preferred(candidates[k], candidates[i], required)
  {
    hide Score, Preferred, Best;
    i := BestIsFirstBest(candidates, required);
    forall k | 0 <= k < |candidates|
      ensures k < i ==> Preferred(candidates[i], candidates[k], required)
      ensures k >= i ==> !Preferred(candidates[k], candidates[i], required)
    {
      ScoresHigherIff(candidates[i], candidates[k], required);
      ScoresHigherIff(candidates[k], candidates[i], required);
    }
  }

  /** Keys are reported missing exactly when no candidate has them all; otherwise the choice has them all. */
  lemma SelectionFailsIff(candidates: seq<Json>, required: set<string>)
    ensures var r := SelectPayload(candidates, required);
            && (r == Err(NoObject) <==> candidates == [])
            && (r.Err? && r.error.MissingKeys? <==>
                  candidates != [] && forall c :: c in candidates ==> !Complete(c, required))
            && (r.Ok? ==> r.value in candidates && Complete(r.value, required))
  {
    hide Score, SortedKeys;
    if candidates != [] {
      var i := BestIsFirstBest(candidates, required);
      var best := Best(candidates, required);
      forall c | c in candidates && Complete(c, required)
        ensures Complete(best, required)
      {
        var k :| 0 <= k < |candidates| && candidates[k] == c;
        if !Complete(best, required) {
          CompleteOutscores(c, best, required);
        }
      }
    }
  }

  /** The keys named in the error are, in order, those the chosen object lacks: at least one. */
  lemma MissingAreMissing(candidates: seq<Json>, required: set<string>)
    requires candidates != [] && SelectPayload(candidates, required).Err?
    ensures var missing := SelectPayload(candidates, required).error.keys;
            && Sorted(missing) && missing != []
            && forall k :: k in missing <==> k in required && k !in Keys(Best(candidates, required))
  {
    var best := Best(candidates, required);
    assert !(required <= Keys(best));
    var k :| k in required && k !in Keys(best);
    assert k in SelectPayload(candidates, required).error.keys;
  }

  /**
   What is selected is the first of the candidates to which none is preferred. If it lacks a required key the
   error names, in order, exactly those it lacks.
   */
  lemma SelectedIsFirstPreferred(candidates: seq<Json>, required: set<string>) returns (i: nat)
    requires candidates != []
    ensures i < |candidates|
    ensures forall k :: 0 <= k < i ==> Preferred(candidates[i], candidates[k], required)
    ensures forall k :: i <= k < |candidates| ==> !Preferred(candidates[k], candidates[i], required)
    ensures match SelectPayload(candidates, required)
            case Ok(payload) => payload == candidates[i] && required <= Keys(candidates[i])
            case Err(NoObject) => false
            case Err(MissingKeys(keys)) =>
              Sorted(keys) && keys != [] && forall k :: k in keys <==> k in required && k !in Keys(candidates[i])
  {
    hide Preferred, Score, Best, Sorted;
    i := BestIsFirstPreferred(candidates, required);
    SelectionFailsIff(candidates, required);
    if SelectPayload(candidates, required).Err? {
      MissingAreMissing(candidates, required);
    }
  }

  /** Recovering a payload: from the provider's value to the object chosen among those within reach. */
  function RecoverPayload(raw: Json, required: set<string>, decode: Decoder): Result<Json, PayloadError>
    requires Shrinks(decode)
  {
    SelectPayload(Walk([raw], {}, decode), required)
  }

  /** Recovery succeeds exactly when some object within reach has all required keys. */
  lemma RecoverySucceedsIff(raw: Json, required: set<string>, decode: Decoder)
    requires Shrinks(decode)
    ensures RecoverPayload(raw, required, decode).Ok? <==>
            exists j: Json :: j.Object? && Reached(raw, j, decode) && Complete(j, required)
    ensures var r := RecoverPayload(raw, required, decode);
            r.Ok? ==> r.value.Object? && Reached(raw, r.value, decode) && Complete(r.value, required)
  {
    hide Shrinks, Reached, Complete, Walk, SelectPayload;
    var candidates := Walk([raw], {}, decode);
    SelectionFailsIff(candidates, required);
    var r := SelectPayload(candidates, required);
    if r.Ok? {
      WalkIsReach(raw, decode, r.value);
    }
    forall j: Json | j.Object? && Reached(raw, j, decode) && Complete(j, required)
      ensures r.Ok?
    {
      WalkIsReach(raw, decode, j);
    }
  }
}
