/** Merging in either order, merging twice, and what a merge may change. */
module Confluence {
  import opened Wrappers
  import opened Tasks
  import opened Campaigns
  import opened Merge
  import opened MergeLaws

  // ---------------------------------------------------------------- success is consistency

  /** No two steps claim different answers to one question. */
  ghost predicate Consistent(steps: seq<Step>) {
    forall i, j, k :: 0 <= i < |steps| && 0 <= j < |steps| ==> Compatible(Claim(steps[i], k), Claim(steps[j], k))
  }

  ghost predicate AllFit(s: State, steps: seq<Step>) {
    forall i :: 0 <= i < |steps| ==> Fits(s, steps[i])
  }

  lemma {:induction false} ReplayIff(s: State, steps: seq<Step>)
    requires WellFormed(s) && ProperSteps(steps)
    ensures Replay(s, steps).Ok? <==> Consistent(steps) && AllFit(s, steps)
    ensures Replay(s, steps).Ok? ==> WellFormed(Replay(s, steps).value)
    decreases |steps|
  {
    hide Apply, Known, Claim, WellFormed, ProperHeader;
    if steps != [] {
      var first, rest := steps[0], steps[1..];
      ApplyIff(s, first);
      if Apply(s, first).Ok? {
        var next := Apply(s, first).value;
        ApplyWellFormed(s, first);
        forall k: Key
          ensures Known(next, k) == if Claim(first, k).Some? then Claim(first, k) else Known(s, k)
        {
          ApplyKnown(s, first, k);
        }
        ReplayIff(next, rest);
        RestFitsIff(s, next, first, rest);
        assert steps == [first] + rest;
      }
    } else {
      assert Consistent(steps) && AllFit(s, steps);
    }
  }

  lemma RestFitsIff(s: State, next: State, first: Step, rest: seq<Step>)
    requires Fits(s, first)
    requires forall k :: Known(next, k) == if Claim(first, k).Some? then Claim(first, k) else Known(s, k)
    ensures Consistent(rest) && AllFit(next, rest) <==> Consistent([first] + rest) && AllFit(s, [first] + rest)
  {
    hide Known, Claim;
    var steps := [first] + rest;
    if Consistent(rest) && AllFit(next, rest) {
      forall i, j, k: Key | 0 <= i < |steps| && 0 <= j < |steps|
        ensures Compatible(Claim(steps[i], k), Claim(steps[j], k))
      {
        if i > 0 && j > 0 {
          assert Compatible(Claim(rest[i - 1], k), Claim(rest[j - 1], k));
        } else if i > 0 {
          assert Fits(next, rest[i - 1]);
        } else if j > 0 {
          assert Fits(next, rest[j - 1]);
        }
      }
      forall i | 0 <= i < |steps|
        ensures Fits(s, steps[i])
      {
        if i > 0 {
          assert Fits(next, rest[i - 1]);
          forall k: Key
            ensures Compatible(Known(s, k), Claim(steps[i], k))
          {
            assert Compatible(Known(next, k), Claim(rest[i - 1], k));
            assert Compatible(Known(s, k), Claim(first, k));
          }
        }
      }
    }
    if Consistent(steps) && AllFit(s, steps) {
      forall i, j, k: Key | 0 <= i < |rest| && 0 <= j < |rest|
        ensures Compatible(Claim(rest[i], k), Claim(rest[j], k))
      {
        assert Compatible(Claim(steps[i + 1], k), Claim(steps[j + 1], k));
      }
      forall i | 0 <= i < |rest|
        ensures Fits(next, rest[i])
      {
        assert Fits(s, steps[i + 1]);
        forall k: Key
          ensures Compatible(Known(next, k), Claim(rest[i], k))
        {
          assert Compatible(Claim(steps[0], k), Claim(steps[i + 1], k));
          assert Compatible(Known(s, k), Claim(steps[i + 1], k));
        }
      }
    }
  }

  /** The answer some step gives. */
  function Claimed(steps: seq<Step>, k: Key): Option<Answer> {
    if steps == [] then None
    else if Claim(steps[|steps| - 1], k).Some? then Claim(steps[|steps| - 1], k)
    else Claimed(steps[..|steps| - 1], k)
  }

  lemma {:induction false} ClaimedBySome(steps: seq<Step>, k: Key)
    ensures Claimed(steps, k).None? <==> forall i :: 0 <= i < |steps| ==> Claim(steps[i], k).None?
    ensures Claimed(steps, k).Some? ==> exists i :: 0 <= i < |steps| && Claimed(steps, k) == Claim(steps[i], k)
  {
    hide Claim;
    if steps != [] {
      var init := steps[..|steps| - 1];
      ClaimedBySome(init, k);
      if Claim(steps[|steps| - 1], k).None? && Claimed(steps, k).Some? {
        var i :| 0 <= i < |init| && Claimed(init, k) == Claim(init[i], k);
        assert Claimed(steps, k) == Claim(steps[i], k);
      }
      assert forall i :: 0 <= i < |init| ==> init[i] == steps[i];
    }
  }

  lemma {:induction false} ReplayKnown(s: State, steps: seq<Step>, k: Key)
    requires Replay(s, steps).Ok?
    ensures Known(Replay(s, steps).value, k) == if Claimed(steps, k).Some? then Claimed(steps, k) else Known(s, k)
    decreases |steps|
  {
    hide Apply, Known, Claim;
    if steps != [] {
      var init, last := steps[..|steps| - 1], steps[|steps| - 1];
      assert steps == init + [last];
      ReplayAppend(s, init, [last]);
      ReplayKnown(s, init, k);
      var mid := Replay(s, init).value;
      assert Replay(mid, [last]) == Apply(mid, last) by {
        assert [last][1..] == [];
      }
      ApplyKnown(mid, last, k);
    }
  }

  // ---------------------------------------------------------------- either order

  lemma ConsistentSwap(s: State, a: seq<Step>, b: seq<Step>)
    requires Consistent(a + b) && AllFit(s, a + b)
    ensures Consistent(b + a) && AllFit(s, b + a)
    ensures forall k :: Claimed(a + b, k) == Claimed(b + a, k)
  {
    hide Claim, Known, Claimed;
    var left, right := a + b, b + a;
    forall i, j, k: Key | 0 <= i < |right| && 0 <= j < |right|
      ensures Compatible(Claim(right[i], k), Claim(right[j], k))
    {
      var i', j' := Moved(a, b, i), Moved(a, b, j);
      assert Compatible(Claim(left[i'], k), Claim(left[j'], k));
    }
    forall i | 0 <= i < |right|
      ensures Fits(s, right[i])
    {
      assert Fits(s, left[Moved(a, b, i)]);
    }
    forall k: Key
      ensures Claimed(left, k) == Claimed(right, k)
    {
      ClaimedBySome(left, k);
      ClaimedBySome(right, k);
      assert forall i :: 0 <= i < |left| ==> left[i] == right[Moved(b, a, i)];
      assert forall j :: 0 <= j < |right| ==> right[j] == left[Moved(a, b, j)];
      if Claimed(left, k).Some? {
        var i :| 0 <= i < |left| && Claimed(left, k) == Claim(left[i], k);
        var j :| 0 <= j < |right| && Claimed(right, k) == Claim(right[j], k);
        assert Compatible(Claim(left[i], k), Claim(left[Moved(a, b, j)], k));
      }
    }
  }

  /** Where the step at index `i` of `b + a` stands in `a + b`. */
  ghost function Moved(a: seq<Step>, b: seq<Step>, i: nat): (j: nat)
    requires i < |b| + |a|
    ensures j < |a| + |b| && (a + b)[j] == (b + a)[i]
  {
    if i < |b| then |a| + i else i - |b|
  }

  lemma ReplaySwap(s: State, a: seq<Step>, b: seq<Step>)
    requires WellFormed(s) && ProperSteps(a) && ProperSteps(b)
    ensures Replay(s, a + b).Ok? <==> Replay(s, b + a).Ok?
    ensures Replay(s, a + b).Ok? ==>
              forall k :: Known(Replay(s, a + b).value, k) == Known(Replay(s, b + a).value, k)
  {
    hide Known, Claim, Claimed, Apply, Replay, WellFormed, ProperHeader, Fits;
    assert ProperSteps(a + b) && ProperSteps(b + a);
    ReplayIff(s, a + b);
    ReplayIff(s, b + a);
    if Replay(s, a + b).Ok? {
      ConsistentSwap(s, a, b);
      forall k: Key
        ensures Known(Replay(s, a + b).value, k) == Known(Replay(s, b + a).value, k)
      {
        ReplayKnown(s, a + b, k);
        ReplayKnown(s, b + a, k);
      }
    }
    if Replay(s, b + a).Ok? {
      ConsistentSwap(s, b, a);
    }
  }

  lemma {:induction false} DecodeTasksProper(h: Header, audit: string, raws: seq<RawTask>, ids: set<string>,
                                             slugs: set<string>)
    requires ProperHeader(h)
    ensures var steps := DecodeTasks(h, audit, raws, ids, slugs);
            steps.Some? ==> ProperSteps(steps.value)
    decreases |raws|
  {
    hide NormalizeTask, ProperHeader;
    if raws != [] && !raws[0].NotAnObject? && NormalizeTask(raws[0]).Ok? {
      var c := NormalizeTask(raws[0]).value;
      DecodeTasksProper(h, audit, raws[1..], ids + {c.id}, slugs + {c.slug});
    }
  }

  lemma {:induction false} DecodeEntriesProper(raws: seq<RawCampaign>, audit: string)
    ensures DecodeEntries(raws, audit).Some? ==> ProperSteps(DecodeEntries(raws, audit).value)
  {
    hide DecodeTasks, ParseCampaignId;
    if raws != [] {
      DecodeEntriesProper(raws[1..], audit);
      if DecodeHeader(raws[0]).Ok? {
        var h := DecodeHeader(raws[0]).value;
        assert ProperHeader(h);
        DecodeTasksProper(h, audit, raws[0].tasks.items, {}, {});
      }
    }
  }

  lemma DecodeProper(p: Proposal, audit: string)
    ensures Decode(p, audit).Some? ==> ProperSteps(Decode(p, audit).value)
  {
    if p.Proposal? {
      DecodeEntriesProper(p.campaigns, audit);
    }
  }

  /** A merge keeps the dictionary order and the campaign headers consistent with the ids. */
  lemma MergeWellFormed(s: State, p: Proposal, audit: string)
    requires WellFormed(s) && MergeProposal(s, p, audit).error.None?
    ensures WellFormed(MergeProposal(s, p, audit).state)
  {
    hide WellFormed, MergeProposal, Replay, Decode;
    MergeReplays(s, p, audit);
    DecodeProper(p, audit);
    ReplayIff(s, Decode(p, audit).value);
  }

  // ---------------------------------------------------------------- what a merge may change

  /** A task as merging creates it. */
  ghost predicate IsNewTask(t: Task, id: string, campaignSlug: string) {
    t == NewTask(t.content, campaignSlug) && t.content.id == id
  }

  ghost predicate KeepsCampaign(x: Campaign, y: Campaign) {
    && y == x.(reason := y.reason, audits := y.audits, tasks := y.tasks)
    && (x.reason.Some? ==> y.reason == x.reason)
    && x.audits <= y.audits
    && (forall t :: t in x.tasks ==> t in y.tasks && y.tasks[t] == x.tasks[t])
    && (forall t :: t in y.tasks && t !in x.tasks ==> IsNewTask(y.tasks[t], t, y.slug))
  }

  ghost predicate FreshCampaign(y: Campaign) {
    && y.status == Open && y.materialized == Materialized(None, map[])
    && forall t :: t in y.tasks ==> IsNewTask(y.tasks[t], t, y.slug)
  }

  /** Nothing recorded is changed or removed; what is added is open and pending. */
  ghost predicate Extends(s: State, next: State) {
    && s.order <= next.order
    && (forall c :: c in s.campaigns ==> c in next.campaigns && KeepsCampaign(s.campaigns[c], next.campaigns[c]))
    && (forall c :: c in next.campaigns && c !in s.campaigns ==> FreshCampaign(next.campaigns[c]))
    && (forall t :: t in s.byId ==> t in next.byId && next.byId[t].hash == s.byId[t].hash)
    && (forall k :: k in s.bySlug ==> k in next.bySlug && next.bySlug[k].hash == s.bySlug[k].hash)
  }

  lemma KeepsTransitive(x: Campaign, y: Campaign, z: Campaign)
    requires KeepsCampaign(x, y) && KeepsCampaign(y, z)
    ensures KeepsCampaign(x, z)
  {
  }

  lemma FreshKept(y: Campaign, z: Campaign)
    requires FreshCampaign(y) && KeepsCampaign(y, z)
    ensures FreshCampaign(z)
  {
  }

  lemma ExtendsTransitive(a: State, b: State, c: State)
    requires Extends(a, b) && Extends(b, c)
    ensures Extends(a, c)
  {
    hide KeepsCampaign, FreshCampaign;
    forall id | id in a.campaigns
      ensures id in c.campaigns && KeepsCampaign(a.campaigns[id], c.campaigns[id])
    {
      KeepsTransitive(a.campaigns[id], b.campaigns[id], c.campaigns[id]);
    }
    forall id | id in c.campaigns && id !in a.campaigns
      ensures FreshCampaign(c.campaigns[id])
    {
      if id in b.campaigns {
        FreshKept(b.campaigns[id], c.campaigns[id]);
      }
    }
  }

  lemma AdmitExtends(s: State, h: Header, audit: string)
    requires Admit(s, h, audit).Ok?
    ensures Extends(s, Admit(s, h, audit).value)
  {
  }

  lemma AddTaskExtends(s: State, h: Header, c: Content)
    requires h.id in s.campaigns && s.campaigns[h.id].slug == h.slug && AddTask(s, h, c).Ok?
    ensures Extends(s, AddTask(s, h, c).value)
  {
    hide SlugKey, KeepsCampaign;
    var next := AddTask(s, h, c).value;
    TaskKept(s.campaigns[h.id], next.campaigns[h.id], h, c);
    forall d | d in s.campaigns
      ensures KeepsCampaign(s.campaigns[d], next.campaigns[d])
    {
      if d != h.id {
        KeepsItself(s.campaigns[d]);
      }
    }
  }

  lemma TaskKept(x: Campaign, y: Campaign, h: Header, c: Content)
    requires x.slug == h.slug
    requires y == x || (c.id !in x.tasks && y == x.(tasks := x.tasks[c.id := NewTask(c, h.slug)]))
    ensures KeepsCampaign(x, y)
  {
  }

  lemma ApplyExtends(s: State, step: Step)
    requires Apply(s, step).Ok?
    ensures Extends(s, Apply(s, step).value)
  {
    hide AddTask, Extends;
    AdmitExtends(s, step.h, step.audit);
    if step.task.Some? {
      var admitted := Admit(s, step.h, step.audit).value;
      AddTaskExtends(admitted, step.h, step.task.value);
      ExtendsTransitive(s, admitted, AddTask(admitted, step.h, step.task.value).value);
    }
  }

  lemma {:induction false} ReplayExtends(s: State, steps: seq<Step>)
    requires Replay(s, steps).Ok?
    ensures Extends(s, Replay(s, steps).value)
    decreases |steps|
  {
    hide Apply, KeepsCampaign;
    if steps == [] {
      assert forall c :: c in s.campaigns ==> KeepsCampaign(s.campaigns[c], s.campaigns[c]) by {
        forall c | c in s.campaigns
          ensures KeepsCampaign(s.campaigns[c], s.campaigns[c])
        {
          KeepsItself(s.campaigns[c]);
        }
      }
    } else {
      var next := Apply(s, steps[0]).value;
      ApplyExtends(s, steps[0]);
      ReplayExtends(next, steps[1..]);
      ExtendsTransitive(s, next, Replay(next, steps[1..]).value);
    }
  }

  lemma KeepsItself(x: Campaign)
    ensures KeepsCampaign(x, x)
  {
  }

  /** A successful merge only extends the state. */
  lemma MergeExtends(s: State, p: Proposal, audit: string)
    requires MergeProposal(s, p, audit).error.None?
    ensures Extends(s, MergeProposal(s, p, audit).state)
  {
    hide MergeProposal, Replay, Extends;
    MergeReplays(s, p, audit);
    ReplayExtends(s, Decode(p, audit).value);
  }

  // ---------------------------------------------------------------- equal up to provenance

  ghost function Elements<T>(s: seq<T>): set<T> { set x | x in s }

  /**
   The same campaigns, tasks, statuses and hashes; only dictionary order, the order of audit ids and
   the campaign an index entry names may differ.
   */
  ghost predicate SameCore(a: State, b: State) {
    && a.campaigns.Keys == b.campaigns.Keys
    && (forall c :: c in a.campaigns ==> SameCampaign(a.campaigns[c], b.campaigns[c]))
    && a.byId.Keys == b.byId.Keys
    && (forall t :: t in a.byId ==> a.byId[t].hash == b.byId[t].hash)
    && a.bySlug.Keys == b.bySlug.Keys
    && (forall k :: k in a.bySlug ==> a.bySlug[k].hash == b.bySlug[k].hash)
  }

  ghost predicate SameCampaign(x: Campaign, y: Campaign) {
    x.(audits := y.audits) == y && Elements(x.audits) == Elements(y.audits)
  }

  lemma KnowledgeDecidesTasks(s: State, a: State, b: State, c: string)
    requires Extends(s, a) && Extends(s, b)
    requires forall k :: Known(a, k) == Known(b, k)
    requires c in a.campaigns && c in b.campaigns && a.campaigns[c].slug == b.campaigns[c].slug
    ensures a.campaigns[c].tasks == b.campaigns[c].tasks
  {
    var x, y := a.campaigns[c].tasks, b.campaigns[c].tasks;
    forall t
      ensures t in x <==> t in y
      ensures t in x && t in y ==> x[t] == y[t]
    {
      assert Known(a, HeldKey(c, t)) == Known(b, HeldKey(c, t));
      if c in s.campaigns {
        assert KeepsCampaign(s.campaigns[c], a.campaigns[c]) && KeepsCampaign(s.campaigns[c], b.campaigns[c]);
      } else {
        assert FreshCampaign(a.campaigns[c]) && FreshCampaign(b.campaigns[c]);
      }
    }
  }

  lemma KnowledgeDecidesRest(s: State, a: State, b: State, c: string)
    requires Extends(s, a) && Extends(s, b) && WellFormed(a) && WellFormed(b)
    requires forall k :: Known(a, k) == Known(b, k)
    requires c in a.campaigns
    ensures c in b.campaigns
    ensures var x, y := a.campaigns[c], b.campaigns[c];
            x.(audits := y.audits, tasks := y.tasks) == y && Elements(x.audits) == Elements(y.audits)
  {
    hide ParseCampaignId;
    assert Known(a, SpecKey(c)) == Known(b, SpecKey(c));
    assert Known(a, ReasonKey(c)) == Known(b, ReasonKey(c));
    var x, y := a.campaigns[c], b.campaigns[c];
    assert HeaderMatchesId(c, x) && HeaderMatchesId(c, y);
    forall audit
      ensures audit in x.audits <==> audit in y.audits
    {
      assert Known(a, AuditKey(c, audit)) == Known(b, AuditKey(c, audit));
    }
  }

  lemma KnowledgeDecidesCampaign(s: State, a: State, b: State, c: string)
    requires Extends(s, a) && Extends(s, b) && WellFormed(a) && WellFormed(b)
    requires forall k :: Known(a, k) == Known(b, k)
    requires c in a.campaigns
    ensures c in b.campaigns && SameCampaign(a.campaigns[c], b.campaigns[c])
  {
    hide Extends, WellFormed, Known;
    KnowledgeDecidesRest(s, a, b, c);
    KnowledgeDecidesTasks(s, a, b, c);
  }

  lemma KnowledgeDecides(s: State, a: State, b: State)
    requires Extends(s, a) && Extends(s, b) && WellFormed(a) && WellFormed(b)
    requires forall k :: Known(a, k) == Known(b, k)
    ensures SameCore(a, b)
  {
    hide Extends, WellFormed, SameCampaign;
    forall c | c in a.campaigns || c in b.campaigns
      ensures c in a.campaigns && c in b.campaigns && SameCampaign(a.campaigns[c], b.campaigns[c])
    {
      assert Known(a, SpecKey(c)) == Known(b, SpecKey(c));
      KnowledgeDecidesCampaign(s, a, b, c);
    }
    forall t
      ensures t in a.byId <==> t in b.byId
      ensures t in a.byId ==> a.byId[t].hash == b.byId[t].hash
    {
      assert Known(a, IdKey(t)) == Known(b, IdKey(t));
    }
    forall k
      ensures k in a.bySlug <==> k in b.bySlug
      ensures k in a.bySlug ==> a.bySlug[k].hash == b.bySlug[k].hash
    {
      assert Known(a, SlugIndexKey(k)) == Known(b, SlugIndexKey(k));
    }
  }

  /** Merge two proposals one after the other; `None` when either merge fails. */
  function MergeBoth(s: State, p: Proposal, audit: string, q: Proposal, audit': string): Option<State> {
    var first := MergeProposal(s, p, audit);
    if first.error.Some? then None
    else
      var second := MergeProposal(first.state, q, audit');
      if second.error.Some? then None else Some(second.state)
  }

  lemma MergeBothReplays(s: State, p: Proposal, audit: string, q: Proposal, audit': string)
    ensures var a, b := Decode(p, audit), Decode(q, audit');
            var both := MergeBoth(s, p, audit, q, audit');
            && (both.Some? <==> a.Some? && b.Some? && Replay(s, a.value + b.value).Ok?)
            && (both.Some? ==> Replay(s, a.value + b.value) == Ok(both.value))
  {
    hide MergeProposal, Replay, Decode;
    MergeReplays(s, p, audit);
    var first := MergeProposal(s, p, audit);
    if first.error.None? {
      MergeReplays(first.state, q, audit');
    }
    if Decode(p, audit).Some? && Decode(q, audit').Some? {
      ReplayAppend(s, Decode(p, audit).value, Decode(q, audit').value);
    }
  }

  /**
   Merging is confluent: from any well-formed state, two proposals can be merged in one order exactly
   when they can be merged in the other, and the two results agree up to provenance.
   */
  lemma MergeConfluent(s: State, p: Proposal, audit: string, q: Proposal, audit': string)
    requires WellFormed(s)
    ensures var left, right := MergeBoth(s, p, audit, q, audit'), MergeBoth(s, q, audit', p, audit);
            && (left.Some? <==> right.Some?)
            && (left.Some? ==> SameCore(left.value, right.value))
            && (left.Some? ==> WellFormed(left.value) && WellFormed(right.value))
  {
    hide MergeBoth, Replay, Decode, WellFormed, SameCore, Extends, Known, ProperHeader;
    MergeBothReplays(s, p, audit, q, audit');
    MergeBothReplays(s, q, audit', p, audit);
    if Decode(p, audit).Some? && Decode(q, audit').Some? {
      var a, b := Decode(p, audit).value, Decode(q, audit').value;
      DecodeProper(p, audit);
      DecodeProper(q, audit');
      ReplaySwap(s, a, b);
      if Replay(s, a + b).Ok? {
        assert ProperSteps(a + b) && ProperSteps(b + a);
        ReplayIff(s, a + b);
        ReplayIff(s, b + a);
        ReplayExtends(s, a + b);
        ReplayExtends(s, b + a);
        KnowledgeDecides(s, Replay(s, a + b).value, Replay(s, b + a).value);
      }
    }
  }
}
