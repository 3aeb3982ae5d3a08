/** Index agreement over whole runs, and exactly what the discovery fallback does to it. */
module IndexRuns {
  import opened Wrappers
  import opened Text
  import opened Tasks
  import opened Campaigns
  import opened Merge
  import opened Confluence
  import opened IndexLaws
  import opened Selection
  import opened Runner
  import opened DocumentLaws
  import opened RunSafety
  import opened Fallback

  /** The same tasks with the same contents and hashes, and the same indexes. */
  ghost predicate SameIndexed(a: State, b: State) {
    && b.byId == a.byId && b.bySlug == a.bySlug && b.campaigns.Keys == a.campaigns.Keys
    && forall c :: c in a.campaigns ==> SameIndexedCampaign(a.campaigns[c], b.campaigns[c])
  }

  ghost predicate SameIndexedCampaign(x: Campaign, y: Campaign) {
    && y.slug == x.slug && y.tasks.Keys == x.tasks.Keys
    && forall t :: t in x.tasks && t in y.tasks ==>
         y.tasks[t].content == x.tasks[t].content && y.tasks[t].hash == x.tasks[t].hash
  }

  lemma IndexesKept(a: State, b: State)
    requires IndexesAgree(a) && SameIndexed(a, b)
    ensures IndexesAgree(b)
  {
    forall c, t | c in b.campaigns && t in b.campaigns[c].tasks
      ensures Indexed(b, c, t)
    {
      assert SameIndexedCampaign(a.campaigns[c], b.campaigns[c]) && Indexed(a, c, t);
    }
    forall t | t in b.byId
      ensures IdEntryBacked(b, t)
    {
      assert IdEntryBacked(a, t)
        && SameIndexedCampaign(a.campaigns[a.byId[t].campaign], b.campaigns[a.byId[t].campaign]);
    }
    forall key | key in b.bySlug
      ensures SlugEntryBacked(b, key)
    {
      assert SlugEntryBacked(a, key)
        && SameIndexedCampaign(a.campaigns[a.bySlug[key].campaign], b.campaigns[a.bySlug[key].campaign]);
    }
  }

  lemma SameIndexedTransitive(a: State, b: State, c: State)
    requires SameIndexed(a, b) && SameIndexed(b, c)
    ensures SameIndexed(a, c)
  {
    forall id | id in a.campaigns
      ensures SameIndexedCampaign(a.campaigns[id], c.campaigns[id])
    {
      assert SameIndexedCampaign(a.campaigns[id], b.campaigns[id])
        && SameIndexedCampaign(b.campaigns[id], c.campaigns[id]);
    }
  }

  lemma SetTaskIndexed(s: State, c: string, t: string, task: Task)
    requires HoldsTask(s, c, t)
    requires task.content == s.campaigns[c].tasks[t].content && task.hash == s.campaigns[c].tasks[t].hash
    ensures SameIndexed(s, SetTask(s, c, t, task))
  {
    var next := SetTask(s, c, t, task);
    forall d | d in s.campaigns
      ensures SameIndexedCampaign(s.campaigns[d], next.campaigns[d])
    {
    }
  }

  /** Replacing one campaign's record without touching its tasks or slug. */
  lemma SetCampaignIndexed(s: State, c: string, y: Campaign)
    requires c in s.campaigns && y.slug == s.campaigns[c].slug && y.tasks == s.campaigns[c].tasks
    ensures SameIndexed(s, s.(campaigns := s.campaigns[c := y]))
  {
    var next := s.(campaigns := s.campaigns[c := y]);
    forall d | d in s.campaigns
      ensures SameIndexedCampaign(s.campaigns[d], next.campaigns[d])
    {
    }
  }

  ghost predicate LoopIndexed(l: Loop) {
    IndexesAgree(l.memory) && IndexesAgree(l.world.disk)
  }

  lemma RunTaskIndexed(l: Loop, input: PassInput, c: string, t: string)
    requires LoopIndexed(l) && HoldsTask(l.memory, c, t)
    ensures LoopIndexed(RunTask(l, input, c, t))
  {
    hide IndexesAgree, SameIndexed, SetTask, StateHash, Recorded, Placed;
    var outcome := input.agent(t);
    if !outcome.FailsBeforeCommit? && outcome.result.status != Pending {
      var done := l.memory.campaigns[c].tasks[t].(
        status := outcome.result.status, implementationCommit := Some(|l.world.commits|),
            result := Some(outcome.result));
      SetTaskIndexed(l.memory, c, t, done);
      var memory := SetTask(l.memory, c, t, done);
      IndexesKept(l.memory, memory);
      SetTaskHolds(l.memory, c, t, done);
      var received := done.(receiptCommit := Some(|l.world.commits| + 1));
      SetTaskIndexed(memory, c, t, received);
      IndexesKept(memory, SetTask(memory, c, t, received));
    }
  }

  lemma {:induction false} RunTasksIndexed(l: Loop, input: PassInput, c: string, ids: seq<string>)
    requires LoopIndexed(l)
    requires c in l.memory.campaigns && forall i :: 0 <= i < |ids| ==> HoldsTask(l.memory, c, ids[i])
    ensures LoopIndexed(RunTasks(l, input, c, ids))
    decreases |ids|
  {
    hide LoopIndexed, RunTask;
    if ids != [] && l.stop.Running? {
      var rest := ids[1..];
      assert HoldsTask(l.memory, c, ids[0]);
      assert forall i :: 0 <= i < |rest| ==> rest[i] == ids[i + 1] && HoldsTask(l.memory, c, ids[i + 1]);
      if l.memory.campaigns[c].tasks[ids[0]].status == Success {
        RunTasksIndexed(l, input, c, rest);
      } else {
        RunTaskIndexed(l, input, c, ids[0]);
        RunTasksIndexed(RunTask(l, input, c, ids[0]), input, c, rest);
      }
    }
  }

  // ---------------------------------------------------------------- the fallback

  /**
   The fallback's two index entries belong to nobody else: a task already stored under the placeholder's
   id or slug key elsewhere carries the placeholder's own hash.
   */
  ghost predicate PlaceholderIsFree(s: State, c: string, runId: string)
    requires c in s.campaigns
  {
    forall d, t :: d in s.campaigns && t in s.campaigns[d].tasks && d != c ==>
      var task := s.campaigns[d].tasks[t];
      var id := DiscoveryId(s.campaigns[c], runId);
      && (t == id ==> task.hash == DiscoveryDigest(runId))
      && (SlugKey(s.campaigns[d].slug, task.content.slug) == SlugKey(s.campaigns[c].slug, "discovery") ==>
            task.hash == DiscoveryDigest(runId) && t == id)
  }

  lemma AddDiscoveryShape(s: State, c: string, runId: string)
    requires c in s.campaigns && s.campaigns[c].tasks == map[]
    ensures var next := AddDiscovery(s, c, runId);
            var id, hash := DiscoveryId(s.campaigns[c], runId), DiscoveryDigest(runId);
            var key := SlugKey(s.campaigns[c].slug, "discovery");
            && next.campaigns.Keys == s.campaigns.Keys
            && (forall d :: d in s.campaigns && d != c ==> next.campaigns[d] == s.campaigns[d])
            && next.campaigns[c].slug == s.campaigns[c].slug
            && next.campaigns[c].tasks.Keys == {id}
            && next.campaigns[c].tasks[id].hash == hash && next.campaigns[c].tasks[id].content.id == id
            && next.campaigns[c].tasks[id].content.slug == "discovery"
            && next.byId == s.byId[id := IdEntry(c, hash)]
            && next.bySlug == s.bySlug[key := SlugEntry(c, id, hash)]
  {
  }

  lemma DiscoveryIndexed(s: State, c: string, runId: string, d: string, t: string)
    requires IndexesAgree(s) && c in s.campaigns && s.campaigns[c].tasks == map[] && PlaceholderIsFree(s, c, runId)
    requires var next := AddDiscovery(s, c, runId); d in next.campaigns && t in next.campaigns[d].tasks
    ensures Indexed(AddDiscovery(s, c, runId), d, t)
  {
    hide AddDiscovery, SlugKey, DiscoveryId, IdEntryBacked, SlugEntryBacked;
    AddDiscoveryShape(s, c, runId);
    if d != c {
      assert Indexed(s, d, t);
    }
  }

  lemma DiscoveryBacked(s: State, c: string, runId: string)
    requires IndexesAgree(s) && c in s.campaigns && s.campaigns[c].tasks == map[]
    ensures var next := AddDiscovery(s, c, runId);
            && (forall t :: t in next.byId ==> IdEntryBacked(next, t))
            && (forall key :: key in next.bySlug ==> SlugEntryBacked(next, key))
  {
    hide AddDiscovery, SlugKey, DiscoveryId, Indexed;
    AddDiscoveryShape(s, c, runId);
    var next := AddDiscovery(s, c, runId);
    forall t | t in next.byId
      ensures IdEntryBacked(next, t)
    {
      if t in s.byId {
        assert IdEntryBacked(s, t);
        assert s.byId[t].campaign != c;
      }
    }
    forall key | key in next.bySlug
      ensures SlugEntryBacked(next, key)
    {
      if key in s.bySlug {
        assert SlugEntryBacked(s, key);
        assert s.bySlug[key].campaign != c;
      }
    }
  }

  /** The fallback keeps the indexes in agreement exactly when its entries belong to nobody else. */
  lemma DiscoveryKeepsIndexesIff(s: State, c: string, runId: string)
    requires IndexesAgree(s) && c in s.campaigns && s.campaigns[c].tasks == map[]
    ensures IndexesAgree(AddDiscovery(s, c, runId)) <==> PlaceholderIsFree(s, c, runId)
  {
    hide AddDiscovery, SlugKey, DiscoveryId, Indexed, IdEntryBacked, SlugEntryBacked;
    var next := AddDiscovery(s, c, runId);
    if PlaceholderIsFree(s, c, runId) {
      forall d, t | d in next.campaigns && t in next.campaigns[d].tasks
        ensures Indexed(next, d, t)
      {
        DiscoveryIndexed(s, c, runId, d, t);
      }
      DiscoveryBacked(s, c, runId);
    }
    if IndexesAgree(next) {
      AddDiscoveryShape(s, c, runId);
      forall d, t | d in s.campaigns && t in s.campaigns[d].tasks && d != c
        ensures (t == DiscoveryId(s.campaigns[c], runId) ==> s.campaigns[d].tasks[t].hash == DiscoveryDigest(runId))
        ensures SlugKey(s.campaigns[d].slug, s.campaigns[d].tasks[t].content.slug) ==
                  SlugKey(s.campaigns[c].slug, "discovery") ==>
                  s.campaigns[d].tasks[t].hash == DiscoveryDigest(runId) && t == DiscoveryId(s.campaigns[c], runId)
      {
        assert Indexed(next, d, t);
        IndexedAfterDiscovery(s, c, runId, d, t);
      }
    }
  }

  lemma IndexedAfterDiscovery(s: State, c: string, runId: string, d: string, t: string)
    requires c in s.campaigns && s.campaigns[c].tasks == map[] && d in s.campaigns && d != c
             && t in s.campaigns[d].tasks
    requires d in AddDiscovery(s, c, runId).campaigns && t in AddDiscovery(s, c, runId).campaigns[d].tasks
    requires Indexed(AddDiscovery(s, c, runId), d, t)
    ensures (t == DiscoveryId(s.campaigns[c], runId) ==> s.campaigns[d].tasks[t].hash == DiscoveryDigest(runId))
    ensures SlugKey(s.campaigns[d].slug, s.campaigns[d].tasks[t].content.slug) ==
              SlugKey(s.campaigns[c].slug, "discovery") ==>
              s.campaigns[d].tasks[t].hash == DiscoveryDigest(runId) && t == DiscoveryId(s.campaigns[c], runId)
  {
    hide AddDiscovery, SlugKey, DiscoveryId;
    AddDiscoveryShape(s, c, runId);
  }

  /** The entries can belong to somebody else: another campaign of the same slug has a task "discovery". */
  lemma DiscoveryCanBreakIndexes(s: State, c: string, runId: string, d: string, t: string)
    requires IndexesAgree(s) && c in s.campaigns && s.campaigns[c].tasks == map[]
    requires d in s.campaigns && d != c && s.campaigns[d].slug == s.campaigns[c].slug
    requires t in s.campaigns[d].tasks && s.campaigns[d].tasks[t].content.slug == "discovery"
    requires s.campaigns[d].tasks[t].hash.TaskDigest?
    ensures !IndexesAgree(AddDiscovery(s, c, runId))
  {
    hide AddDiscovery, IndexesAgree;
    DiscoveryKeepsIndexesIff(s, c, runId);
  }

  // ---------------------------------------------------------------- whole passes

  lemma IndexesKeptIff(a: State, b: State)
    requires SameIndexed(a, b)
    ensures IndexesAgree(a) <==> IndexesAgree(b)
  {
    hide IndexesAgree;
    SameIndexedBack(a, b);
    if IndexesAgree(a) {
      IndexesKept(a, b);
    }
    if IndexesAgree(b) {
      IndexesKept(b, a);
    }
  }

  lemma SameIndexedBack(a: State, b: State)
    requires SameIndexed(a, b)
    ensures SameIndexed(b, a)
  {
    forall c | c in b.campaigns
      ensures SameIndexedCampaign(b.campaigns[c], a.campaigns[c])
    {
      assert SameIndexedCampaign(a.campaigns[c], b.campaigns[c]);
    }
  }

  /** What a fallback that saves its placeholder leaves, on disk and in memory. */
  lemma DiscoverSaves(l: Loop, input: PassInput, c: string, docs: Documents, x: Campaign)
    requires l.stop.Running? && c in l.memory.campaigns && l.memory.campaigns[c].tasks == map[]
    requires l.memory.campaigns[c] == x.(materialized := l.memory.campaigns[c].materialized)
    requires l.world.docs == Placed(docs, x) && Updatable(DocumentText(docs, x))
    requires var outcome := input.agent(DiscoveryId(x, input.runId)); outcome.FailsAfterSave? || outcome.Finishes?
    ensures var d, added := Discover(l, input, c), AddDiscovery(l.memory, c, input.runId);
            SameIndexed(added, d.world.disk) && SameIndexed(added, d.memory)
  {
    hide Materialize, AddDiscovery, StateHash, Recorded, Placed, Updatable, DocumentText, SetTask, SameIndexed;
    hide DiscoveryTask;
    OneTaskMaterializes(l.memory, c, input.runId);
    SameDocName(x, l.memory.campaigns[c]);
    PlacedTwice(docs, x, l.memory.campaigns[c]);
    PlacedRecordsIff(docs, x, DiscoveryId(x, input.runId), |l.world.commits|);
    SameRecorded(Placed(docs, x), x, l.memory.campaigns[c], DiscoveryId(x, input.runId), |l.world.commits|);
    var id, added := DiscoveryId(x, input.runId), AddDiscovery(l.memory, c, input.runId);
    var y := Materialize(added.campaigns[c]).value;
    var stored := added.(campaigns := added.campaigns[c := y]);
    MaterializedTasks(added.campaigns[c]);
    DiscoveryAdded(l.memory, c, input.runId);
    SetCampaignIndexed(added, c, y);
    var blocked := DiscoveryTask(l.memory.campaigns[c], input.runId).(
      status := Blocked, implementationCommit := Some(|l.world.commits|));
    BlockedSameContent(l.memory.campaigns[c], input.runId, |l.world.commits|);
    SetTaskIndexed(stored, c, id, blocked);
    var memory := SetTask(stored, c, id, blocked);
    SameIndexedTransitive(added, stored, memory);
    SetTaskHolds(stored, c, id, blocked);
    var received := blocked.(receiptCommit := Some(|l.world.commits| + 1));
    SetTaskIndexed(memory, c, id, received);
    SameIndexedTransitive(added, memory, SetTask(memory, c, id, received));
  }

  lemma BlockedSameContent(x: Campaign, runId: string, sha: Sha)
    ensures var task := DiscoveryTask(x, runId);
            var blocked := task.(status := Blocked, implementationCommit := Some(sha));
            blocked.content == task.content && blocked.hash == task.hash
  {
  }

  lemma FreeEither(m: State, n: State, c: string, runId: string)
    requires c in m.campaigns && c in n.campaigns
             && n.campaigns == m.campaigns[c := m.campaigns[c].(materialized := n.campaigns[c].materialized)]
    ensures PlaceholderIsFree(n, c, runId) <==> PlaceholderIsFree(m, c, runId)
  {
    hide SlugKey;
    assert n.campaigns[c].slug == m.campaigns[c].slug;
    forall d | d in m.campaigns && d != c
      ensures d in n.campaigns && n.campaigns[d] == m.campaigns[d]
    {
    }
  }

  /** Whether the fallback's placeholder is saved and one of its index entries belongs to another campaign's task. */
  ghost predicate Spoils(docs: Documents, input: PassInput, m: State, c: string)
    requires c in m.campaigns
  {
    var outcome := input.agent(DiscoveryId(m.campaigns[c], input.runId));
    EntersFallback(docs, input, m.campaigns[c]) && (outcome.FailsAfterSave? || outcome.Finishes?)
    && !PlaceholderIsFree(m, c, input.runId)
  }

  lemma SelectedIndexedIff(w: World, m: State, input: PassInput, previous: StateSha, c: string)
    requires IndexesAgree(w.disk) && IndexesAgree(m) && c in m.campaigns
    ensures IndexesAgree(RunSelected(w, m, input, previous, c).world.disk) <==> !Spoils(w.docs, input, m, c)
  {
    hide IndexesAgree, Materialize, WorkOn, WorkTermination, RunSelected, Started, Completing, Spoils, Finish;
    var x := m.campaigns[c];
    RunSelectedShape(w, m, input, previous, c);
    if Materialize(x).Some? {
      StartedShape(w, m, previous, c);
      var l := Started(w, m, previous, c);
      SetCampaignIndexed(m, c, l.memory.campaigns[c]);
      IndexesKept(m, l.memory);
      WorkIndexedIff(l, input, c, w.docs, m);
      var worked := WorkOn(l, input, c);
      if !worked.stop.Raised? {
        FinishEnd(worked.world, Completing(worked.memory, c), input, worked.previous,
                  WorkTermination(worked, input, c, x.tasks != map[]));
        CompletingIndexed(worked.memory, c);
      }
    } else {
      CollisionSpoilsNothing(w.docs, input, m, c);
    }
  }

  lemma CollisionSpoilsNothing(docs: Documents, input: PassInput, m: State, c: string)
    requires c in m.campaigns && Materialize(m.campaigns[c]).None?
    ensures !Spoils(docs, input, m, c)
  {
    hide Materialize, PlaceholderIsFree, Updatable, DocumentText;
    if m.campaigns[c].tasks == map[] {
      NoTasksMaterialize(m.campaigns[c]);
    }
  }

  lemma WorkIndexedIff(l: Loop, input: PassInput, c: string, docs: Documents, m: State)
    requires LoopIndexed(l) && l.stop.Running? && c in l.memory.campaigns && c in m.campaigns
    requires l.memory ==
               m.(campaigns := m.campaigns[c := m.campaigns[c].(materialized := l.memory.campaigns[c].materialized)])
    requires l.world.docs == Placed(docs, m.campaigns[c])
    ensures var worked := WorkOn(l, input, c);
            && (IndexesAgree(worked.world.disk) <==> !Spoils(docs, input, m, c))
            && (!worked.stop.Raised? ==> (IndexesAgree(worked.memory) <==> !Spoils(docs, input, m, c)))
  {
    hide IndexesAgree, WorkOn, PlaceholderIsFree, Updatable, DocumentText, Placed;
    var x := m.campaigns[c];
    if x.tasks == map[] && input.allowDiscovery && !input.mode.Fixtures? {
      WorkIsDiscover(l, input, c);
      DiscoverIndexedIff(l, input, c, docs, x);
      FreeEither(m, l.memory, c, input.runId);
    } else {
      WorkOnIndexed(l, input, c);
    }
  }

  lemma CompletingIndexed(s: State, c: string)
    requires c in s.campaigns
    ensures IndexesAgree(Completing(s, c)) <==> IndexesAgree(s)
  {
    hide IndexesAgree, SameIndexed, AllSucceeded;
    SetCampaignIndexed(s, c, UpdateCompletion(s.campaigns[c]));
    IndexesKeptIff(s, Completing(s, c));
  }

  lemma WorkIsDiscover(l: Loop, input: PassInput, c: string)
    requires c in l.memory.campaigns && l.memory.campaigns[c].tasks == map[] && input.allowDiscovery
             && !input.mode.Fixtures?
    ensures WorkOn(l, input, c) == Discover(l, input, c)
  {
    hide Discover;
    assert l.memory.campaigns[c].tasks.Keys == {};
  }

  lemma DiscoverIndexedIff(l: Loop, input: PassInput, c: string, docs: Documents, x: Campaign)
    requires LoopIndexed(l) && l.stop.Running? && c in l.memory.campaigns && l.memory.campaigns[c].tasks == map[]
    requires l.memory.campaigns[c] == x.(materialized := l.memory.campaigns[c].materialized)
    requires l.world.docs == Placed(docs, x)
    ensures var d, outcome := Discover(l, input, c), input.agent(DiscoveryId(x, input.runId));
            var spoilt := Updatable(DocumentText(docs, x)) && (outcome.FailsAfterSave? || outcome.Finishes?)
                          && !PlaceholderIsFree(l.memory, c, input.runId);
            && (IndexesAgree(d.world.disk) <==> !spoilt)
            && (d.stop.Running? ==> (IndexesAgree(d.memory) <==> !spoilt))
            && (d.stop.Running? || d.stop.Raised?)
  {
    hide IndexesAgree, Discover, PlaceholderIsFree, Updatable, DocumentText, SameIndexed, AddDiscovery;
    DiscoverEnds(l, input, c, docs, x);
    var outcome := input.agent(DiscoveryId(x, input.runId));
    if Updatable(DocumentText(docs, x)) && (outcome.FailsAfterSave? || outcome.Finishes?) {
      DiscoverSaves(l, input, c, docs, x);
      var d, added := Discover(l, input, c), AddDiscovery(l.memory, c, input.runId);
      IndexesKeptIff(added, d.world.disk);
      IndexesKeptIff(added, d.memory);
      DiscoveryKeepsIndexesIff(l.memory, c, input.runId);
    }
  }

  lemma WorkOnIndexed(l: Loop, input: PassInput, c: string)
    requires LoopIndexed(l) && c in l.memory.campaigns
    requires l.memory.campaigns[c].tasks != map[] || !input.allowDiscovery || input.mode.Fixtures?
    ensures LoopIndexed(WorkOn(l, input, c))
  {
    hide IndexesAgree, RunTasks, Discover;
    var tasks := l.memory.campaigns[c].tasks;
    var ids := SortedKeys(tasks.Keys);
    assert tasks != map[] ==> tasks.Keys != {};
    SortedHeld(l.memory, c);
    RunTasksIndexed(l, input, c, ids);
  }

  /** The pass saves a fallback placeholder whose index entries belong to another campaign's task. */
  ghost predicate SpoilsIndexes(w: World, input: PassInput)
    requires WellFormed(w.disk)
  {
    var selected := PassSelection(w, input);
    selected.Some? && Spoils(w.docs, input, selected.value.0, selected.value.1)
  }

  /** A pass, aborted or not, keeps the indexes in agreement exactly when it does not spoil them so. */
  lemma PassKeepsIndexesIff(w: World, input: PassInput)
    requires WellFormed(w.disk) && IndexesAgree(w.disk)
    ensures IndexesAgree(RunPass(w, input).world.disk) <==> !SpoilsIndexes(w, input)
  {
    hide MergeProposal, Select, RunSelected, WellFormed, StateHash, IndexesAgree, Eligible, Spoils;
    var merged := MergeProposal(w.disk, input.proposal, AuditId(input));
    if !input.stagesFail && merged.error.None? {
      MergeWellFormed(w.disk, input.proposal, AuditId(input));
      MergeKeepsIndexes(w.disk, input.proposal, AuditId(input));
      SelectedEligible(merged.state);
      if Select(merged.state).Some? {
        EligibleHeld(merged.state, Select(merged.state).value);
        SelectedIndexedIff(w, merged.state, input, StateHash(w.disk), Select(merged.state).value);
      }
    }
  }

  // ---------------------------------------------------------------- whole runs

  /** Two tasks that both indexes cannot describe at once. */
  ghost predicate Conflicting(s: State, c: string, t: string, d: string, u: string)
    requires c in s.campaigns && d in s.campaigns && t in s.campaigns[c].tasks && u in s.campaigns[d].tasks
  {
    var x, y := s.campaigns[c].tasks[t], s.campaigns[d].tasks[u];
    || (t == u && x.hash != y.hash)
    || (SlugKey(s.campaigns[c].slug, x.content.slug) == SlugKey(s.campaigns[d].slug, y.content.slug)
        && (x.hash != y.hash || t != u))
  }

  ghost predicate HasConflict(s: State) {
    exists c, t, d, u ::
      && c in s.campaigns && d in s.campaigns && t in s.campaigns[c].tasks && u in s.campaigns[d].tasks
      && Conflicting(s, c, t, d, u)
  }

  lemma AgreementHasNoConflict(s: State)
    requires IndexesAgree(s)
    ensures !HasConflict(s)
  {
    hide SlugKey, IdEntryBacked, SlugEntryBacked;
    forall c, t, d, u | c in s.campaigns && d in s.campaigns && t in s.campaigns[c].tasks && u in s.campaigns[d].tasks
      ensures !Conflicting(s, c, t, d, u)
    {
      assert Indexed(s, c, t) && Indexed(s, d, u);
    }
  }

  /** Tasks are never removed or changed, so a conflict stays. */
  lemma ConflictStays(a: State, b: State)
    requires HasConflict(a) && Grows(a, b)
    ensures HasConflict(b)
  {
    hide SlugKey;
    var c, t, d, u :| c in a.campaigns && d in a.campaigns && t in a.campaigns[c].tasks && u in a.campaigns[d].tasks
                   && Conflicting(a, c, t, d, u);
    assert CampaignGrows(a.campaigns[c], b.campaigns[c]) && CampaignGrows(a.campaigns[d], b.campaigns[d]);
    assert Conflicting(b, c, t, d, u);
  }

  lemma ConflictMoves(a: State, b: State)
    requires HasConflict(a) && SameIndexed(a, b)
    ensures HasConflict(b)
  {
    hide SlugKey;
    var c, t, d, u :| c in a.campaigns && d in a.campaigns && t in a.campaigns[c].tasks && u in a.campaigns[d].tasks
                   && Conflicting(a, c, t, d, u);
    assert SameIndexedCampaign(a.campaigns[c], b.campaigns[c]) && SameIndexedCampaign(a.campaigns[d], b.campaigns[d]);
    assert Conflicting(b, c, t, d, u);
  }

  /** A placeholder that is not free makes such a conflict. */
  lemma PlaceholderConflicts(s: State, c: string, runId: string)
    requires c in s.campaigns && s.campaigns[c].tasks == map[] && !PlaceholderIsFree(s, c, runId)
    ensures HasConflict(AddDiscovery(s, c, runId))
  {
    hide SlugKey, AddDiscovery, DiscoveryId;
    AddDiscoveryShape(s, c, runId);
    var next, id := AddDiscovery(s, c, runId), DiscoveryId(s.campaigns[c], runId);
    var d, t :| d in s.campaigns && t in s.campaigns[d].tasks && d != c
             && var task := s.campaigns[d].tasks[t];
                !((t == id ==> task.hash == DiscoveryDigest(runId))
                  && (SlugKey(s.campaigns[d].slug, task.content.slug) == SlugKey(s.campaigns[c].slug, "discovery") ==>
                        task.hash == DiscoveryDigest(runId) && t == id));
    assert next.campaigns[d] == s.campaigns[d];
    assert Conflicting(next, c, id, d, t);
  }

  lemma SpoiledConflicts(w: World, input: PassInput)
    requires WellFormed(w.disk) && SpoilsIndexes(w, input)
    ensures HasConflict(RunPass(w, input).world.disk)
  {
    hide MergeProposal, Select, RunSelected, WellFormed, StateHash, HasConflict, Spoils, Eligible;
    var selected := PassSelection(w, input).value;
    SelectedConflicts(w, selected.0, input, StateHash(w.disk), selected.1);
  }

  lemma SelectedConflicts(w: World, m: State, input: PassInput, previous: StateSha, c: string)
    requires c in m.campaigns && Spoils(w.docs, input, m, c)
    ensures HasConflict(RunSelected(w, m, input, previous, c).world.disk)
  {
    hide HasConflict, Materialize, WorkOn, Discover, RunSelected, Started, PlaceholderIsFree, Updatable, DocumentText;
    hide SameIndexed;
    var x := m.campaigns[c];
    RunSelectedShape(w, m, input, previous, c);
    NoTasksMaterialize(x);
    StartedShape(w, m, previous, c);
    var l := Started(w, m, previous, c);
    WorkIsDiscover(l, input, c);
    FreeEither(m, l.memory, c, input.runId);
    PlaceholderConflicts(l.memory, c, input.runId);
    DiscoverSaves(l, input, c, w.docs, x);
    var d, added := Discover(l, input, c), AddDiscovery(l.memory, c, input.runId);
    ConflictMoves(added, d.world.disk);
    ConflictMoves(added, d.memory);
    SetCampaignIndexed(d.memory, c, UpdateCompletion(d.memory.campaigns[c]));
    ConflictMoves(d.memory, Completing(d.memory, c));
    FinishEnd(d.world, Completing(d.memory, c), input, d.previous, WorkTermination(d, input, c, x.tasks != map[]));
  }

  /** No pass of the run spoils the indexes. */
  ghost predicate NeverSpoils(w: World, inputs: seq<PassInput>)
    requires WellFormed(w.disk)
    decreases |inputs|
  {
    hide RunPass, WellFormed, SpoilsIndexes;
    if inputs == [] then true
    else
      PassKeepsWellFormed(w, inputs[0]);
      !SpoilsIndexes(w, inputs[0]) && NeverSpoils(RunPass(w, inputs[0]).world, inputs[1..])
  }

  /** After any run the indexes agree with the campaigns, both ways, exactly when no pass spoiled them. */
  lemma {:induction false} RunKeepsIndexesIff(w: World, inputs: seq<PassInput>)
    requires WellFormed(w.disk) && IndexesAgree(w.disk)
    ensures IndexesAgree(RunAll(w, inputs).disk) <==> NeverSpoils(w, inputs)
    decreases |inputs|
  {
    hide RunPass, WellFormed, IndexesAgree, SpoilsIndexes, HasConflict, Grows;
    if inputs != [] {
      var next, rest := RunPass(w, inputs[0]).world, inputs[1..];
      PassKeepsWellFormed(w, inputs[0]);
      PassKeepsIndexesIff(w, inputs[0]);
      if SpoilsIndexes(w, inputs[0]) {
        SpoiledConflicts(w, inputs[0]);
        RunGrows(next, rest);
        ConflictStays(next.disk, RunAll(next, rest).disk);
        if IndexesAgree(RunAll(next, rest).disk) {
          AgreementHasNoConflict(RunAll(next, rest).disk);
        }
      } else {
        RunKeepsIndexesIff(next, rest);
      }
    }
  }
}
