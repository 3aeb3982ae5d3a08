/** What the discovery fallback leaves: one blocked placeholder, in a campaign that stays open. */
module FallbackEffects {
  import opened Wrappers
  import opened Tasks
  import opened Campaigns
  import opened Merge
  import opened Confluence
  import opened Selection
  import opened Runner
  import opened DocumentLaws
  import opened RunSafety
  import opened Fallback
  import opened CommitRecords

  /** The one task of a campaign that fell back: blocked, never run by an agent, with these commits. */
  ghost predicate IsPlaceholder(task: Task, slug: string, runId: string, implementation: Sha, receipt: Option<Sha>) {
    && task.content.id == "discovery::" + slug + "::" + runId && task.content.slug == "discovery"
    && task.content.area == "docs" && task.content.risk == Low && task.content.lane == Some(Discovery)
    && task.content.files == [] && task.content.tests == [] && task.content.dependencies == []
    && task.hash == DiscoveryDigest(runId) && task.status == Blocked && task.result == None
    && task.implementationCommit == Some(implementation) && task.receiptCommit == receipt
  }

  /** The campaign holds its placeholder and nothing else, and is not completed. */
  ghost predicate HoldsPlaceholder(x: Campaign, slug: string, runId: string, implementation: Sha,
                                   receipt: Option<Sha>) {
    && x.status == Open && x.slug == slug
    && x.tasks.Keys == {"discovery::" + slug + "::" + runId}
    && IsPlaceholder(x.tasks["discovery::" + slug + "::" + runId], slug, runId, implementation, receipt)
  }

  ghost predicate OthersKept(m: State, s: State, c: string) {
    && s.campaigns.Keys == m.campaigns.Keys
    && forall d :: d in m.campaigns && d != c ==> s.campaigns[d] == m.campaigns[d]
  }

  lemma BlockedIsPlaceholder(x: Campaign, runId: string, implementation: Sha, receipt: Option<Sha>)
    ensures var task := DiscoveryTask(x, runId).(
              status := Blocked, implementationCommit := Some(implementation), receiptCommit := receipt);
            IsPlaceholder(task, x.slug, runId, implementation, receipt)
  {
  }

  /** The state with the placeholder stored in an empty campaign. */
  lemma StoredPlaceholder(s: State, c: string, y: Campaign, runId: string, task: Task)
    requires c in s.campaigns && s.campaigns[c].tasks == map[]
    requires y == AddDiscovery(s, c, runId).campaigns[c].(materialized := y.materialized)
    ensures var added := AddDiscovery(s, c, runId);
            var next := SetTask(added.(campaigns := added.campaigns[c := y]), c, DiscoveryId(s.campaigns[c], runId),
                                task);
            && c in next.campaigns && OthersKept(s, next, c)
            && next.campaigns[c].status == s.campaigns[c].status && next.campaigns[c].slug == s.campaigns[c].slug
            && next.campaigns[c].tasks == map[DiscoveryId(s.campaigns[c], runId) := task]
  {
    hide DiscoveryTask, SlugKey;
  }

  /** A fallback that saves leaves its placeholder on disk; one that finishes leaves it in memory with its receipt. */
  lemma DiscoverLeaves(l: Loop, input: PassInput, c: string, docs: Documents, x: Campaign)
    requires l.stop.Running? && c in l.memory.campaigns && l.memory.campaigns[c].tasks == map[] && x.status == Open
    requires l.memory.campaigns[c] == x.(materialized := l.memory.campaigns[c].materialized)
    requires l.world.docs == Placed(docs, x) && Updatable(DocumentText(docs, x))
    requires var outcome := input.agent(DiscoveryId(x, input.runId)); outcome.FailsAfterSave? || outcome.Finishes?
    ensures var d, p, id := Discover(l, input, c), |l.world.commits|, DiscoveryId(x, input.runId);
            && c in d.world.disk.campaigns && OthersKept(l.memory, d.world.disk, c)
            && HoldsPlaceholder(d.world.disk.campaigns[c], x.slug, input.runId, p, None)
            && (input.agent(id).Finishes? ==>
                  && OthersKept(l.memory, d.memory, c)
                  && HoldsPlaceholder(d.memory.campaigns[c], x.slug, input.runId, p, Some(p + 1))
                  && d.world.commits == l.world.commits + [Implementation(c, id), Receipt(c, id)])
  {
    hide Materialize, AddDiscovery, DiscoveryTask, StateHash, Recorded, Placed, Updatable, DocumentText, SetTask;
    hide IsPlaceholder;
    hide OthersKept;
    OneTaskMaterializes(l.memory, c, input.runId);
    SameDocName(x, l.memory.campaigns[c]);
    PlacedTwice(docs, x, l.memory.campaigns[c]);
    var p, id, added := |l.world.commits|, DiscoveryId(x, input.runId), AddDiscovery(l.memory, c, input.runId);
    PlacedRecordsIff(docs, x, id, p);
    SameRecorded(Placed(docs, x), x, l.memory.campaigns[c], id, p);
    var y := Materialize(added.campaigns[c]).value;
    MaterializedTasks(added.campaigns[c]);
    var stored := added.(campaigns := added.campaigns[c := y]);
    NewPlaceholder(l.memory.campaigns[c], input.runId);
    var blocked := DiscoveryTask(l.memory.campaigns[c], input.runId).(
      status := Blocked, implementationCommit := Some(p));
    var received := blocked.(receiptCommit := Some(p + 1));
    StoredPlaceholder(l.memory, c, y, input.runId, blocked);
    StoredPlaceholder(l.memory, c, y, input.runId, received);
    BlockedIsPlaceholder(l.memory.campaigns[c], input.runId, p, None);
    BlockedIsPlaceholder(l.memory.campaigns[c], input.runId, p, Some(p + 1));
    SetTwice(stored, c, id, blocked, received);
    IdSpelled(x, input.runId);
  }

  lemma IdSpelled(x: Campaign, runId: string)
    ensures DiscoveryId(x, runId) == "discovery::" + x.slug + "::" + runId
  {
  }

  /** Nothing that depends on an open campaign can run. */
  lemma OpenBlocks(s: State, c: string, e: string)
    requires c in s.campaigns && s.campaigns[c].status == Open && e in s.campaigns && c in s.campaigns[e].dependsOn
    ensures !CanRun(s, e)
  {
  }

  lemma PlaceholderStaysOpen(s: State, c: string, slug: string, runId: string, p: Sha, q: Option<Sha>, m: State)
    requires c in s.campaigns && HoldsPlaceholder(s.campaigns[c], slug, runId, p, q) && OthersKept(m, s, c)
    ensures HoldsPlaceholder(Completing(s, c).campaigns[c], slug, runId, p, q) && OthersKept(m, Completing(s, c), c)
  {
    var id := "discovery::" + slug + "::" + runId;
    assert id in s.campaigns[c].tasks && s.campaigns[c].tasks[id].status == Blocked;
  }

  lemma OthersThrough(a: State, b: State, s: State, c: string)
    requires OthersKept(a, b, c) && OthersKept(b, s, c)
    ensures OthersKept(a, s, c)
  {
  }

  lemma StartedOthers(m: State, c: string, y: Campaign)
    requires c in m.campaigns
    ensures OthersKept(m, m.(campaigns := m.campaigns[c := y]), c)
  {
  }

  /** The fallback is entered in a campaign that is open, and gets as far as its outcome allows. */
  lemma SelectedLeaves(w: World, m: State, input: PassInput, previous: StateSha, c: string)
    requires c in m.campaigns && m.campaigns[c].status == Open && EntersFallback(w.docs, input, m.campaigns[c])
    requires var outcome := input.agent(DiscoveryId(m.campaigns[c], input.runId));
             outcome.FailsAfterSave? || outcome.Finishes?
    ensures var r, x, p := RunSelected(w, m, input, previous, c), m.campaigns[c], |w.commits|;
            var id := DiscoveryId(x, input.runId);
            && c in r.world.disk.campaigns && OthersKept(m, r.world.disk, c)
            && HoldsPlaceholder(r.world.disk.campaigns[c], x.slug, input.runId, p,
                                if input.agent(id).Finishes? then Some(p + 1) else None)
            && (input.agent(id).Finishes? ==>
                  && w.commits + [Implementation(c, id), Receipt(c, id)] <= r.world.commits
                  && r.end == DiscoveryBlockedForReview)
  {
    hide Materialize, WorkOn, WorkTermination, RunSelected, Started, Finish, Placed, Updatable, DocumentText;
    hide HoldsPlaceholder;
    hide OthersKept, Completing;
    var x, id := m.campaigns[c], DiscoveryId(m.campaigns[c], input.runId);
    RunSelectedShape(w, m, input, previous, c);
    NoTasksMaterialize(x);
    StartedShape(w, m, previous, c);
    var l := Started(w, m, previous, c);
    StartedOthers(m, c, l.memory.campaigns[c]);
    DiscoverLeaves(l, input, c, w.docs, x);
    DiscoverEnds(l, input, c, w.docs, x);
    var worked := WorkOn(l, input, c);
    FallsBack(l, input, c);
    OthersThrough(m, l.memory, worked.world.disk, c);
    if worked.stop.Running? {
      OthersThrough(m, l.memory, worked.memory, c);
      PlaceholderStaysOpen(worked.memory, c, x.slug, input.runId, |w.commits|, Some(|w.commits| + 1), m);
      var end := WorkTermination(worked, input, c, x.tasks != map[]);
      FinishEnd(worked.world, Completing(worked.memory, c), input, worked.previous, end);
      FinishCommits(worked.world, Completing(worked.memory, c), input, worked.previous, end);
      EndsBlocked(worked, input, c);
    }
  }

  lemma FallsBack(l: Loop, input: PassInput, c: string)
    requires c in l.memory.campaigns && l.memory.campaigns[c].tasks == map[] && input.allowDiscovery
             && !input.mode.Fixtures?
    ensures WorkOn(l, input, c) == Discover(l, input, c)
  {
    hide Discover;
    assert l.memory.campaigns[c].tasks.Keys == {};
  }

  lemma FinishCommits(w: World, s: State, input: PassInput, previous: StateSha, end: Termination)
    ensures w.commits <= Finish(w, s, input, previous, end).world.commits
  {
    hide StateHash;
  }

  lemma EndsBlocked(l: Loop, input: PassInput, c: string)
    requires c in l.memory.campaigns && l.stop.Running? && !input.mode.Fixtures?
    ensures WorkTermination(l, input, c, false) == DiscoveryBlockedForReview
  {
  }

  /** The pass selects this campaign and falls back in it, as far as saving the placeholder. */
  ghost predicate SavesPlaceholder(w: World, input: PassInput, m: State, c: string)
    requires WellFormed(w.disk)
  {
    && PassSelection(w, input) == Some((m, c)) && c in m.campaigns
    && EntersFallback(w.docs, input, m.campaigns[c])
    && var outcome := input.agent(DiscoveryId(m.campaigns[c], input.runId));
       outcome.FailsAfterSave? || outcome.Finishes?
  }

  /**
   A fallback that saves leaves the selected campaign open on disk, with one task: the blocked placeholder of
   this run, which names the implementation this pass committed, and its receipt if the fallback is completed.
   Nothing that depends on the campaign can run; all other campaigns are as they were merged.
   */
  lemma FallbackLeaves(w: World, input: PassInput, m: State, c: string)
    requires WellFormed(w.disk) && SavesPlaceholder(w, input, m, c)
    ensures var r, x, p := RunPass(w, input), m.campaigns[c], |w.commits|;
            var id, finishes := DiscoveryId(x, input.runId), CompletesFallback(w, input);
            && c in r.world.disk.campaigns && OthersKept(m, r.world.disk, c)
            && HoldsPlaceholder(r.world.disk.campaigns[c], x.slug, input.runId, p,
                                if finishes then Some(p + 1) else None)
            && (forall e :: e in r.world.disk.campaigns && c in r.world.disk.campaigns[e].dependsOn ==>
                  !CanRun(r.world.disk, e))
            && (finishes ==> w.commits + [Implementation(c, id), Receipt(c, id)] <= r.world.commits
                             && r.end == DiscoveryBlockedForReview)
  {
    hide MergeProposal, Select, RunSelected, WellFormed, StateHash, EntersFallback, HoldsPlaceholder, OthersKept;
    hide Eligible, CanRun;
    MergeWellFormed(w.disk, input.proposal, AuditId(input));
    SelectedEligible(m);
    SelectedIsOpen(m, c);
    SelectedLeaves(w, m, input, StateHash(w.disk), c);
    var disk := RunPass(w, input).world.disk;
    PlaceholderOpen(disk.campaigns[c], m.campaigns[c].slug, input.runId, |w.commits|,
                    if CompletesFallback(w, input) then Some(|w.commits| + 1) else None);
    forall e | e in disk.campaigns && c in disk.campaigns[e].dependsOn
      ensures !CanRun(disk, e)
    {
      OpenBlocks(disk, c, e);
    }
  }

  lemma SelectedIsOpen(m: State, c: string)
    requires Eligible(m, c)
    ensures c in m.campaigns && m.campaigns[c].status == Open
  {
  }

  lemma PlaceholderOpen(x: Campaign, slug: string, runId: string, p: Sha, q: Option<Sha>)
    requires HoldsPlaceholder(x, slug, runId, p, q)
    ensures x.status == Open
  {
  }
}
