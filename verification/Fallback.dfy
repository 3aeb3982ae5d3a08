/** When a pass takes the discovery fallback, told from the world and the input before it runs. */
module Fallback {
  import opened Wrappers
  import opened Campaigns
  import opened MappingBlock
  import opened Merge
  import opened Confluence
  import opened Selection
  import opened Runner
  import opened DocumentLaws
  import opened RunSafety

  /** The merged state and the campaign a pass selects in it, if it gets that far. */
  ghost function PassSelection(w: World, input: PassInput): (r: Option<(State, string)>)
    requires WellFormed(w.disk)
    ensures r.Some? ==> PassMerged(w, input, r.value.0) && r.value.1 in r.value.0.campaigns && WellFormed(r.value.0)
  {
    hide MergeProposal, Select, WellFormed, Eligible;
    var m := MergeProposal(w.disk, input.proposal, AuditId(input));
    if input.stagesFail || m.error.Some? then None
    else
      MergeWellFormed(w.disk, input.proposal, AuditId(input));
      SelectedEligible(m.state);
      match Select(m.state)
      case None => None
      case Some(c) =>
        EligibleHeld(m.state, c);
        Some((m.state, c))
  }

  /** The selected campaign has no tasks, the fallback is allowed and the document can record its commit. */
  ghost predicate EntersFallback(docs: Documents, input: PassInput, x: Campaign) {
    x.tasks == map[] && input.allowDiscovery && !input.mode.Fixtures? && Updatable(DocumentText(docs, x))
  }

  /** The pass completes the fallback. */
  ghost predicate CompletesFallback(w: World, input: PassInput)
    requires WellFormed(w.disk)
  {
    var selected := PassSelection(w, input);
    && selected.Some?
    && var x := selected.value.0.campaigns[selected.value.1];
       && EntersFallback(w.docs, input, x) && input.agent(DiscoveryId(x, input.runId)).Finishes?
  }

  lemma OneTaskMaterializes(s: State, c: string, runId: string)
    requires c in s.campaigns && s.campaigns[c].tasks == map[]
    ensures c in AddDiscovery(s, c, runId).campaigns && Materialize(AddDiscovery(s, c, runId).campaigns[c]).Some?
  {
    hide Stems, DocName, Stem;
  }

  lemma NoTasksMaterialize(x: Campaign)
    requires x.tasks == map[]
    ensures Materialize(x).Some?
  {
    hide Stems, DocName, Stem;
  }

  lemma PlacedTwice(docs: Documents, x: Campaign, y: Campaign)
    requires DocName(x) == DocName(y)
    ensures Placed(Placed(docs, x), y) == Placed(docs, x)
  {
    hide DocName, EnsureBlock;
  }

  lemma SameDocName(x: Campaign, y: Campaign)
    requires y == x.(materialized := y.materialized)
    ensures DocName(y) == DocName(x)
  {
    hide DashesToUnderscores, UpperSnake;
  }

  /** How the fallback ends, and what it has then saved. */
  lemma DiscoverEnds(l: Loop, input: PassInput, c: string, docs: Documents, x: Campaign)
    requires l.stop.Running? && c in l.memory.campaigns && l.memory.campaigns[c].tasks == map[]
    requires l.memory.campaigns[c] == x.(materialized := l.memory.campaigns[c].materialized)
    requires l.world.docs == Placed(docs, x)
    ensures var d := Discover(l, input, c);
            var outcome := input.agent(DiscoveryId(x, input.runId));
            && (d.stop.Running? <==> Updatable(DocumentText(docs, x)) && outcome.Finishes?)
            && (d.stop.Running? || d.stop.Raised?)
            && (!(Updatable(DocumentText(docs, x)) && (outcome.Finishes? || outcome.FailsAfterSave?)) ==>
                  d.world.disk == l.world.disk && d.world.log == l.world.log)
  {
    hide Materialize, AddDiscovery, DiscoveryTask, StateHash, Recorded, Placed, Updatable, DocumentText, SetTask;
    OneTaskMaterializes(l.memory, c, input.runId);
    SameDocName(x, l.memory.campaigns[c]);
    PlacedTwice(docs, x, l.memory.campaigns[c]);
    PlacedRecordsIff(docs, x, DiscoveryId(x, input.runId), |l.world.commits|);
    SameRecorded(Placed(docs, x), x, l.memory.campaigns[c], DiscoveryId(x, input.runId), |l.world.commits|);
  }

  lemma SameRecorded(docs: Documents, x: Campaign, y: Campaign, t: string, sha: Sha)
    requires DocName(x) == DocName(y)
    ensures Recorded(docs, y, t, sha) == Recorded(docs, x, t, sha)
  {
    hide DocName;
  }

  lemma SelectedEndsIff(w: World, m: State, input: PassInput, previous: StateSha, c: string)
    requires c in m.campaigns
    ensures RunSelected(w, m, input, previous, c).end == DiscoveryBlockedForReview <==>
            && EntersFallback(w.docs, input, m.campaigns[c])
            && input.agent(DiscoveryId(m.campaigns[c], input.runId)).Finishes?
  {
    hide Materialize, WorkOn, WorkTermination, EntersFallback, Started, RunSelected, Completing, Finish;
    var x := m.campaigns[c];
    RunSelectedShape(w, m, input, previous, c);
    if Materialize(x).Some? {
      StartedShape(w, m, previous, c);
      var l := Started(w, m, previous, c);
      WorkEndsIff(l, input, c, w.docs, x);
      var worked := WorkOn(l, input, c);
      if !worked.stop.Raised? {
        FinishEnd(worked.world, Completing(worked.memory, c), input, worked.previous,
                  WorkTermination(worked, input, c, x.tasks != map[]));
      }
    } else if x.tasks == map[] {
      NoTasksMaterialize(x);
    } else {
      assert !EntersFallback(w.docs, input, x) by { TasksNoFallback(w.docs, input, x); }
    }
  }

  lemma TasksNoFallback(docs: Documents, input: PassInput, x: Campaign)
    requires x.tasks != map[]
    ensures !EntersFallback(docs, input, x)
  {
  }

  lemma WorkEndsIff(l: Loop, input: PassInput, c: string, docs: Documents, x: Campaign)
    requires l.stop.Running? && c in l.memory.campaigns
    requires l.memory.campaigns[c] == x.(materialized := l.memory.campaigns[c].materialized)
    requires l.world.docs == Placed(docs, x)
    ensures var worked := WorkOn(l, input, c);
            (!worked.stop.Raised? && WorkTermination(worked, input, c, x.tasks != map[]) == DiscoveryBlockedForReview)
            <==> EntersFallback(docs, input, x) && input.agent(DiscoveryId(x, input.runId)).Finishes?
  {
    hide Discover, RunTasks, Updatable, DocumentText, AllSucceeded, Placed;
    assert x.tasks == map[] <==> x.tasks.Keys == {};
    if x.tasks == map[] {
      DiscoverEnds(l, input, c, docs, x);
    }
  }

  lemma FinishEnd(w: World, s: State, input: PassInput, previous: StateSha, end: Termination)
    ensures Finish(w, s, input, previous, end).end == end && Finish(w, s, input, previous, end).world.disk == s
  {
    hide StateHash;
  }

  /** A pass ends with the placeholder blocked for review exactly when its input makes it fall back. */
  lemma PassEndsIff(w: World, input: PassInput)
    requires WellFormed(w.disk)
    ensures RunPass(w, input).end == DiscoveryBlockedForReview <==> CompletesFallback(w, input)
  {
    hide MergeProposal, Select, RunSelected, WellFormed, StateHash, Eligible, EntersFallback;
    var selected := PassSelection(w, input);
    if selected.Some? {
      SelectedEndsIff(w, selected.value.0, input, StateHash(w.disk), selected.value.1);
    }
  }
}
