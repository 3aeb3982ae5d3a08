/** The runner as an object over its files, proved against the specification functions of `Runner`. */
module CampaignRunning {
  import opened Wrappers
  import opened Text
  import opened MappingBlock
  import opened Campaigns
  import opened Merge
  import opened Confluence
  import opened Selection
  import opened Runner

  function TaskStem(c: Campaign, t: string): string
    requires t in c.tasks
  {
    Stem(c, c.tasks[t].content.slug)
  }

  /** The recorded stems once those of `ids` have been written. */
  ghost function StemsOf(c: Campaign, ids: seq<string>): map<string, string> {
    c.materialized.taskStems + map t | t in ids && t in c.tasks :: TaskStem(c, t)
  }

  lemma StemsOfStep(c: Campaign, ids: seq<string>, id: string)
    requires id in c.tasks
    ensures StemsOf(c, ids + [id]) == StemsOf(c, ids)[id := TaskStem(c, id)]
  {
    hide TaskStem;
  }

  /** `owners` maps the stem of every written task back to that task. */
  ghost predicate Owned(c: Campaign, ids: seq<string>, owners: map<string, string>) {
    && (forall s :: s in owners ==> owners[s] in c.tasks && TaskStem(c, owners[s]) == s)
    && (forall t :: t in ids ==> t in c.tasks && TaskStem(c, t) in owners && owners[TaskStem(c, t)] == t)
  }

  lemma NothingOwned(c: Campaign)
    ensures Owned(c, [], map[]) && StemsOf(c, []) == c.materialized.taskStems
  {
  }

  lemma OwnedStep(c: Campaign, ids: seq<string>, owners: map<string, string>, id: string)
    requires Owned(c, ids, owners) && id in c.tasks
    ensures var stem := TaskStem(c, id);
            if stem in owners && owners[stem] != id then StemsCollide(c) else Owned(c, ids + [id], owners[stem := id])
  {
    hide Stem;
    var stem := TaskStem(c, id);
    if stem in owners && owners[stem] != id {
      assert Stem(c, c.tasks[id].content.slug) == Stem(c, c.tasks[owners[stem]].content.slug);
    } else {
      var next := owners[stem := id];
      forall t | t in ids + [id]
        ensures t in c.tasks && TaskStem(c, t) in next && next[TaskStem(c, t)] == t
      {
      }
    }
  }

  lemma OwnedAll(c: Campaign, ids: seq<string>, owners: map<string, string>)
    requires Owned(c, ids, owners) && forall t :: t in ids <==> t in c.tasks
    ensures !StemsCollide(c)
  {
    hide Stem;
    forall t, u | t in c.tasks && u in c.tasks && Stem(c, c.tasks[t].content.slug) == Stem(c, c.tasks[u].content.slug)
      ensures t == u
    {
      assert TaskStem(c, t) == TaskStem(c, u);
    }
  }

  lemma StemsOfAll(c: Campaign, ids: seq<string>)
    requires forall t :: t in ids <==> t in c.tasks
    ensures StemsOf(c, ids) == Stems(c)
  {
    hide Stem;
  }

  class CampaignRunner {
    var disk: State
    var log: seq<Transition>
    var commits: seq<Commit>
    var docs: Documents

    constructor ()
      ensures View() == NEW_WORLD
    {
      disk, log, commits, docs := EMPTY_STATE, [], [], map[];
    }

    function View(): World
      reads this
    {
      World(disk, log, commits, docs)
    }

    method SaveState(s: State, runId: string, reason: Reason, previous: StateSha)
      modifies this`disk, this`log
      ensures View() == SaveAndLog(old(View()), s, runId, reason, previous)
    {
      disk := s;
      log := log + [Transition(runId, reason, previous, StateHash(s))];
    }

    method GitCommit(commit: Commit) returns (sha: Sha)
      modifies this`commits
      ensures sha == |old(commits)| && commits == old(commits) + [commit]
    {
      sha := |commits|;
      commits := commits + [commit];
    }

    /** Write the campaign's document if it is not there, then every task's in id order, refusing two for one file. */
    method MaterializeArtifacts(c: Campaign) returns (r: Option<Campaign>)
      modifies this`docs
      ensures r == Materialize(c) && docs == Placed(old(docs), c)
    {
      hide TaskStem, DocName, Less, Owned, StemsOf, StemsCollide, Stems, EnsureBlock;
      if DocName(c) !in docs {
        docs := docs[DocName(c) := EnsureBlock(c.markdown)];
      }
      var ids := SortedKeys(c.tasks.Keys);
      var owners: map<string, string> := map[];
      var stems := c.materialized.taskStems;
      NothingOwned(c);
      for i := 0 to |ids|
        invariant Owned(c, ids[..i], owners)
        invariant stems == StemsOf(c, ids[..i])
        invariant docs == Placed(old(docs), c)
      {
        var id := ids[i];
        assert id in ids && ids[..i + 1] == ids[..i] + [id];
        var stem := TaskStem(c, id);
        OwnedStep(c, ids[..i], owners, id);
        if stem in owners && owners[stem] != id {
          return None;
        }
        owners := owners[stem := id];
        StemsOfStep(c, ids[..i], id);
        stems := stems[id := stem];
      }
      assert ids[..|ids|] == ids;
      StemsOfAll(c, ids);
      OwnedAll(c, ids, owners);
      return Some(c.(materialized := Materialized(Some(DocName(c)), stems)));
    }

    /** Record a commit in the campaign's document; false on the invalid-block error. */
    method RecordCommit(c: Campaign, t: string, implementation: Sha) returns (ok: bool)
      modifies this`docs
      ensures var recorded := Recorded(old(docs), c, t, implementation);
              ok == recorded.Some? && docs == if ok then recorded.value else old(docs)
    {
      hide DocName, UpdateBlock, ShaText;
      var document := new CampaignDocument(if DocName(c) in docs then docs[DocName(c)] else "");
      var updated := document.UpdateMapping(t, ShaText(implementation), "SELF");
      ok := updated.Ok?;
      if ok {
        docs := docs[DocName(c) := document.text];
      }
    }

    /** The loop over one campaign's sorted task ids. */
    method ExecuteTasks(input: PassInput, c: string, ids: seq<string>, state: State, sha: StateSha)
      returns (memory: State, previous: StateSha, stop: Stop)
      requires c in state.campaigns
      requires forall i :: 0 <= i < |ids| ==> HoldsTask(state, c, ids[i])
      modifies this
      ensures Loop(View(), memory, previous, stop) == RunTasks(Loop(old(View()), state, sha, Running), input, c, ids)
    {
      memory, previous, stop := state, sha, Running;
      for i := 0 to |ids|
        invariant SameTaskIds(state, memory, c)
        invariant forall j :: 0 <= j < |ids| ==> HoldsTask(memory, c, ids[j])
        invariant forall j :: 0 <= j < |ids[i..]| ==> HoldsTask(memory, c, ids[i..][j])
        invariant stop.Running?
        invariant RunTasks(Loop(View(), memory, previous, stop), input, c, ids[i..])
                  == RunTasks(Loop(old(View()), state, sha, Running), input, c, ids)
      {
        var t := ids[i];
        assert ids[i..][0] == t && ids[i..][1..] == ids[i + 1..];
        assert HoldsTask(memory, c, t);
        if memory.campaigns[c].tasks[t].status != Success {
          ghost var before := Loop(View(), memory, previous, stop);
          memory, previous, stop := ExecuteTask(input, c, t, memory, previous);
          hide RunTask;
          assert Loop(View(), memory, previous, stop) == RunTask(before, input, c, t);
          assert forall j :: 0 <= j < |ids| ==> HoldsTask(before.memory, c, ids[j]);
          if !stop.Running? {
            return;
          }
        }
      }
    }

    method ExecuteTask(input: PassInput, c: string, t: string, state: State, sha: StateSha)
      returns (memory: State, previous: StateSha, stop: Stop)
      requires HoldsTask(state, c, t)
      modifies this
      ensures Loop(View(), memory, previous, stop) == RunTask(Loop(old(View()), state, sha, Running), input, c, t)
    {
      hide Recorded;
      memory, previous, stop := state, sha, Running;
      var campaign := state.campaigns[c];
      var outcome := input.agent(t);
      docs := docs + outcome.edits;
      if outcome.FailsBeforeCommit? || outcome.result.status == Pending {
        stop := Raised;
        return;
      }
      var implementation := GitCommit(Implementation(c, t));
      var task := memory.campaigns[c].tasks[t].(
        status := outcome.result.status, implementationCommit := Some(implementation), result := Some(outcome.result));
      memory := SetTask(memory, c, t, task);
      if outcome.FailsAfterCommit? {
        stop := Raised;
        return;
      }
      var recorded := RecordCommit(campaign, t, implementation);
      if !recorded {
        stop := Raised;
        return;
      }
      SaveState(memory, input.runId, TaskReceipt(t), previous);
      previous := StateHash(memory);
      if outcome.FailsAfterSave? {
        stop := Raised;
        return;
      }
      var receipt := GitCommit(Receipt(c, t));
      memory := SetTask(memory, c, t, task.(receiptCommit := Some(receipt)));
      if outcome.result.status != Success {
        stop := StoppedBy(t, outcome.result.status);
      }
    }

    method RunDiscovery(input: PassInput, c: string, state: State, sha: StateSha)
      returns (memory: State, stop: Stop)
      requires c in state.campaigns
      modifies this
      ensures Loop(View(), memory, sha, stop) == Discover(Loop(old(View()), state, sha, Running), input, c)
    {
      hide Materialize, Recorded, Placed;
      memory, stop := state, Raised;
      var campaign := state.campaigns[c];
      var id := DiscoveryId(campaign, input.runId);
      var added := AddDiscovery(state, c, input.runId);
      AddedDocument(docs, state, c, input.runId);
      var materialized := MaterializeArtifacts(added.campaigns[c]);
      if materialized.None? {
        return;
      }
      memory := added.(campaigns := added.campaigns[c := materialized.value]);
      var outcome := input.agent(id);
      if outcome.FailsBeforeCommit? {
        return;
      }
      var implementation := GitCommit(Implementation(c, id));
      var task := DiscoveryTask(campaign, input.runId).(status := Blocked,
                                                        implementationCommit := Some(implementation));
      memory := SetTask(memory, c, id, task);
      if outcome.FailsAfterCommit? {
        return;
      }
      var recorded := RecordCommit(campaign, id, implementation);
      if !recorded {
        return;
      }
      SaveState(memory, input.runId, DiscoveryBlocked, sha);
      if outcome.FailsAfterSave? {
        return;
      }
      var receipt := GitCommit(Receipt(c, id));
      memory := SetTask(memory, c, id, task.(receiptCommit := Some(receipt)));
      stop := Running;
    }

    lemma AddedDocument(docs: Documents, s: State, c: string, runId: string)
      requires c in s.campaigns
      ensures c in AddDiscovery(s, c, runId).campaigns
      ensures Placed(docs, AddDiscovery(s, c, runId).campaigns[c]) == Placed(docs, s.campaigns[c])
    {
      hide UpperSnake, DashesToUnderscores, EnsureBlock;
    }

    method FinishPass(input: PassInput, memory: State, previous: StateSha, end: Termination)
      modifies this
      ensures View() == Finish(old(View()), memory, input, previous, end).world
    {
      SaveState(memory, RunId(input), FinishReason(input.mode), previous);
      if input.commitsAtEnd && !input.mode.Fixtures? {
        var _ := GitCommit(RunReceipt(input.runId));
      }
    }

    /** Materialise the selected campaign, work on it, record its completion and close the pass. */
    method RunCampaign(input: PassInput, c: string, state: State, sha: StateSha) returns (end: Termination)
      requires c in state.campaigns
      modifies this
      ensures var r := RunSelected(old(View()), state, input, sha, c);
              View() == r.world && end == r.end
    {
      hide Materialize, WorkOn, Finish, Placed;
      var materialized := MaterializeArtifacts(state.campaigns[c]);
      if materialized.None? {
        return Aborted;
      }
      var memory := state.(campaigns := state.campaigns[c := materialized.value]);
      var previous, stop := sha, Running;
      memory, previous, stop := Work(input, c, memory, previous);
      if stop.Raised? {
        return Aborted;
      }
      end := WorkTermination(Loop(View(), memory, previous, stop), input, c, state.campaigns[c].tasks != map[]);
      ghost var worked := View();
      memory := memory.(campaigns := memory.campaigns[c := UpdateCompletion(memory.campaigns[c])]);
      FinishPass(input, memory, previous, end);
      FinishEnds(worked, memory, input, previous, end);
    }

    /** Execute the campaign's tasks, or fall back when it has none. */
    method Work(input: PassInput, c: string, state: State, sha: StateSha)
      returns (memory: State, previous: StateSha, stop: Stop)
      requires c in state.campaigns
      modifies this
      ensures Loop(View(), memory, previous, stop) == WorkOn(Loop(old(View()), state, sha, Running), input, c)
    {
      hide Discover, RunTasks;
      memory, previous, stop := state, sha, Running;
      var ids := SortedKeys(memory.campaigns[c].tasks.Keys);
      if input.mode.Fixtures? {
      } else if ids == [] {
        if input.allowDiscovery {
          memory, stop := RunDiscovery(input, c, memory, previous);
        } else {
          stop := Raised;
        }
      } else if input.mode.Execute? {
        SortedHeld(memory, c);
        memory, previous, stop := ExecuteTasks(input, c, ids, memory, previous);
      }
    }

    lemma FinishEnds(w: World, s: State, input: PassInput, previous: StateSha, end: Termination)
      ensures Finish(w, s, input, previous, end).end == end
    {
    }

    method Pass(input: PassInput) returns (end: Termination)
      requires WellFormed(disk)
      modifies this
      ensures var r := RunPass(old(View()), input);
              View() == r.world && end == r.end
    {
      hide MergeProposal, Select, RunSelected, WellFormed;
      if input.stagesFail {
        return Aborted;
      }
      var previous := StateHash(disk);
      var store := new StateStore(disk);
      var merged := store.MergeCampaignSet(input.proposal, AuditId(input));
      if merged.Err? {
        return Aborted;
      }
      var memory := store.View();
      MergeWellFormed(disk, input.proposal, AuditId(input));
      SelectedEligible(memory);
      var selected := Select(memory);
      match selected
      case None =>
        end := if merged.value == Additions(0, 0) then NoCampaignsProduced else NoEligibleCampaigns;
        FinishPass(input, memory, previous, end);
      case Some(c) =>
        end := RunCampaign(input, c, memory, previous);
    }
  }
}
