/** What is settled is never worked on again: a task that has succeeded, and every task of a completed campaign. */
module Settled {
  import opened Text
  import opened Campaigns
  import opened Merge
  import opened Confluence
  import opened Selection
  import opened Runner
  import opened RunSafety
  import opened TransitionLog

  // ---------------------------------------------------------------- commits

  /** The campaign is completed, whether or not it holds the task, or the task has succeeded. */
  ghost predicate IsSettled(s: State, c: string, t: string) {
    && c in s.campaigns
    && (s.campaigns[c].status == Completed || (t in s.campaigns[c].tasks && s.campaigns[c].tasks[t].status == Success))
  }

  /** None of the commits gained belongs to the task. */
  ghost predicate NotCommitted(before: seq<Commit>, after: seq<Commit>, c: string, t: string) {
    && |before| <= |after|
    && forall i :: |before| <= i < |after| ==> after[i] != Implementation(c, t) && after[i] != Receipt(c, t)
  }

  lemma NotCommittedTransitive(x: seq<Commit>, y: seq<Commit>, z: seq<Commit>, c: string, t: string)
    requires NotCommitted(x, y, c, t) && NotCommitted(y, z, c, t) && y <= z
    ensures NotCommitted(x, z, c, t)
  {
  }

  /** Work on campaign `d` cannot run the task: it belongs to another campaign or has succeeded. */
  ghost predicate Spared(s: State, d: string, c: string, t: string) {
    d != c || (c in s.campaigns && t in s.campaigns[c].tasks && s.campaigns[c].tasks[t].status == Success)
  }

  lemma RunTaskSpares(l: Loop, input: PassInput, d: string, u: string, c: string, t: string)
    requires HoldsTask(l.memory, d, u) && l.memory.campaigns[d].tasks[u].status != Success && Spared(l.memory, d, c, t)
    ensures var r := RunTask(l, input, d, u);
            && Spared(r.memory, d, c, t) && l.world.commits <= r.world.commits
            && NotCommitted(l.world.commits, r.world.commits, c, t)
  {
    hide StateHash, Recorded;
  }

  lemma {:induction false} RunTasksSpare(l: Loop, input: PassInput, d: string, ids: seq<string>, c: string, t: string)
    requires d in l.memory.campaigns && forall i :: 0 <= i < |ids| ==> HoldsTask(l.memory, d, ids[i])
    requires Spared(l.memory, d, c, t)
    ensures l.world.commits <= RunTasks(l, input, d, ids).world.commits
    ensures NotCommitted(l.world.commits, RunTasks(l, input, d, ids).world.commits, c, t)
    decreases |ids|
  {
    hide RunTask, Spared, NotCommitted;
    if ids == [] || !l.stop.Running? {
      NothingCommitted(l.world.commits, c, t);
    } else {
      var rest := ids[1..];
      assert HoldsTask(l.memory, d, ids[0]);
      assert forall i :: 0 <= i < |rest| ==> rest[i] == ids[i + 1] && HoldsTask(l.memory, d, ids[i + 1]);
      if l.memory.campaigns[d].tasks[ids[0]].status == Success {
        RunTasksSpare(l, input, d, rest, c, t);
      } else {
        RunTaskSpares(l, input, d, ids[0], c, t);
        var next := RunTask(l, input, d, ids[0]);
        RunTasksSpare(next, input, d, rest, c, t);
        NotCommittedTransitive(l.world.commits, next.world.commits, RunTasks(next, input, d, rest).world.commits, c, t);
      }
    }
  }

  lemma NothingCommitted(commits: seq<Commit>, c: string, t: string)
    ensures NotCommitted(commits, commits, c, t)
  {
  }

  lemma DiscoverSpares(l: Loop, input: PassInput, d: string, c: string, t: string)
    requires d in l.memory.campaigns && l.memory.campaigns[d].tasks == map[] && Spared(l.memory, d, c, t)
    ensures l.world.commits <= Discover(l, input, d).world.commits
    ensures NotCommitted(l.world.commits, Discover(l, input, d).world.commits, c, t)
  {
    hide StateHash, Recorded, Placed, Materialize, AddDiscovery, DiscoveryTask, SetTask;
    DiscoveryAdded(l.memory, d, input.runId);
  }

  lemma WorkOnSpares(l: Loop, input: PassInput, d: string, c: string, t: string)
    requires d in l.memory.campaigns && Spared(l.memory, d, c, t)
    ensures l.world.commits <= WorkOn(l, input, d).world.commits
    ensures NotCommitted(l.world.commits, WorkOn(l, input, d).world.commits, c, t)
  {
    hide RunTasks, Discover, Spared, NotCommitted, Sorted;
    var ids := SortedKeys(l.memory.campaigns[d].tasks.Keys);
    SortedHeld(l.memory, d);
    NothingCommitted(l.world.commits, c, t);
    if ids == [] {
      assert l.memory.campaigns[d].tasks.Keys == {};
      DiscoverSpares(l, input, d, c, t);
    }
    RunTasksSpare(l, input, d, ids, c, t);
  }

  lemma FinishSpares(w: World, s: State, input: PassInput, previous: StateSha, end: Termination, c: string, t: string)
    ensures w.commits <= Finish(w, s, input, previous, end).world.commits
    ensures NotCommitted(w.commits, Finish(w, s, input, previous, end).world.commits, c, t)
  {
    hide StateHash;
  }

  lemma SelectedSpares(w: World, m: State, input: PassInput, previous: StateSha, d: string, c: string, t: string)
    requires d in m.campaigns && Spared(m, d, c, t)
    ensures NotCommitted(w.commits, RunSelected(w, m, input, previous, d).world.commits, c, t)
  {
    hide Materialize, WorkOn, WorkTermination, RunSelected, Started, Finish, NotCommitted;
    RunSelectedShape(w, m, input, previous, d);
    NothingCommitted(w.commits, c, t);
    if Materialize(m.campaigns[d]).Some? {
      StartedShape(w, m, previous, d);
      var l := Started(w, m, previous, d);
      WorkOnSpares(l, input, d, c, t);
      var worked := WorkOn(l, input, d);
      if !worked.stop.Raised? {
        var s, end := Completing(worked.memory, d), WorkTermination(worked, input, d, m.campaigns[d].tasks != map[]);
        FinishSpares(worked.world, s, input, worked.previous, end, c, t);
        NotCommittedTransitive(w.commits, worked.world.commits,
                               Finish(worked.world, s, input, worked.previous, end).world.commits, c, t);
      }
    }
  }

  lemma SettledSpared(s: State, m: State, d: string, c: string, t: string)
    requires IsSettled(s, c, t) && Extends(s, m) && Eligible(m, d)
    ensures Spared(m, d, c, t)
  {
    assert KeepsCampaign(s.campaigns[c], m.campaigns[c]);
  }

  /** A pass commits nothing for a task that is settled on disk. */
  lemma PassSparesSettled(w: World, input: PassInput, c: string, t: string)
    requires WellFormed(w.disk) && IsSettled(w.disk, c, t)
    ensures NotCommitted(w.commits, RunPass(w, input).world.commits, c, t)
  {
    hide MergeProposal, Select, RunSelected, WellFormed, StateHash, Eligible, Finish, Extends, IsSettled, Spared;
    hide NotCommitted;
    NothingCommitted(w.commits, c, t);
    var merged := MergeProposal(w.disk, input.proposal, AuditId(input));
    if !input.stagesFail && merged.error.None? {
      MergeWellFormed(w.disk, input.proposal, AuditId(input));
      MergeExtends(w.disk, input.proposal, AuditId(input));
      SelectedEligible(merged.state);
      match Select(merged.state)
      case None =>
        FinishSpares(w, merged.state, input, StateHash(w.disk),
                     if merged.campaigns == 0 && merged.tasks == 0 then NoCampaignsProduced
                       else NoEligibleCampaigns, c, t);
      case Some(d) =>
        EligibleHeld(merged.state, d);
        SettledSpared(w.disk, merged.state, d, c, t);
        SelectedSpares(w, merged.state, input, StateHash(w.disk), d, c, t);
    }
  }

  lemma SettledStays(a: State, b: State, c: string, t: string)
    requires IsSettled(a, c, t) && Grows(a, b)
    ensures IsSettled(b, c, t)
  {
    assert CampaignGrows(a.campaigns[c], b.campaigns[c]);
  }

  /** Once a task reads "success" on disk, or its campaign "completed", no pass of any run commits for it again. */
  lemma {:induction false} RunSparesSettled(w: World, inputs: seq<PassInput>, c: string, t: string)
    requires WellFormed(w.disk) && IsSettled(w.disk, c, t)
    ensures NotCommitted(w.commits, RunAll(w, inputs).commits, c, t) && IsSettled(RunAll(w, inputs).disk, c, t)
    decreases |inputs|
  {
    hide RunPass, WellFormed, IsSettled, NotCommitted, Grows;
    if inputs == [] {
      NothingCommitted(w.commits, c, t);
    } else {
      var next, rest := RunPass(w, inputs[0]).world, inputs[1..];
      PassKeepsWellFormed(w, inputs[0]);
      PassGrows(w, inputs[0]);
      PassSparesSettled(w, inputs[0], c, t);
      SettledStays(w.disk, next.disk, c, t);
      RunSparesSettled(next, rest, c, t);
      RunAppends(next, rest);
      NotCommittedTransitive(w.commits, next.commits, RunAll(next, rest).commits, c, t);
    }
  }
}
