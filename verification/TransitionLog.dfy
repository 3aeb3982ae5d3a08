/** The transition log as a chain of state hashes. */
module TransitionLog {
  import opened Wrappers
  import opened Text
  import opened Campaigns
  import opened Merge
  import opened Confluence
  import opened Selection
  import opened Runner
  import opened RunSafety
  import opened Fallback

  /** Every entry starts from the hash the one before it ended with. */
  ghost predicate Linked(start: StateSha, log: seq<Transition>, end: StateSha) {
    if log == [] then start == end
    else log[|log| - 1].post == end && Linked(start, log[..|log| - 1], log[|log| - 1].previous)
  }

  ghost predicate WorldLinked(w: World) {
    Linked(StateHash(EMPTY_STATE), w.log, StateHash(w.disk))
  }

  /** The last entry names the state that is on disk. */
  ghost predicate LastPostOnDisk(w: World) {
    if w.log == [] then w.disk == EMPTY_STATE else w.log[|w.log| - 1].post == StateHash(w.disk)
  }

  lemma SaveLinks(w: World, s: State, runId: string, reason: Reason, previous: StateSha)
    ensures var next := SaveAndLog(w, s, runId, reason, previous);
            && LastPostOnDisk(next)
            && (WorldLinked(next) <==> Linked(StateHash(EMPTY_STATE), w.log, previous))
  {
    var next := SaveAndLog(w, s, runId, reason, previous);
    assert next.log[..|next.log| - 1] == w.log;
  }

  /** The chain reaches the state on disk, which is where the next transition will start. */
  ghost predicate LoopLinked(l: Loop) {
    WorldLinked(l.world) && LastPostOnDisk(l.world) && l.previous == StateHash(l.world.disk)
  }

  lemma RunTaskLinks(l: Loop, input: PassInput, c: string, t: string)
    requires LoopLinked(l) && HoldsTask(l.memory, c, t)
    ensures LoopLinked(RunTask(l, input, c, t))
  {
    hide Linked, SetTask;
    var outcome := input.agent(t);
    if !outcome.FailsBeforeCommit? && outcome.result.status != Pending {
      var done := l.memory.campaigns[c].tasks[t].(
        status := outcome.result.status, implementationCommit := Some(|l.world.commits|),
            result := Some(outcome.result));
      var committed := l.world.(commits := l.world.commits + [Implementation(c, t)]);
      SaveLinks(committed, SetTask(l.memory, c, t, done), input.runId, TaskReceipt(t), l.previous);
    }
  }

  lemma {:induction false} RunTasksLinks(l: Loop, input: PassInput, c: string, ids: seq<string>)
    requires LoopLinked(l)
    requires c in l.memory.campaigns && forall i :: 0 <= i < |ids| ==> HoldsTask(l.memory, c, ids[i])
    ensures LoopLinked(RunTasks(l, input, c, ids))
    decreases |ids|
  {
    hide RunTask, LoopLinked;
    if ids != [] && l.stop.Running? {
      var rest := ids[1..];
      assert HoldsTask(l.memory, c, ids[0]);
      assert forall i :: 0 <= i < |rest| ==> rest[i] == ids[i + 1] && HoldsTask(l.memory, c, ids[i + 1]);
      if l.memory.campaigns[c].tasks[ids[0]].status == Success {
        RunTasksLinks(l, input, c, rest);
      } else {
        RunTaskLinks(l, input, c, ids[0]);
        RunTasksLinks(RunTask(l, input, c, ids[0]), input, c, rest);
      }
    }
  }

  /** What the fallback leaves: still linked, but no longer ready for the next transition. */
  lemma DiscoverLinks(l: Loop, input: PassInput, c: string)
    requires LoopLinked(l) && c in l.memory.campaigns
    ensures var d := Discover(l, input, c);
            && WorldLinked(d.world) && LastPostOnDisk(d.world) && d.previous == l.previous
            && (d.stop.Running? && l.stop.Running? ==>
                  |d.world.log| == |l.world.log| + 1
                  && c in d.world.disk.campaigns && d.world.disk.campaigns[c].tasks != map[])
  {
    hide Linked, Materialize, StateHash, AddDiscovery, DiscoveryTask, Recorded, Placed;
    var added := AddDiscovery(l.memory, c, input.runId);
    AddedHeld(l.memory, c, input.runId);
    var materialized := Materialize(added.campaigns[c]);
    if materialized.Some? && !input.agent(DiscoveryId(l.memory.campaigns[c], input.runId)).FailsBeforeCommit? {
      var id := DiscoveryId(l.memory.campaigns[c], input.runId);
      var stored := added.(campaigns := added.campaigns[c := materialized.value]);
      var committed := l.world.(commits := l.world.commits + [Implementation(c, id)]);
      var blocked := DiscoveryTask(l.memory.campaigns[c], input.runId).(
        status := Blocked, implementationCommit := Some(|l.world.commits|));
      SetTaskHolds(stored, c, id, blocked);
      assert id in SetTask(stored, c, id, blocked).campaigns[c].tasks;
      SaveLinks(committed, SetTask(stored, c, id, blocked), input.runId, DiscoveryBlocked, l.previous);
    }
  }

  lemma AddedHeld(s: State, c: string, runId: string)
    requires c in s.campaigns
    ensures c in AddDiscovery(s, c, runId).campaigns
  {
  }

  lemma WorkOnLinks(l: Loop, input: PassInput, c: string)
    requires LoopLinked(l) && l.stop.Running? && c in l.memory.campaigns
    ensures var worked := WorkOn(l, input, c);
            && WorldLinked(worked.world) && LastPostOnDisk(worked.world)
            && (input.mode.Fixtures? || l.memory.campaigns[c].tasks != map[] ==> LoopLinked(worked))
            && (!input.mode.Fixtures? && l.memory.campaigns[c].tasks == map[] && !worked.stop.Raised? ==>
                  worked.previous == l.previous && |worked.world.log| == |l.world.log| + 1
                  && c in worked.world.disk.campaigns && worked.world.disk.campaigns[c].tasks != map[])
  {
    hide Linked, RunTasks, StateHash, Recorded, Placed;
    var tasks := l.memory.campaigns[c].tasks;
    var ids := SortedKeys(tasks.Keys);
    assert tasks == map[] <==> tasks.Keys == {};
    SortedHeld(l.memory, c);
    if !input.mode.Fixtures? {
      if ids == [] {
        if input.allowDiscovery {
          DiscoverLinks(l, input, c);
          DiscoverStops(l, input, c);
          hide Discover;
        }
      } else if input.mode.Execute? {
        RunTasksLinks(l, input, c, ids);
      }
    }
  }

  lemma DiscoverStops(l: Loop, input: PassInput, c: string)
    requires c in l.memory.campaigns
    ensures Discover(l, input, c).stop.Raised? || Discover(l, input, c).stop.Running?
  {
    hide Materialize, AddDiscovery, StateHash, DiscoveryTask, SetTask, SaveAndLog, Recorded, Placed;
    AddedHeld(l.memory, c, input.runId);
  }

  /** A state whose campaign has gained tasks has another hash. */
  lemma TasksChangeHash(a: State, b: State, c: string)
    requires c in b.campaigns && b.campaigns[c].tasks != map[]
    requires c in a.campaigns ==> a.campaigns[c].tasks == map[]
    ensures StateHash(a) != StateHash(b)
  {
  }

  lemma FinishLinks(w: World, s: State, input: PassInput, previous: StateSha, end: Termination)
    ensures var r := Finish(w, s, input, previous, end).world;
            && LastPostOnDisk(r)
            && (WorldLinked(r) <==> Linked(StateHash(EMPTY_STATE), w.log, previous))
  {
    hide Linked;
    SaveLinks(w, s, RunId(input), FinishReason(input.mode), previous);
  }

  lemma LinkedEnds(start: StateSha, log: seq<Transition>, end: StateSha, end': StateSha)
    requires Linked(start, log, end) && Linked(start, log, end')
    ensures end == end'
  {
  }

  /** The documents are no part of the chain. */
  lemma DocumentsUnlinked(w: World, docs: Documents)
    ensures WorldLinked(w.(docs := docs)) == WorldLinked(w) && LastPostOnDisk(w.(docs := docs)) == LastPostOnDisk(w)
  {
  }

  lemma RunSelectedLinks(w: World, m: State, input: PassInput, c: string)
    requires WorldLinked(w) && LastPostOnDisk(w) && c in m.campaigns
    requires c in w.disk.campaigns && m.campaigns[c].tasks == map[] ==> w.disk.campaigns[c].tasks == map[]
    ensures var r := RunSelected(w, m, input, StateHash(w.disk), c);
            && LastPostOnDisk(r.world)
            && (WorldLinked(r.world) <==> r.end != DiscoveryBlockedForReview)
  {
    hide Linked, Materialize, WorkOn, Finish, StateHash, LastPostOnDisk, Started, RunSelected, Completing;
    RunSelectedShape(w, m, input, StateHash(w.disk), c);
    DocumentsUnlinked(w, Placed(w.docs, m.campaigns[c]));
    if Materialize(m.campaigns[c]).Some? {
      var l := Started(w, m, StateHash(w.disk), c);
      StartedShape(w, m, StateHash(w.disk), c);
      DocumentsUnlinked(w, l.world.docs);
      assert l.world == w.(docs := l.world.docs);
      WorkOnLinks(l, input, c);
      var worked := WorkOn(l, input, c);
      if !worked.stop.Raised? {
        var end := WorkTermination(worked, input, c, m.campaigns[c].tasks != map[]);
        FinishLinks(worked.world, Completing(worked.memory, c), input, worked.previous, end);
        FinishKeepsEnd(worked.world, Completing(worked.memory, c), input, worked.previous, end);
        if end == DiscoveryBlockedForReview {
          TasksChangeHash(w.disk, worked.world.disk, c);
          if Linked(StateHash(EMPTY_STATE), worked.world.log, worked.previous) {
            LinkedEnds(StateHash(EMPTY_STATE), worked.world.log, worked.previous, StateHash(worked.world.disk));
          }
        }
      }
    }
  }

  lemma FinishKeepsEnd(w: World, s: State, input: PassInput, previous: StateSha, end: Termination)
    ensures Finish(w, s, input, previous, end).end == end
  {
  }

  /**
   The log stays a hash chain ending at the state on disk through every pass, aborted or not, with one
   exception, which the input decides: a pass that completes a discovery fallback breaks the chain,
   always, because its last transition starts from the hash taken before the fallback was saved. The last
   entry names the state on disk in every case.
   */
  lemma PassLinksIff(w: World, input: PassInput)
    requires WellFormed(w.disk) && WorldLinked(w) && LastPostOnDisk(w)
    ensures LastPostOnDisk(RunPass(w, input).world)
    ensures WorldLinked(RunPass(w, input).world) <==> !CompletesFallback(w, input)
  {
    hide RunPass, CompletesFallback, WorldLinked, LastPostOnDisk, WellFormed;
    PassLinksByEnd(w, input);
    PassEndsIff(w, input);
  }

  lemma PassLinksByEnd(w: World, input: PassInput)
    requires WellFormed(w.disk) && WorldLinked(w) && LastPostOnDisk(w)
    ensures var r := RunPass(w, input);
            && LastPostOnDisk(r.world)
            && (WorldLinked(r.world) <==> r.end != DiscoveryBlockedForReview)
  {
    hide Linked, MergeProposal, Select, RunSelected, WellFormed, Finish, StateHash, LastPostOnDisk, Eligible, Extends;
    hide Recorded, Placed;
    var merged := MergeProposal(w.disk, input.proposal, AuditId(input));
    if !input.stagesFail && merged.error.None? {
      var m := merged.state;
      MergeWellFormed(w.disk, input.proposal, AuditId(input));
      SelectedEligible(m);
      match Select(m)
      case None =>
        var end := if merged.campaigns == 0 && merged.tasks == 0 then NoCampaignsProduced else NoEligibleCampaigns;
        FinishLinks(w, m, input, StateHash(w.disk), end);
        FinishKeepsEnd(w, m, input, StateHash(w.disk), end);
      case Some(c) =>
        EligibleHeld(m, c);
        MergeExtends(w.disk, input.proposal, AuditId(input));
        ExtendsTasks(w.disk, m, c);
        RunSelectedLinks(w, m, input, c);
    }
  }

  lemma ExtendsTasks(a: State, b: State, c: string)
    requires Extends(a, b) && c in b.campaigns
    ensures c in a.campaigns && b.campaigns[c].tasks == map[] ==> a.campaigns[c].tasks == map[]
  {
    if c in a.campaigns && b.campaigns[c].tasks == map[] {
      assert KeepsCampaign(a.campaigns[c], b.campaigns[c]);
      assert a.campaigns[c].tasks.Keys == {};
    }
  }

  /** States have one hash exactly when they differ at most in the order of their dictionaries. */
  lemma SameHashIff(a: State, b: State)
    ensures StateHash(a) == StateHash(b) <==> a == b.(order := a.order)
  {
  }

  // ---------------------------------------------------------------- the last entry, chain or no chain

  lemma {:induction false} RunTasksLastPost(l: Loop, input: PassInput, c: string, ids: seq<string>)
    requires LastPostOnDisk(l.world)
    requires c in l.memory.campaigns && forall i :: 0 <= i < |ids| ==> HoldsTask(l.memory, c, ids[i])
    ensures LastPostOnDisk(RunTasks(l, input, c, ids).world)
    decreases |ids|
  {
    if ids != [] && l.stop.Running? {
      var rest := ids[1..];
      assert HoldsTask(l.memory, c, ids[0]);
      assert forall i :: 0 <= i < |rest| ==> rest[i] == ids[i + 1] && HoldsTask(l.memory, c, ids[i + 1]);
      RunTaskLastPost(l, input, c, ids[0]);
      hide RunTask, LastPostOnDisk;
      if l.memory.campaigns[c].tasks[ids[0]].status == Success {
        RunTasksLastPost(l, input, c, rest);
      } else {
        RunTasksLastPost(RunTask(l, input, c, ids[0]), input, c, rest);
      }
    }
  }

  lemma RunTaskLastPost(l: Loop, input: PassInput, c: string, t: string)
    requires LastPostOnDisk(l.world) && HoldsTask(l.memory, c, t)
    ensures LastPostOnDisk(RunTask(l, input, c, t).world)
  {
    hide SetTask, StateHash, Recorded, Placed;
  }

  lemma DiscoverLastPost(l: Loop, input: PassInput, c: string)
    requires LastPostOnDisk(l.world) && c in l.memory.campaigns
    ensures LastPostOnDisk(Discover(l, input, c).world)
  {
    hide Materialize, AddDiscovery, StateHash, DiscoveryTask, SetTask, Recorded, Placed;
    AddedHeld(l.memory, c, input.runId);
  }

  lemma RunSelectedLastPost(w: World, m: State, input: PassInput, previous: StateSha, c: string)
    requires LastPostOnDisk(w) && c in m.campaigns
    ensures LastPostOnDisk(RunSelected(w, m, input, previous, c).world)
  {
    hide Materialize, WorkOn, StateHash, LastPostOnDisk, Linked, Finish, Started, RunSelected, Completing;
    RunSelectedShape(w, m, input, previous, c);
    DocumentsUnlinked(w, Placed(w.docs, m.campaigns[c]));
    if Materialize(m.campaigns[c]).Some? {
      var l := Started(w, m, previous, c);
      StartedShape(w, m, previous, c);
      DocumentsUnlinked(w, l.world.docs);
      assert l.world == w.(docs := l.world.docs);
      WorkOnLastPost(l, input, c);
      var worked := WorkOn(l, input, c);
      FinishLinks(worked.world, Completing(worked.memory, c), input, worked.previous,
                  WorkTermination(worked, input, c, m.campaigns[c].tasks != map[]));
    }
  }

  lemma WorkOnLastPost(l: Loop, input: PassInput, c: string)
    requires LastPostOnDisk(l.world) && c in l.memory.campaigns
    ensures LastPostOnDisk(WorkOn(l, input, c).world)
  {
    hide Discover, RunTasks, LastPostOnDisk;
    var ids := SortedKeys(l.memory.campaigns[c].tasks.Keys);
    SortedHeld(l.memory, c);
    DiscoverLastPost(l, input, c);
    RunTasksLastPost(l, input, c, ids);
  }

  lemma PassLastPost(w: World, input: PassInput)
    requires WellFormed(w.disk) && LastPostOnDisk(w)
    ensures LastPostOnDisk(RunPass(w, input).world)
  {
    hide MergeProposal, Select, RunSelected, WellFormed, StateHash, Eligible, LastPostOnDisk, Finish, Linked;
    hide Recorded, Placed;
    var merged := MergeProposal(w.disk, input.proposal, AuditId(input));
    if !input.stagesFail && merged.error.None? {
      var m := merged.state;
      MergeWellFormed(w.disk, input.proposal, AuditId(input));
      SelectedEligible(m);
      match Select(m)
      case None =>
        FinishLinks(w, m, input, StateHash(w.disk),
                    if merged.campaigns == 0 && merged.tasks == 0 then NoCampaignsProduced else NoEligibleCampaigns);
      case Some(c) =>
        EligibleHeld(m, c);
        RunSelectedLastPost(w, m, input, StateHash(w.disk), c);
    }
  }

  /** No pass of the run completes a fallback. */
  ghost predicate NeverFallsBack(w: World, inputs: seq<PassInput>)
    requires WellFormed(w.disk)
    decreases |inputs|
  {
    hide RunPass, WellFormed, CompletesFallback;
    if inputs == [] then true
    else
      PassKeepsWellFormed(w, inputs[0]);
      !CompletesFallback(w, inputs[0]) && NeverFallsBack(RunPass(w, inputs[0]).world, inputs[1..])
  }

  // ---------------------------------------------------------------- logs only grow

  ghost predicate Appends(a: World, b: World) {
    a.log <= b.log && a.commits <= b.commits
  }

  lemma {:induction false} RunTasksAppends(l: Loop, input: PassInput, c: string, ids: seq<string>)
    requires c in l.memory.campaigns && forall i :: 0 <= i < |ids| ==> HoldsTask(l.memory, c, ids[i])
    ensures Appends(l.world, RunTasks(l, input, c, ids).world)
    decreases |ids|
  {
    if ids != [] && l.stop.Running? {
      var rest := ids[1..];
      assert HoldsTask(l.memory, c, ids[0]);
      assert forall i :: 0 <= i < |rest| ==> rest[i] == ids[i + 1] && HoldsTask(l.memory, c, ids[i + 1]);
      RunTaskAppends(l, input, c, ids[0]);
      hide RunTask;
      if l.memory.campaigns[c].tasks[ids[0]].status == Success {
        RunTasksAppends(l, input, c, rest);
      } else {
        RunTasksAppends(RunTask(l, input, c, ids[0]), input, c, rest);
      }
    }
  }

  lemma RunTaskAppends(l: Loop, input: PassInput, c: string, t: string)
    requires HoldsTask(l.memory, c, t)
    ensures Appends(l.world, RunTask(l, input, c, t).world)
  {
    hide SetTask, StateHash, Recorded, Placed;
  }

  lemma DiscoverAppends(l: Loop, input: PassInput, c: string)
    requires c in l.memory.campaigns
    ensures Appends(l.world, Discover(l, input, c).world)
  {
    hide Materialize, AddDiscovery, StateHash, DiscoveryTask, SetTask, Recorded, Placed;
    AddedHeld(l.memory, c, input.runId);
  }

  lemma AppendsItself(w: World)
    ensures Appends(w, w)
  {
  }

  lemma WorkOnAppends(l: Loop, input: PassInput, c: string)
    requires c in l.memory.campaigns
    ensures Appends(l.world, WorkOn(l, input, c).world)
  {
    hide Discover, RunTasks, Appends, Sorted;
    var ids := SortedKeys(l.memory.campaigns[c].tasks.Keys);
    SortedHeld(l.memory, c);
    AppendsItself(l.world);
    DiscoverAppends(l, input, c);
    RunTasksAppends(l, input, c, ids);
  }

  lemma FinishAppends(w: World, s: State, input: PassInput, previous: StateSha, end: Termination)
    ensures Appends(w, Finish(w, s, input, previous, end).world)
  {
    hide StateHash, Recorded, Placed;
  }

  lemma RunSelectedAppends(w: World, m: State, input: PassInput, previous: StateSha, c: string)
    requires c in m.campaigns
    ensures Appends(w, RunSelected(w, m, input, previous, c).world)
  {
    hide Materialize, WorkOn, Finish, WorkTermination, Started, RunSelected, Completing;
    RunSelectedShape(w, m, input, previous, c);
    if Materialize(m.campaigns[c]).Some? {
      var l := Started(w, m, previous, c);
      StartedShape(w, m, previous, c);
      WorkOnAppends(l, input, c);
      var worked := WorkOn(l, input, c);
      if !worked.stop.Raised? {
        var end := WorkTermination(worked, input, c, m.campaigns[c].tasks != map[]);
        FinishAppends(worked.world, Completing(worked.memory, c), input, worked.previous, end);
      }
    }
  }

  /** Log entries and commits are only ever added at the end. */
  lemma PassAppends(w: World, input: PassInput)
    requires WellFormed(w.disk)
    ensures Appends(w, RunPass(w, input).world)
  {
    hide MergeProposal, Select, RunSelected, WellFormed, StateHash, Eligible, Recorded, Placed;
    var merged := MergeProposal(w.disk, input.proposal, AuditId(input));
    if !input.stagesFail && merged.error.None? {
      MergeWellFormed(w.disk, input.proposal, AuditId(input));
      SelectedEligible(merged.state);
      if Select(merged.state).Some? {
        EligibleHeld(merged.state, Select(merged.state).value);
        RunSelectedAppends(w, merged.state, input, StateHash(w.disk), Select(merged.state).value);
      }
    }
  }

  lemma {:induction false} LinkedPrefix(start: StateSha, log: seq<Transition>, n: nat, end: StateSha)
    requires n <= |log| && Linked(start, log, end)
    ensures exists mid :: Linked(start, log[..n], mid)
    decreases |log|
  {
    if n < |log| {
      var init := log[..|log| - 1];
      LinkedPrefix(start, init, n, log[|log| - 1].previous);
      assert init[..n] == log[..n];
    } else {
      assert log[..n] == log;
    }
  }

  /** A chain broken once stays broken. */
  lemma BrokenStaysBroken(w: World, later: World)
    requires Appends(w, later) && LastPostOnDisk(w) && WorldLinked(later)
    ensures WorldLinked(w)
  {
    hide StateHash, Recorded, Placed;
    LinkedPrefix(StateHash(EMPTY_STATE), later.log, |w.log|, StateHash(later.disk));
    assert later.log[..|w.log|] == w.log;
  }

  lemma {:induction false} RunAppends(w: World, inputs: seq<PassInput>)
    requires WellFormed(w.disk)
    ensures Appends(w, RunAll(w, inputs))
    decreases |inputs|
  {
    hide RunPass, WellFormed;
    if inputs != [] {
      PassKeepsWellFormed(w, inputs[0]);
      PassAppends(w, inputs[0]);
      RunAppends(RunPass(w, inputs[0]).world, inputs[1..]);
    }
  }

  /**
   Over any run, aborted passes included, the whole log is one hash chain from the empty state to the
   state on disk exactly when no pass was given an input that makes it complete a discovery fallback.
   */
  lemma {:induction false} RunLinkedIff(w: World, inputs: seq<PassInput>)
    requires WellFormed(w.disk) && WorldLinked(w) && LastPostOnDisk(w)
    ensures WorldLinked(RunAll(w, inputs)) <==> NeverFallsBack(w, inputs)
    ensures LastPostOnDisk(RunAll(w, inputs))
    decreases |inputs|
  {
    hide Linked, RunPass, WellFormed, WorldLinked, LastPostOnDisk, Appends, CompletesFallback;
    if inputs != [] {
      var r := RunPass(w, inputs[0]);
      PassKeepsWellFormed(w, inputs[0]);
      PassLinksIff(w, inputs[0]);
      if !CompletesFallback(w, inputs[0]) {
        RunLinkedIff(r.world, inputs[1..]);
      } else {
        RunLastPost(r.world, inputs[1..]);
        RunAppends(r.world, inputs[1..]);
        if WorldLinked(RunAll(r.world, inputs[1..])) {
          BrokenStaysBroken(r.world, RunAll(r.world, inputs[1..]));
        }
      }
    }
  }

  /** The last entry names the state on disk, broken chain or not. */
  lemma {:induction false} RunLastPost(w: World, inputs: seq<PassInput>)
    requires WellFormed(w.disk) && LastPostOnDisk(w)
    ensures LastPostOnDisk(RunAll(w, inputs))
    decreases |inputs|
  {
    hide RunPass, WellFormed, LastPostOnDisk;
    if inputs != [] {
      PassKeepsWellFormed(w, inputs[0]);
      PassLastPost(w, inputs[0]);
      RunLastPost(RunPass(w, inputs[0]).world, inputs[1..]);
    }
  }
}
