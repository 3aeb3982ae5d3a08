/** What the state file says about commits, in every reachable world: what is always true, and what can go stale. */
module CommitRecords {
  import opened Wrappers
  import opened Text
  import opened Campaigns
  import opened Merge
  import opened Confluence
  import opened Selection
  import opened Runner
  import opened RunSafety

  // ---------------------------------------------------------------- every record is about its own commits

  /**
   A task that was run names an implementation commit of its own, and a receipt it names is its own and
   follows an implementation of its own at once.
   */
  ghost predicate Sound(task: Task, commits: seq<Commit>, c: string, t: string) {
    && (task.status != Pending ==> task.implementationCommit.Some?)
    && (task.implementationCommit.Some? ==>
          task.implementationCommit.value < |commits|
              && commits[task.implementationCommit.value] == Implementation(c, t))
    && (task.receiptCommit.Some? ==>
          var q := task.receiptCommit.value;
          1 <= q < |commits| && commits[q] == Receipt(c, t) && commits[q - 1] == Implementation(c, t))
  }

  ghost predicate AllSound(s: State, commits: seq<Commit>) {
    forall c, t :: c in s.campaigns && t in s.campaigns[c].tasks ==> Sound(s.campaigns[c].tasks[t], commits, c, t)
  }

  lemma SoundLater(task: Task, commits: seq<Commit>, more: seq<Commit>, c: string, t: string)
    requires Sound(task, commits, c, t) && commits <= more
    ensures Sound(task, more, c, t)
  {
  }

  lemma AllSoundLater(s: State, commits: seq<Commit>, more: seq<Commit>)
    requires AllSound(s, commits) && commits <= more
    ensures AllSound(s, more)
  {
    hide Sound;
    forall c, t | c in s.campaigns && t in s.campaigns[c].tasks
      ensures Sound(s.campaigns[c].tasks[t], more, c, t)
    {
      SoundLater(s.campaigns[c].tasks[t], commits, more, c, t);
    }
  }

  lemma SetTaskSound(s: State, commits: seq<Commit>, c: string, t: string, task: Task)
    requires AllSound(s, commits) && c in s.campaigns && Sound(task, commits, c, t)
    ensures AllSound(SetTask(s, c, t, task), commits)
  {
    hide Sound;
  }

  lemma SetCampaignSound(s: State, commits: seq<Commit>, c: string, y: Campaign)
    requires AllSound(s, commits) && c in s.campaigns && y.tasks == s.campaigns[c].tasks
    ensures AllSound(s.(campaigns := s.campaigns[c := y]), commits)
  {
    hide Sound;
  }

  ghost predicate LoopSound(l: Loop) {
    AllSound(l.memory, l.world.commits) && AllSound(l.world.disk, l.world.commits)
  }

  lemma RunTaskSound(l: Loop, input: PassInput, c: string, t: string)
    requires LoopSound(l) && HoldsTask(l.memory, c, t)
    ensures LoopSound(RunTask(l, input, c, t))
  {
    hide AllSound, SetTask, StateHash, Recorded;
    var outcome := input.agent(t);
    if !outcome.FailsBeforeCommit? && outcome.result.status != Pending {
      var p, old_ := |l.world.commits|, l.memory.campaigns[c].tasks[t];
      var committed := l.world.commits + [Implementation(c, t)];
      var done := old_.(status := outcome.result.status, implementationCommit := Some(p),
                        result := Some(outcome.result));
      AllSoundLater(l.memory, l.world.commits, committed);
      AllSoundLater(l.world.disk, l.world.commits, committed);
      TaskSound(l.memory, l.world.commits, c, t);
      SoundLater(old_, l.world.commits, committed, c, t);
      SetTaskSound(l.memory, committed, c, t, done);
      var memory, received := SetTask(l.memory, c, t, done), committed + [Receipt(c, t)];
      SetTaskHolds(l.memory, c, t, done);
      AllSoundLater(memory, committed, received);
      SetTaskSound(memory, received, c, t, done.(receiptCommit := Some(p + 1)));
    }
  }

  lemma TaskSound(s: State, commits: seq<Commit>, c: string, t: string)
    requires AllSound(s, commits) && HoldsTask(s, c, t)
    ensures Sound(s.campaigns[c].tasks[t], commits, c, t)
  {
  }

  lemma {:induction false} RunTasksSound(l: Loop, input: PassInput, c: string, ids: seq<string>)
    requires LoopSound(l) && c in l.memory.campaigns && forall i :: 0 <= i < |ids| ==> HoldsTask(l.memory, c, ids[i])
    ensures LoopSound(RunTasks(l, input, c, ids))
    decreases |ids|
  {
    hide LoopSound, RunTask;
    if ids != [] && l.stop.Running? {
      var rest := ids[1..];
      assert HoldsTask(l.memory, c, ids[0]);
      assert forall i :: 0 <= i < |rest| ==> rest[i] == ids[i + 1] && HoldsTask(l.memory, c, ids[i + 1]);
      if l.memory.campaigns[c].tasks[ids[0]].status == Success {
        RunTasksSound(l, input, c, rest);
      } else {
        RunTaskSound(l, input, c, ids[0]);
        RunTasksSound(RunTask(l, input, c, ids[0]), input, c, rest);
      }
    }
  }

  lemma DiscoverSound(l: Loop, input: PassInput, c: string)
    requires LoopSound(l) && c in l.memory.campaigns
    ensures LoopSound(Discover(l, input, c))
  {
    hide AllSound, SetTask, StateHash, Recorded, Placed, Materialize, AddDiscovery, DiscoveryTask;
    var x := l.memory.campaigns[c];
    var id, added, p := DiscoveryId(x, input.runId), AddDiscovery(l.memory, c, input.runId), |l.world.commits|;
    DiscoveryAdded(l.memory, c, input.runId);
    AddedSound(l.memory, l.world.commits, c, input.runId);
    if Materialize(added.campaigns[c]).Some? {
      MaterializedTasks(added.campaigns[c]);
      var stored := added.(campaigns := added.campaigns[c := Materialize(added.campaigns[c]).value]);
      SetCampaignSound(added, l.world.commits, c, Materialize(added.campaigns[c]).value);
      var committed := l.world.commits + [Implementation(c, id)];
      AllSoundLater(stored, l.world.commits, committed);
      AllSoundLater(l.world.disk, l.world.commits, committed);
      var blocked := DiscoveryTask(x, input.runId).(status := Blocked, implementationCommit := Some(p));
      NewPlaceholder(x, input.runId);
      SetTaskSound(stored, committed, c, id, blocked);
      var memory, received := SetTask(stored, c, id, blocked), committed + [Receipt(c, id)];
      SetTaskHolds(stored, c, id, blocked);
      AllSoundLater(memory, committed, received);
      SetTaskSound(memory, received, c, id, blocked.(receiptCommit := Some(p + 1)));
    }
  }

  lemma NewPlaceholder(x: Campaign, runId: string)
    ensures var task := DiscoveryTask(x, runId);
            task.status == Pending && task.implementationCommit.None? && task.receiptCommit.None?
  {
  }

  lemma AddedSound(s: State, commits: seq<Commit>, c: string, runId: string)
    requires AllSound(s, commits) && c in s.campaigns
    ensures AllSound(AddDiscovery(s, c, runId), commits)
  {
    hide DiscoveryId;
  }

  lemma WorkOnSound(l: Loop, input: PassInput, c: string)
    requires LoopSound(l) && c in l.memory.campaigns
    ensures LoopSound(WorkOn(l, input, c))
  {
    hide AllSound, RunTasks, Discover;
    var ids := SortedKeys(l.memory.campaigns[c].tasks.Keys);
    SortedHeld(l.memory, c);
    RunTasksSound(l, input, c, ids);
    DiscoverSound(l, input, c);
  }

  ghost predicate WorldSound(w: World) { AllSound(w.disk, w.commits) }

  lemma FinishSound(w: World, s: State, input: PassInput, previous: StateSha, end: Termination)
    requires AllSound(s, w.commits)
    ensures WorldSound(Finish(w, s, input, previous, end).world)
  {
    hide AllSound, StateHash;
    AllSoundLater(s, w.commits, w.commits + [RunReceipt(input.runId)]);
  }

  lemma MergedSound(s: State, m: State, commits: seq<Commit>)
    requires AllSound(s, commits) && Extends(s, m)
    ensures AllSound(m, commits)
  {
    hide Sound;
    forall c, t | c in m.campaigns && t in m.campaigns[c].tasks
      ensures Sound(m.campaigns[c].tasks[t], commits, c, t)
    {
      if c in s.campaigns && t in s.campaigns[c].tasks {
        assert KeepsCampaign(s.campaigns[c], m.campaigns[c]);
      } else {
        NewIsPending(s, m, c, t);
        PendingSound(m.campaigns[c].tasks[t], commits, c, t);
      }
    }
  }

  lemma NewIsPending(s: State, m: State, c: string, t: string)
    requires Extends(s, m) && HoldsTask(m, c, t) && !(c in s.campaigns && t in s.campaigns[c].tasks)
    ensures var task := m.campaigns[c].tasks[t];
            task.status == Pending && task.implementationCommit.None? && task.receiptCommit.None?
  {
    if c in s.campaigns {
      assert KeepsCampaign(s.campaigns[c], m.campaigns[c]);
    } else {
      assert FreshCampaign(m.campaigns[c]);
    }
  }

  lemma PendingSound(task: Task, commits: seq<Commit>, c: string, t: string)
    requires task.status == Pending && task.implementationCommit.None? && task.receiptCommit.None?
    ensures Sound(task, commits, c, t)
  {
  }

  lemma SelectedSound(w: World, m: State, input: PassInput, previous: StateSha, c: string)
    requires WorldSound(w) && AllSound(m, w.commits) && c in m.campaigns
    ensures WorldSound(RunSelected(w, m, input, previous, c).world)
  {
    hide AllSound, Materialize, WorkOn, WorkTermination, RunSelected, Started, Finish, AllSucceeded;
    RunSelectedShape(w, m, input, previous, c);
    if Materialize(m.campaigns[c]).Some? {
      StartedShape(w, m, previous, c);
      var l := Started(w, m, previous, c);
      SetCampaignSound(m, w.commits, c, l.memory.campaigns[c]);
      WorkOnSound(l, input, c);
      var worked := WorkOn(l, input, c);
      SetCampaignSound(worked.memory, worked.world.commits, c, UpdateCompletion(worked.memory.campaigns[c]));
      FinishSound(worked.world, Completing(worked.memory, c), input, worked.previous,
                  WorkTermination(worked, input, c, m.campaigns[c].tasks != map[]));
    }
  }

  /** A pass, aborted or not, keeps every record about its own commits. */
  lemma PassSound(w: World, input: PassInput)
    requires WellFormed(w.disk) && WorldSound(w)
    ensures WorldSound(RunPass(w, input).world)
  {
    hide AllSound, MergeProposal, Select, RunSelected, WellFormed, StateHash, Eligible, Finish, Extends;
    var merged := MergeProposal(w.disk, input.proposal, AuditId(input));
    if !input.stagesFail && merged.error.None? {
      MergeWellFormed(w.disk, input.proposal, AuditId(input));
      MergeExtends(w.disk, input.proposal, AuditId(input));
      MergedSound(w.disk, merged.state, w.commits);
      SelectedEligible(merged.state);
      match Select(merged.state)
      case None =>
        FinishSound(w, merged.state, input, StateHash(w.disk),
                    if merged.campaigns == 0 && merged.tasks == 0 then NoCampaignsProduced else NoEligibleCampaigns);
      case Some(c) =>
        EligibleHeld(merged.state, c);
        SelectedSound(w, merged.state, input, StateHash(w.disk), c);
    }
  }

  /**
   In every world reached by any passes, each task that was run names an implementation commit of its own,
   and any receipt it names is its own and follows an implementation of its own.
   */
  lemma {:induction false} RunSound(w: World, inputs: seq<PassInput>)
    requires WellFormed(w.disk) && WorldSound(w)
    ensures WorldSound(RunAll(w, inputs))
    decreases |inputs|
  {
    hide RunPass, WellFormed, WorldSound;
    if inputs != [] {
      PassKeepsWellFormed(w, inputs[0]);
      PassSound(w, inputs[0]);
      RunSound(RunPass(w, inputs[0]).world, inputs[1..]);
    }
  }

  lemma NewWorldSound()
    ensures WellFormed(NEW_WORLD.disk) && WorldSound(NEW_WORLD)
  {
    NothingCompleted();
  }
}
