/** Safety over whole runs: completion is permanent, well-founded, and blocked campaigns stay blocked. */
module RunSafety {
  import opened Wrappers
  import opened Collections
  import opened Text
  import opened Campaigns
  import opened Merge
  import opened Confluence
  import opened Selection
  import opened Runner

  // ---------------------------------------------------------------- runs

  /** The world after the given passes, each starting from what the previous one left behind. */
  ghost function RunAll(w: World, inputs: seq<PassInput>): World
    requires WellFormed(w.disk)
    ensures WellFormed(RunAll(w, inputs).disk)
    decreases |inputs|
  {
    hide RunPass, WellFormed;
    if inputs == [] then w
    else
      PassKeepsWellFormed(w, inputs[0]);
      RunAll(RunPass(w, inputs[0]).world, inputs[1..])
  }

  // ---------------------------------------------------------------- what work on one campaign may touch

  /** `s` differs from `m` only in the tasks and documents of campaign `c` and in the indexes. */
  ghost predicate Touches(m: State, s: State, c: string) {
    && s.order == m.order && s.campaigns.Keys == m.campaigns.Keys && c in m.campaigns
    && (forall d :: d in m.campaigns && d != c ==> s.campaigns[d] == m.campaigns[d])
    && s.campaigns[c] == m.campaigns[c].(tasks := s.campaigns[c].tasks, materialized := s.campaigns[c].materialized)
    && SameWork(m.campaigns[c].tasks, s.campaigns[c].tasks)
  }

  /** Tasks stay, keep their content and hash, and a finished task keeps its whole record. */
  ghost predicate SameWork(x: map<string, Task>, y: map<string, Task>) {
    forall t :: t in x ==>
      && t in y
      && y[t].content == x[t].content && y[t].hash == x[t].hash && y[t].campaignSlug == x[t].campaignSlug
      && (x[t].status == Success ==> y[t] == x[t])
  }

  lemma MaterializeTouches(m: State, c: string, y: Campaign)
    requires c in m.campaigns && Materialize(m.campaigns[c]) == Some(y)
    ensures Touches(m, m.(campaigns := m.campaigns[c := y]), c)
  {
    hide StemsCollide, Stems, DocName;
  }

  /** Replacing the record of an unfinished task. */
  lemma SetTaskTouches(m: State, s: State, c: string, t: string, task: Task)
    requires Touches(m, s, c) && HoldsTask(s, c, t)
    requires t in m.campaigns[c].tasks ==> m.campaigns[c].tasks[t].status != Success
    requires task.content == s.campaigns[c].tasks[t].content && task.hash == s.campaigns[c].tasks[t].hash
    requires task.campaignSlug == s.campaigns[c].tasks[t].campaignSlug
    ensures Touches(m, SetTask(s, c, t, task), c)
  {
  }

  // ---------------------------------------------------------------- the loop

  /** The memory touches only `c`, and the state file holds `disk` or a state of the same kind. */
  ghost predicate LoopTouches(l: Loop, disk: State, m: State, c: string) {
    && c in m.campaigns && c in l.memory.campaigns
    && Touches(m, l.memory, c)
    && (l.world.disk == disk || Touches(m, l.world.disk, c))
  }

  lemma RunTaskTouches(l: Loop, input: PassInput, c: string, t: string, disk: State, m: State)
    requires LoopTouches(l, disk, m, c) && HoldsTask(l.memory, c, t)
    requires t in m.campaigns[c].tasks && l.memory.campaigns[c].tasks[t].status != Success
    ensures LoopTouches(RunTask(l, input, c, t), disk, m, c)
  {
    hide Touches, StateHash, SetTask, Recorded, Placed;
    assert m.campaigns[c].tasks[t].status != Success by { UnfinishedBefore(m, l.memory, c, t); }
    var outcome := input.agent(t);
    if !outcome.FailsBeforeCommit? && outcome.result.status != Pending {
      var done := l.memory.campaigns[c].tasks[t].(
        status := outcome.result.status, implementationCommit := Some(|l.world.commits|),
            result := Some(outcome.result));
      var memory := SetTask(l.memory, c, t, done);
      SetTaskTouches(m, l.memory, c, t, done);
      SetTaskHolds(l.memory, c, t, done);
      SetTaskTouches(m, memory, c, t, done.(receiptCommit := Some(|l.world.commits| + 1)));
    }
  }

  lemma UnfinishedBefore(m: State, s: State, c: string, t: string)
    requires Touches(m, s, c) && t in m.campaigns[c].tasks && t in s.campaigns[c].tasks
    requires s.campaigns[c].tasks[t].status != Success
    ensures m.campaigns[c].tasks[t].status != Success
  {
  }

  lemma SetTaskHolds(s: State, c: string, t: string, task: Task)
    requires c in s.campaigns
    ensures HoldsTask(SetTask(s, c, t, task), c, t) && SetTask(s, c, t, task).campaigns[c].tasks[t] == task
  {
  }

  lemma SetTwice(s: State, c: string, t: string, x: Task, y: Task)
    requires c in s.campaigns
    ensures c in SetTask(s, c, t, x).campaigns && SetTask(SetTask(s, c, t, x), c, t, y) == SetTask(s, c, t, y)
  {
    var once := SetTask(s, c, t, x);
    assert once.campaigns[c].tasks[t := y] == s.campaigns[c].tasks[t := y];
    assert SetTask(once, c, t, y).campaigns == SetTask(s, c, t, y).campaigns;
  }

  lemma {:induction false} RunTasksTouches(l: Loop, input: PassInput, c: string, ids: seq<string>, disk: State,
                                           m: State)
    requires LoopTouches(l, disk, m, c)
    requires forall i :: 0 <= i < |ids| ==> HoldsTask(l.memory, c, ids[i]) && ids[i] in m.campaigns[c].tasks
    ensures LoopTouches(RunTasks(l, input, c, ids), disk, m, c)
    decreases |ids|
  {
    hide RunTask, LoopTouches;
    if ids != [] && l.stop.Running? {
      var rest := ids[1..];
      assert HoldsTask(l.memory, c, ids[0]);
      assert forall i :: 0 <= i < |rest| ==> rest[i] == ids[i + 1] && HoldsTask(l.memory, c, ids[i + 1]);
      if l.memory.campaigns[c].tasks[ids[0]].status == Success {
        RunTasksTouches(l, input, c, rest, disk, m);
      } else {
        RunTaskTouches(l, input, c, ids[0], disk, m);
        RunTasksTouches(RunTask(l, input, c, ids[0]), input, c, rest, disk, m);
      }
    }
  }

  lemma AddDiscoveryTouches(m: State, s: State, c: string, runId: string)
    requires Touches(m, s, c) && s.campaigns[c].tasks == map[]
    ensures Touches(m, AddDiscovery(s, c, runId), c)
  {
  }

  lemma DiscoverTouches(l: Loop, input: PassInput, c: string, disk: State, m: State)
    requires LoopTouches(l, disk, m, c) && l.memory.campaigns[c].tasks == map[] && m.campaigns[c].tasks == map[]
    ensures LoopTouches(Discover(l, input, c), disk, m, c)
  {
    hide Touches, StateHash, SetTask, Materialize, DiscoveryTask, AddDiscovery, Recorded, Placed;
    var campaign := l.memory.campaigns[c];
    var added := AddDiscovery(l.memory, c, input.runId);
    AddDiscoveryTouches(m, l.memory, c, input.runId);
    DiscoveryAdded(l.memory, c, input.runId);
    var materialized := Materialize(added.campaigns[c]);
    if materialized.Some? {
      var id := DiscoveryId(campaign, input.runId);
      var stored := added.(campaigns := added.campaigns[c := materialized.value]);
      MaterializeTouches(added, c, materialized.value);
      TouchesTransitive(m, added, stored, c);
      MaterializedTasks(added.campaigns[c]);
      var blocked :=
          DiscoveryTask(campaign, input.runId).(status := Blocked, implementationCommit := Some(|l.world.commits|));
      SetTaskTouches(m, stored, c, id, blocked);
      SetTaskHolds(stored, c, id, blocked);
      SetTaskTouches(m, SetTask(stored, c, id, blocked), c, id, blocked.(receiptCommit := Some(|l.world.commits| + 1)));
    }
  }

  lemma MaterializedTasks(x: Campaign)
    ensures Materialize(x).Some? ==> Materialize(x).value == x.(materialized := Materialize(x).value.materialized)
  {
    hide StemsCollide, Stems, DocName;
  }

  lemma DiscoveryAdded(s: State, c: string, runId: string)
    requires c in s.campaigns
    ensures var id := DiscoveryId(s.campaigns[c], runId);
            && c in AddDiscovery(s, c, runId).campaigns
            && AddDiscovery(s, c, runId).campaigns[c]
               == s.campaigns[c].(tasks := s.campaigns[c].tasks[id := DiscoveryTask(s.campaigns[c], runId)])
  {
  }

  lemma TouchesTransitive(a: State, b: State, d: State, c: string)
    requires Touches(a, b, c) && Touches(b, d, c)
    ensures Touches(a, d, c)
  {
  }

  lemma WorkOnTouches(l: Loop, input: PassInput, c: string, disk: State, m: State)
    requires LoopTouches(l, disk, m, c) && l.memory.campaigns[c].tasks == m.campaigns[c].tasks
    ensures LoopTouches(WorkOn(l, input, c), disk, m, c)
  {
    hide Touches, Discover, RunTasks;
    var ids := SortedKeys(l.memory.campaigns[c].tasks.Keys);
    SortedHeld(l.memory, c);
    if input.mode.Fixtures? {
    } else if ids == [] {
      if input.allowDiscovery {
        assert l.memory.campaigns[c].tasks.Keys == {};
        assert l.memory.campaigns[c].tasks == map[];
        DiscoverTouches(l, input, c, disk, m);
      }
    } else if input.mode.Execute? {
      RunTasksTouches(l, input, c, ids, disk, m);
    }
  }

  // ---------------------------------------------------------------- what a pass leaves on disk

  /** `s` with the completion of campaign `c` recorded. */
  ghost function Completing(s: State, c: string): State
    requires c in s.campaigns
  {
    s.(campaigns := s.campaigns[c := UpdateCompletion(s.campaigns[c])])
  }

  /** The merged state of a pass that got past its merge. */
  ghost predicate PassMerged(w: World, input: PassInput, m: State) {
    var merged := MergeProposal(w.disk, input.proposal, AuditId(input));
    !input.stagesFail && merged.error.None? && merged.state == m
  }

  /**
   After a pass the state file is what it was, or the merged state, or the merged state with work on the
   one selected, eligible campaign, with or without its completion recorded.
   */
  ghost predicate Leaves(w: World, input: PassInput, disk: State) {
    || disk == w.disk
    || exists m :: PassMerged(w, input, m) && LeavesMerged(m, disk)
  }

  ghost predicate LeavesMerged(m: State, disk: State) {
    || disk == m
    || exists c :: Eligible(m, c) && LeavesWorked(m, disk, c)
  }

  ghost predicate LeavesWorked(m: State, disk: State, c: string)
    requires c in m.campaigns
  {
    || Touches(m, disk, c)
    || exists s :: Touches(m, s, c) && disk == Completing(s, c)
  }

  /** How the result for the selected campaign follows from where the work on it starts and stops. */
  lemma RunSelectedShape(w: World, m: State, input: PassInput, previous: StateSha, c: string)
    requires c in m.campaigns
    ensures var r := RunSelected(w, m, input, previous, c);
            if Materialize(m.campaigns[c]).None?
              then r == PassResult(w.(docs := Placed(w.docs, m.campaigns[c])), Aborted)
            else
              var worked := WorkOn(Started(w, m, previous, c), input, c);
              if worked.stop.Raised? then r == PassResult(worked.world, Aborted)
              else r == Finish(worked.world, Completing(worked.memory, c), input, worked.previous,
                               WorkTermination(worked, input, c, m.campaigns[c].tasks != map[]))
  {
    hide Materialize, WorkOn, WorkTermination, Placed, UpdateCompletion, Finish;
  }

  /** What the start of the work shares with the world and the merged state. */
  lemma StartedShape(w: World, m: State, previous: StateSha, c: string)
    requires c in m.campaigns && Materialize(m.campaigns[c]).Some?
    ensures var l := Started(w, m, previous, c);
            && l.world.disk == w.disk && l.world.log == w.log && l.world.commits == w.commits
            && l.world.docs == Placed(w.docs, m.campaigns[c])
            && l.previous == previous && l.stop.Running? && c in l.memory.campaigns
            && l.memory == m.(campaigns := m.campaigns[c := l.memory.campaigns[c]])
            && Materialize(m.campaigns[c]) == Some(l.memory.campaigns[c])
            && l.memory.campaigns[c] == m.campaigns[c].(materialized := l.memory.campaigns[c].materialized)
  {
    hide Materialize, Placed;
    MaterializedTasks(m.campaigns[c]);
  }

  lemma RunSelectedLeaves(w: World, m: State, input: PassInput, previous: StateSha, c: string)
    requires c in m.campaigns
    ensures var disk := RunSelected(w, m, input, previous, c).world.disk; disk == w.disk || LeavesWorked(m, disk, c)
  {
    hide Touches, WorkOn, WorkTermination, Materialize, RunSelected, Started, Completing;
    RunSelectedShape(w, m, input, previous, c);
    if Materialize(m.campaigns[c]).Some? {
      var l := Started(w, m, previous, c);
      StartedShape(w, m, previous, c);
      MaterializeTouches(m, c, l.memory.campaigns[c]);
      WorkOnTouches(l, input, c, w.disk, m);
      var worked := WorkOn(l, input, c);
      if !worked.stop.Raised? {
        assert Touches(m, worked.memory, c);
      }
    }
  }

  lemma PassLeaves(w: World, input: PassInput)
    requires WellFormed(w.disk)
    ensures Leaves(w, input, RunPass(w, input).world.disk)
  {
    hide MergeProposal, Select, RunSelected, WellFormed, Eligible, LeavesWorked;
    var merged := MergeProposal(w.disk, input.proposal, AuditId(input));
    if !input.stagesFail && merged.error.None? {
      var m := merged.state;
      assert PassMerged(w, input, m);
      MergeWellFormed(w.disk, input.proposal, AuditId(input));
      SelectedEligible(m);
      if Select(m).Some? {
        var c := Select(m).value;
        EligibleHeld(m, c);
        RunSelectedLeaves(w, m, input, StateHash(w.disk), c);
      }
    }
  }

  lemma EligibleHeld(m: State, c: string)
    requires Eligible(m, c)
    ensures c in m.campaigns
  {
  }

  lemma LeavesMergedWellFormed(m: State, disk: State)
    requires WellFormed(m) && LeavesMerged(m, disk)
    ensures WellFormed(disk)
  {
    hide ParseCampaignId, Eligible;
    forall c | c in disk.campaigns
      ensures HeaderMatchesId(c, disk.campaigns[c])
    {
      assert HeaderMatchesId(c, m.campaigns[c]);
    }
  }

  lemma PassKeepsWellFormed(w: World, input: PassInput)
    requires WellFormed(w.disk)
    ensures WellFormed(RunPass(w, input).world.disk)
  {
    hide RunPass, LeavesMerged, WellFormed, MergeProposal;
    PassLeaves(w, input);
    var disk := RunPass(w, input).world.disk;
    if disk != w.disk {
      var m :| PassMerged(w, input, m) && LeavesMerged(m, disk);
      MergeWellFormed(w.disk, input.proposal, AuditId(input));
      LeavesMergedWellFormed(m, disk);
    }
  }

  // ---------------------------------------------------------------- nothing is lost

  /** Campaigns keep what identifies them, completed ones stay completed, finished tasks keep their record. */
  ghost predicate Grows(a: State, b: State) {
    forall c :: c in a.campaigns ==> c in b.campaigns && CampaignGrows(a.campaigns[c], b.campaigns[c])
  }

  ghost predicate CampaignGrows(x: Campaign, y: Campaign) {
    && y.slug == x.slug && y.date == x.date && y.seqNo == x.seqNo && y.dependsOn == x.dependsOn
       && y.markdown == x.markdown
    && (x.status == Completed ==> y.status == Completed)
    && SameWork(x.tasks, y.tasks)
  }

  lemma GrowsTransitive(a: State, b: State, c: State)
    requires Grows(a, b) && Grows(b, c)
    ensures Grows(a, c)
  {
    forall id | id in a.campaigns
      ensures id in c.campaigns && CampaignGrows(a.campaigns[id], c.campaigns[id])
    {
      assert CampaignGrows(a.campaigns[id], b.campaigns[id]) && CampaignGrows(b.campaigns[id], c.campaigns[id]);
    }
  }

  lemma ExtendsGrows(a: State, b: State)
    requires Extends(a, b)
    ensures Grows(a, b)
  {
    forall c | c in a.campaigns
      ensures c in b.campaigns && CampaignGrows(a.campaigns[c], b.campaigns[c])
    {
      assert KeepsCampaign(a.campaigns[c], b.campaigns[c]);
    }
  }

  lemma LeavesWorkedGrows(m: State, disk: State, c: string)
    requires c in m.campaigns && m.campaigns[c].status != Completed && LeavesWorked(m, disk, c)
    ensures Grows(m, disk)
  {
  }

  lemma PassGrows(w: World, input: PassInput)
    requires WellFormed(w.disk)
    ensures Grows(w.disk, RunPass(w, input).world.disk)
  {
    hide RunPass, WellFormed, MergeProposal, LeavesWorked, CampaignGrows, Extends;
    PassLeaves(w, input);
    var disk := RunPass(w, input).world.disk;
    GrowsItself(w.disk);
    if disk != w.disk {
      var m :| PassMerged(w, input, m) && LeavesMerged(m, disk);
      MergeExtends(w.disk, input.proposal, AuditId(input));
      ExtendsGrows(w.disk, m);
      if disk != m {
        var c :| Eligible(m, c) && LeavesWorked(m, disk, c);
        LeavesWorkedGrows(m, disk, c);
        GrowsTransitive(w.disk, m, disk);
      }
    }
  }

  lemma GrowsItself(s: State)
    ensures Grows(s, s)
  {
  }

  // ---------------------------------------------------------------- completion is well founded

  /** `done` numbers the completed campaigns so that every dependency comes before its dependent. */
  ghost predicate CompletionOrder(s: State, done: seq<string>) {
    && NoDuplicates(done)
    && (forall c :: c in done <==> c in s.campaigns && s.campaigns[c].status == Completed)
    && forall i, d :: 0 <= i < |done| && done[i] in s.campaigns && d in s.campaigns[done[i]].dependsOn ==>
         d in done[..i]
  }

  /** Campaigns keep their dependencies and status; new ones are open. */
  lemma OrderKept(a: State, b: State, done: seq<string>)
    requires CompletionOrder(a, done)
    requires forall c :: c in a.campaigns ==> c in b.campaigns
    requires forall c :: c in a.campaigns ==> b.campaigns[c].dependsOn == a.campaigns[c].dependsOn
    requires forall c :: c in a.campaigns ==> b.campaigns[c].status == a.campaigns[c].status
    requires forall c :: c in b.campaigns && c !in a.campaigns ==> b.campaigns[c].status == Open
    ensures CompletionOrder(b, done)
  {
    forall i, d | 0 <= i < |done| && done[i] in b.campaigns && d in b.campaigns[done[i]].dependsOn
      ensures d in done[..i]
    {
      assert done[i] in done && done[i] in a.campaigns;
    }
  }

  lemma CompletingOrder(m: State, s: State, c: string, done: seq<string>)
    requires Eligible(m, c) && CompletionOrder(m, done)
    requires CompletionOrder(s, done) && c in s.campaigns && s.campaigns[c].dependsOn == m.campaigns[c].dependsOn
    requires c !in done
    ensures CompletionOrder(Completing(s, c), if AllSucceeded(s.campaigns[c]) then done + [c] else done)
  {
    hide AllSucceeded;
    var next := Completing(s, c);
    if AllSucceeded(s.campaigns[c]) {
      var longer := done + [c];
      forall i, d | 0 <= i < |longer| && longer[i] in next.campaigns && d in next.campaigns[longer[i]].dependsOn
        ensures d in longer[..i]
      {
        if i < |done| {
          assert longer[i] == done[i] && done[i] in done;
          assert longer[..i] == done[..i];
        } else {
          assert longer[..i] == done;
          assert d in m.campaigns && m.campaigns[d].status == Completed;
        }
      }
    } else {
      assert s.campaigns[c].status != Completed;
    }
  }

  lemma LeavesMergedOrder(m: State, disk: State, done: seq<string>)
    requires CompletionOrder(m, done) && LeavesMerged(m, disk)
    ensures CompletionOrder(disk, done) || exists c :: CompletionOrder(disk, done + [c])
  {
    hide CompletionOrder, AllSucceeded, SameWork, Completing;
    if disk != m {
      var c :| Eligible(m, c) && LeavesWorked(m, disk, c);
      OpenNotDone(m, c, done);
      if Touches(m, disk, c) {
        TouchedOrder(m, disk, c, done);
      } else {
        var s :| Touches(m, s, c) && disk == Completing(s, c);
        TouchedOrder(m, s, c, done);
        CompletingOrder(m, s, c, done);
      }
    }
  }

  lemma TouchedOrder(m: State, s: State, c: string, done: seq<string>)
    requires CompletionOrder(m, done) && Touches(m, s, c)
    ensures CompletionOrder(s, done) && c in s.campaigns && s.campaigns[c].dependsOn == m.campaigns[c].dependsOn
  {
    hide CompletionOrder, SameWork;
    OrderKept(m, s, done);
  }

  lemma OpenNotDone(m: State, c: string, done: seq<string>)
    requires CompletionOrder(m, done) && Eligible(m, c)
    ensures c !in done
  {
  }

  lemma PassOrder(w: World, input: PassInput, done: seq<string>)
    requires WellFormed(w.disk) && CompletionOrder(w.disk, done)
    ensures exists more :: done <= more && |more| <= |done| + 1 && CompletionOrder(RunPass(w, input).world.disk, more)
  {
    hide RunPass, WellFormed, MergeProposal, LeavesMerged, CompletionOrder;
    PassLeaves(w, input);
    var disk := RunPass(w, input).world.disk;
    assert done <= done;
    if disk != w.disk {
      var m :| PassMerged(w, input, m) && LeavesMerged(m, disk);
      MergeExtends(w.disk, input.proposal, AuditId(input));
      ExtendsOrder(w.disk, m, done);
      LeavesMergedOrder(m, disk, done);
      if !CompletionOrder(disk, done) {
        var c :| CompletionOrder(disk, done + [c]);
        assert done <= done + [c];
      }
    }
  }

  lemma ExtendsOrder(a: State, b: State, done: seq<string>)
    requires Extends(a, b) && CompletionOrder(a, done)
    ensures CompletionOrder(b, done)
  {
    hide CompletionOrder;
    forall c | c in a.campaigns
      ensures c in b.campaigns && b.campaigns[c].dependsOn == a.campaigns[c].dependsOn
           && b.campaigns[c].status == a.campaigns[c].status
    {
      assert KeepsCampaign(a.campaigns[c], b.campaigns[c]);
    }
    OrderKept(a, b, done);
  }

  /** Nothing recorded is lost over any run, aborted passes included. */
  lemma {:induction false} RunGrows(w: World, inputs: seq<PassInput>)
    requires WellFormed(w.disk)
    ensures Grows(w.disk, RunAll(w, inputs).disk)
    decreases |inputs|
  {
    hide RunPass, WellFormed, Grows;
    if inputs == [] {
      GrowsItself(w.disk);
    } else {
      PassKeepsWellFormed(w, inputs[0]);
      PassGrows(w, inputs[0]);
      var next := RunPass(w, inputs[0]).world;
      RunGrows(next, inputs[1..]);
      GrowsTransitive(w.disk, next.disk, RunAll(next, inputs[1..]).disk);
    }
  }

  /**
   Over any run, aborted passes included: nothing recorded is lost, completion is permanent, and the
   completed campaigns stay numbered with dependencies first; each pass completes at most one more.
   */
  lemma {:induction false} RunSafe(w: World, inputs: seq<PassInput>, done: seq<string>)
    requires WellFormed(w.disk) && CompletionOrder(w.disk, done)
    ensures Grows(w.disk, RunAll(w, inputs).disk)
    ensures exists more :: done <= more && |more| <= |done| + |inputs| && CompletionOrder(RunAll(w, inputs).disk, more)
    decreases |inputs|
  {
    hide RunPass, WellFormed, CompletionOrder, Grows;
    RunGrows(w, inputs);
    if inputs == [] {
      assert done <= done;
    } else {
      PassKeepsWellFormed(w, inputs[0]);
      PassOrder(w, inputs[0], done);
      var next := RunPass(w, inputs[0]).world;
      var more :| done <= more && |more| <= |done| + 1 && CompletionOrder(next.disk, more);
      RunSafe(next, inputs[1..], more);
      var last :| more <= last && |last| <= |more| + |inputs[1..]|
        && CompletionOrder(RunAll(next, inputs[1..]).disk, last);
      assert done <= last;
    }
  }

  // ---------------------------------------------------------------- blocked campaigns

  /** Each campaign on the path is a dependency of the one before it. */
  ghost predicate DependencyPath(s: State, path: seq<string>) {
    |path| >= 2 && forall i :: 0 <= i < |path| - 1 ==>
                     path[i] in s.campaigns && path[i + 1] in s.campaigns[path[i]].dependsOn
  }

  /** The path comes back to a campaign already on it, or ends at a dependency that does not exist. */
  ghost predicate DeadEnd(s: State, path: seq<string>) {
    DependencyPath(s, path) && (path[|path| - 1] in path[..|path| - 1] || path[|path| - 1] !in s.campaigns)
  }

  lemma {:induction false} PathCompleted(s: State, path: seq<string>, done: seq<string>, i: nat)
    requires CompletionOrder(s, done) && DependencyPath(s, path) && i < |path|
    requires path[0] in done
    ensures path[i] in done
    ensures forall j, a, b ::
              0 <= j < i && 0 <= a < |done| && 0 <= b < |done| && done[a] == path[j] && done[b] == path[i] ==> b < a
    decreases i
  {
    if i > 0 {
      PathCompleted(s, path, done, i - 1);
      var k :| 0 <= k < |done| && done[k] == path[i - 1];
      assert path[i] in s.campaigns[done[k]].dependsOn;
      assert path[i] in done[..k];
      var b :| 0 <= b < k && done[b] == path[i];
      forall j, a, b' | 0 <= j < i && 0 <= a < |done| && 0 <= b' < |done| && done[a] == path[j] && done[b'] == path[i]
        ensures b' < a
      {
        assert b' == b;
        if j == i - 1 {
          assert a == k;
        }
      }
    }
  }

  /** A campaign on a dependency cycle, or that leads to one or to a missing campaign, is not completed. */
  lemma DeadEndNotCompleted(s: State, path: seq<string>, done: seq<string>)
    requires CompletionOrder(s, done) && DeadEnd(s, path)
    ensures path[0] !in done
  {
    if path[0] in done {
      PathCompleted(s, path, done, |path| - 1);
    }
  }

  /** Nor is it ever eligible, so it is never selected. */
  lemma DeadEndNotEligible(s: State, path: seq<string>, done: seq<string>)
    requires CompletionOrder(s, done) && DeadEnd(s, path)
    ensures !Eligible(s, path[0])
  {
    if Eligible(s, path[0]) {
      var next := path[1];
      assert next in s.campaigns[path[0]].dependsOn;
      assert next in s.campaigns && s.campaigns[next].status == Completed && next in done;
      if |path| > 2 {
        DeadEndTail(s, path, done);
      }
    }
  }

  lemma DeadEndTail(s: State, path: seq<string>, done: seq<string>)
    requires CompletionOrder(s, done) && DeadEnd(s, path) && |path| > 2
    requires path[0] !in done
    ensures path[1] !in done
  {
    var tail := path[1..];
    forall i | 0 <= i < |tail| - 1
      ensures tail[i] in s.campaigns && tail[i + 1] in s.campaigns[tail[i]].dependsOn
    {
      assert path[i + 1] in s.campaigns && path[i + 2] in s.campaigns[path[i + 1]].dependsOn;
    }
    assert tail[|tail| - 1] == path[|path| - 1];
    if path[1] in done {
      PathCompleted(s, tail, done, |tail| - 1);
    }
  }

  /** The world after the given passes over a repository the runner has never seen. */
  ghost function Reached(inputs: seq<PassInput>): World {
    NothingCompleted();
    RunAll(NEW_WORLD, inputs)
  }

  /** In every reachable state a campaign at the start of a dead end is not completed. */
  lemma BlockedNotCompleted(inputs: seq<PassInput>, path: seq<string>)
    requires DeadEnd(Reached(inputs).disk, path)
    ensures var s := Reached(inputs).disk; path[0] in s.campaigns && s.campaigns[path[0]].status != Completed
  {
    hide RunAll, CompletionOrder, WellFormed;
    NothingCompleted();
    RunSafe(NEW_WORLD, inputs, []);
    var s := Reached(inputs).disk;
    var done :| CompletionOrder(s, done);
    DeadEndNotCompleted(s, path, done);
    NotDoneIsOpen(s, done, path[0]);
  }

  /** Whatever the next proposal merges into it, a campaign that then starts a dead end is not selected. */
  lemma BlockedStaysBlocked(inputs: seq<PassInput>, input: PassInput, m: State, path: seq<string>)
    requires PassMerged(Reached(inputs), input, m) && DeadEnd(m, path)
    ensures path[0] in m.campaigns && m.campaigns[path[0]].status != Completed
    ensures OrderedKeys(m) && Select(m) != Some(path[0])
  {
    hide RunAll, Eligible, CompletionOrder, WellFormed, MergeProposal, Extends, Select;
    NothingCompleted();
    RunSafe(NEW_WORLD, inputs, []);
    var s := Reached(inputs).disk;
    var done :| CompletionOrder(s, done);
    MergeExtends(s, input.proposal, AuditId(input));
    MergeWellFormed(s, input.proposal, AuditId(input));
    ExtendsOrder(s, m, done);
    DeadEndNotCompleted(m, path, done);
    DeadEndNotEligible(m, path, done);
    NotDoneIsOpen(m, done, path[0]);
    SelectedEligible(m);
  }

  lemma NotDoneIsOpen(s: State, done: seq<string>, c: string)
    requires CompletionOrder(s, done) && c in s.campaigns && c !in done
    ensures s.campaigns[c].status != Completed
  {
  }

  lemma NothingCompleted()
    ensures WellFormed(EMPTY_STATE) && CompletionOrder(EMPTY_STATE, [])
  {
  }
}
