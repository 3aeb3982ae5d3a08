/** When "completed" means that everything in the campaign has succeeded. */
module Wholeness {
  import opened Text
  import opened Campaigns
  import opened Merge
  import opened Confluence
  import opened Selection
  import opened Runner
  import opened DocumentLaws
  import opened RunSafety
  import opened Fallback
  import opened Frontier
  import opened Attempts
  import opened CommitRecords

  /** Every completed campaign has tasks, and all of them have succeeded. */
  ghost predicate Whole(s: State) {
    forall c :: c in s.campaigns && s.campaigns[c].status == Completed ==> AllSucceeded(s.campaigns[c])
  }

  /** The merge brings a task to a campaign that was completed before. */
  ghost predicate AddsToCompleted(s: State, m: State) {
    exists c, t :: c in s.campaigns && s.campaigns[c].status == Completed && AddsTask(s, m, c, t)
  }

  ghost predicate AddsTask(s: State, m: State, c: string, t: string)
    requires c in s.campaigns
  {
    c in m.campaigns && t in m.campaigns[c].tasks && t !in s.campaigns[c].tasks
  }

  /** A merged campaign has a task that has not succeeded if it had one, or if it gained one. */
  lemma MergedSucceeds(s: State, m: State, c: string)
    requires Extends(s, m) && c in s.campaigns && AllSucceeded(s.campaigns[c])
    ensures c in m.campaigns
    ensures AllSucceeded(m.campaigns[c]) <==> !exists t :: AddsTask(s, m, c, t)
  {
    assert KeepsCampaign(s.campaigns[c], m.campaigns[c]);
    hide KeepsCampaign, Extends;
    if t :| AddsTask(s, m, c, t) {
      NewIsPending(s, m, c, t);
      assert m.campaigns[c].tasks[t].status == Pending;
    } else {
      NothingAdded(s, m, c);
    }
  }

  lemma NothingAdded(s: State, m: State, c: string)
    requires Extends(s, m) && c in s.campaigns && AllSucceeded(s.campaigns[c]) && forall t :: !AddsTask(s, m, c, t)
    ensures c in m.campaigns && AllSucceeded(m.campaigns[c])
  {
    assert KeepsCampaign(s.campaigns[c], m.campaigns[c]);
    var some :| some in s.campaigns[c].tasks;
    assert some in m.campaigns[c].tasks;
    forall t | t in m.campaigns[c].tasks
      ensures m.campaigns[c].tasks[t].status == Success
    {
      assert !AddsTask(s, m, c, t);
    }
  }

  /** A merge keeps completed campaigns whole exactly when it brings none of them a task. */
  lemma ExtendsWholeIff(s: State, m: State)
    requires Extends(s, m) && Whole(s)
    ensures Whole(m) <==> !AddsToCompleted(s, m)
  {
    hide AllSucceeded, AddsTask, Extends;
    forall c | c in s.campaigns && s.campaigns[c].status == Completed
      ensures c in m.campaigns && m.campaigns[c].status == Completed
      ensures AllSucceeded(m.campaigns[c]) <==> !exists t :: AddsTask(s, m, c, t)
    {
      MergedSucceeds(s, m, c);
      KeptStatus(s, m, c);
    }
    forall c | c in m.campaigns && m.campaigns[c].status == Completed
      ensures c in s.campaigns && s.campaigns[c].status == Completed
    {
      CompletedBefore(s, m, c);
    }
  }

  lemma KeptStatus(s: State, m: State, c: string)
    requires Extends(s, m) && c in s.campaigns
    ensures c in m.campaigns && m.campaigns[c].status == s.campaigns[c].status
  {
    assert KeepsCampaign(s.campaigns[c], m.campaigns[c]);
  }

  lemma CompletedBefore(s: State, m: State, c: string)
    requires Extends(s, m) && c in m.campaigns && m.campaigns[c].status == Completed
    ensures c in s.campaigns && s.campaigns[c].status == Completed
  {
    if c in s.campaigns {
      KeptStatus(s, m, c);
    } else {
      NewIsOpen(s, m, c);
    }
  }

  lemma NewIsOpen(s: State, m: State, c: string)
    requires Extends(s, m) && c in m.campaigns && c !in s.campaigns
    ensures m.campaigns[c].status == Open
  {
  }

  /** Work on an open campaign does not touch the completed ones, and completes only what has succeeded. */
  lemma WorkedWholeIff(m: State, disk: State, c: string)
    requires c in m.campaigns && m.campaigns[c].status != Completed && LeavesWorked(m, disk, c)
    ensures Whole(disk) <==> Whole(m)
  {
    hide Whole, Touches, Completing;
    if Touches(m, disk, c) {
      TouchedWholeIff(m, disk, c);
    } else {
      var s :| Touches(m, s, c) && c in s.campaigns && disk == Completing(s, c) by { WorkedParts(m, disk, c); }
      TouchedWholeIff(m, s, c);
      CompletingWholeIff(s, c);
    }
  }

  lemma WorkedParts(m: State, disk: State, c: string)
    requires c in m.campaigns && LeavesWorked(m, disk, c) && !Touches(m, disk, c)
    ensures exists s :: Touches(m, s, c) && c in s.campaigns && disk == Completing(s, c)
  {
    hide Completing, SameWork;
    var s :| Touches(m, s, c) && disk == Completing(s, c);
    assert c in s.campaigns;
  }

  lemma CompletingWholeIff(s: State, c: string)
    requires c in s.campaigns && s.campaigns[c].status != Completed
    ensures Whole(Completing(s, c)) <==> Whole(s)
  {
    hide AllSucceeded;
    var next := Completing(s, c);
    SucceededAlike(s.campaigns[c], next.campaigns[c]);
    forall d | d in s.campaigns && d != c
      ensures next.campaigns[d] == s.campaigns[d]
    {
    }
  }

  lemma TouchedWholeIff(m: State, s: State, c: string)
    requires Touches(m, s, c) && m.campaigns[c].status != Completed
    ensures c in s.campaigns && s.campaigns[c].status != Completed
    ensures Whole(s) <==> Whole(m)
  {
    hide AllSucceeded, SameWork;
    assert s.campaigns[c].status != Completed;
    forall d | d in m.campaigns && d != c
      ensures s.campaigns[d] == m.campaigns[d]
    {
    }
  }

  lemma SucceededAlike(x: Campaign, y: Campaign)
    requires x.tasks == y.tasks
    ensures AllSucceeded(x) <==> AllSucceeded(y)
  {
  }

  // ---------------------------------------------------------------- what is completed is left alone

  /** A pass keeps every record of a completed campaign; a task merged into it stays pending. */
  ghost predicate LeftAlone(x: Campaign, y: Campaign) {
    && y.status == Completed
    && (forall t :: t in x.tasks ==> t in y.tasks && y.tasks[t] == x.tasks[t])
    && (forall t :: t in y.tasks && t !in x.tasks ==> y.tasks[t].status == Pending)
  }

  lemma PassLeavesCompleted(w: World, input: PassInput, c: string)
    requires WellFormed(w.disk) && c in w.disk.campaigns && w.disk.campaigns[c].status == Completed
    ensures var disk := RunPass(w, input).world.disk;
            c in disk.campaigns && LeftAlone(w.disk.campaigns[c], disk.campaigns[c])
  {
    hide RunPass, WellFormed, MergeProposal, Extends, LeftAlone, LeavesWorked;
    PassLeaves(w, input);
    var disk := RunPass(w, input).world.disk;
    LeftItself(w.disk.campaigns[c]);
    if disk != w.disk {
      var m :| PassMerged(w, input, m) && LeavesMerged(m, disk);
      MergeExtends(w.disk, input.proposal, AuditId(input));
      MergeLeavesAlone(w.disk, m, c);
      if disk != m {
        var d :| Eligible(m, d) && LeavesWorked(m, disk, d);
        KeptStatus(w.disk, m, c);
        WorkSparesOther(m, disk, d, c);
      }
    }
  }

  lemma LeftItself(x: Campaign)
    requires x.status == Completed
    ensures LeftAlone(x, x)
  {
  }

  lemma MergeLeavesAlone(s: State, m: State, c: string)
    requires Extends(s, m) && c in s.campaigns && s.campaigns[c].status == Completed
    ensures c in m.campaigns && LeftAlone(s.campaigns[c], m.campaigns[c])
  {
    assert KeepsCampaign(s.campaigns[c], m.campaigns[c]);
  }

  lemma WorkSparesOther(m: State, disk: State, d: string, c: string)
    requires d in m.campaigns && c in m.campaigns && c != d && LeavesWorked(m, disk, d)
    ensures c in disk.campaigns && disk.campaigns[c] == m.campaigns[c]
  {
    hide SameWork;
  }

  lemma LeftAloneTransitive(x: Campaign, y: Campaign, z: Campaign)
    requires LeftAlone(x, y) && LeftAlone(y, z)
    ensures LeftAlone(x, z)
  {
  }

  /** So it is over any run: no task of a completed campaign, and none added to it later, is ever run again. */
  lemma {:induction false} RunLeavesCompleted(w: World, inputs: seq<PassInput>, c: string)
    requires WellFormed(w.disk) && c in w.disk.campaigns && w.disk.campaigns[c].status == Completed
    ensures var disk := RunAll(w, inputs).disk; c in disk.campaigns && LeftAlone(w.disk.campaigns[c], disk.campaigns[c])
    decreases |inputs|
  {
    hide RunPass, WellFormed, LeftAlone;
    if inputs == [] {
      LeftItself(w.disk.campaigns[c]);
    } else {
      var next, rest := RunPass(w, inputs[0]).world, inputs[1..];
      PassKeepsWellFormed(w, inputs[0]);
      PassLeavesCompleted(w, inputs[0], c);
      assert next.disk.campaigns[c].status == Completed by {
        StillCompleted(w.disk.campaigns[c], next.disk.campaigns[c]);
      }
      RunLeavesCompleted(next, rest, c);
      LeftAloneTransitive(w.disk.campaigns[c], next.disk.campaigns[c], RunAll(next, rest).disk.campaigns[c]);
    }
  }

  lemma StillCompleted(x: Campaign, y: Campaign)
    requires LeftAlone(x, y)
    ensures y.status == Completed
  {
  }

  /** What is not whole is never repaired. */
  lemma NotWholeStays(w: World, inputs: seq<PassInput>)
    requires WellFormed(w.disk) && !Whole(w.disk)
    ensures !Whole(RunAll(w, inputs).disk)
  {
    hide RunAll, WellFormed, LeftAlone, AllSucceeded;
    var c :| c in w.disk.campaigns && w.disk.campaigns[c].status == Completed && !AllSucceeded(w.disk.campaigns[c]);
    RunLeavesCompleted(w, inputs, c);
    NotSucceededAlone(w.disk.campaigns[c], RunAll(w, inputs).disk.campaigns[c]);
  }

  lemma NotSucceededAlone(x: Campaign, y: Campaign)
    requires LeftAlone(x, y) && !AllSucceeded(x)
    ensures y.status == Completed && !AllSucceeded(y)
  {
    if t :| t in x.tasks && x.tasks[t].status != Success {
      assert t in y.tasks && y.tasks[t].status != Success;
    } else if t :| t in y.tasks {
      assert y.tasks[t].status == Pending;
    }
  }

  // ---------------------------------------------------------------- when a pass saves

  /** The work on the selected campaign gets as far as saving the state. */
  ghost predicate CampaignSaves(docs: Documents, input: PassInput, x: Campaign) {
    && !StemsCollide(x)
    && (|| input.mode.Fixtures?
        || if x.tasks == map[] then
             && EntersFallback(docs, input, x)
             && var outcome := input.agent(DiscoveryId(x, input.runId)); outcome.Finishes? || outcome.FailsAfterSave?
           else
             || !input.mode.Execute?
             || UnfinishedOf(x) == []
             || Saves(input, DocName(x), UnfinishedOf(x)[0], Updatable(DocumentText(docs, x))))
  }

  /** The pass gets past its merge and as far as saving the state. */
  ghost predicate PassSaves(w: World, input: PassInput)
    requires WellFormed(w.disk)
  {
    var selected := PassSelection(w, input);
    && !input.stagesFail && MergeProposal(w.disk, input.proposal, AuditId(input)).error.None?
    && (selected.Some? ==> CampaignSaves(w.docs, input, selected.value.0.campaigns[selected.value.1]))
  }

  /** The task loop saves exactly when the first attempt does; with nothing left to attempt it runs through. */
  lemma {:induction false} LoopSaves(l: Loop, input: PassInput, c: string, ids: seq<string>, m: State)
    requires l.stop.Running? && LoopTouches(l, l.world.disk, m, c) && AllHeld(l.memory.campaigns[c].tasks, ids)
    requires forall i :: 0 <= i < |ids| ==> HoldsTask(l.memory, c, ids[i]) && ids[i] in m.campaigns[c].tasks
    ensures var r, x := RunTasks(l, input, c, ids), l.memory.campaigns[c];
            var u := Unfinished(x.tasks, ids);
            if u == [] then !r.stop.Raised?
            else if Saves(input, DocName(x), u[0], Fits(l.world.docs, DocName(x))) then Touches(m, r.world.disk, c)
            else r.stop.Raised? && r.world.disk == l.world.disk
    decreases |ids|
  {
    hide RunTask, Records, Fits, DocName, Touches, SetTask;
    if ids != [] {
      var head, rest, x := ids[0], ids[1..], l.memory.campaigns[c];
      assert HoldsTask(l.memory, c, head);
      assert forall i :: 0 <= i < |rest| ==> rest[i] == ids[i + 1] && HoldsTask(l.memory, c, ids[i + 1]);
      if x.tasks[head].status == Success {
        assert [] + Unfinished(x.tasks, rest) == Unfinished(x.tasks, rest);
        LoopSaves(l, input, c, rest, m);
      } else {
        var r := RunTask(l, input, c, head);
        AttemptEffect(l, input, c, head);
        if Saves(input, DocName(x), head, Fits(l.world.docs, DocName(x))) {
          ReportedTouches(l, input, c, head, m);
          RunTaskTouches(l, input, c, head, l.world.disk, m);
          RunTasksTouches(r, input, c, rest, r.world.disk, m);
        } else {
          StoppedStays(r, input, c, rest);
        }
      }
    }
  }

  lemma ReportedTouches(l: Loop, input: PassInput, c: string, t: string, m: State)
    requires LoopTouches(l, l.world.disk, m, c) && HoldsTask(l.memory, c, t) && t in m.campaigns[c].tasks
    requires l.memory.campaigns[c].tasks[t].status != Success && !input.agent(t).FailsBeforeCommit?
    ensures Touches(m,
                    SetTask(l.memory, c, t,
                            Reported(l.memory.campaigns[c].tasks[t], input.agent(t).result, |l.world.commits|)), c)
  {
    hide Touches, SetTask;
    assert m.campaigns[c].tasks[t].status != Success by { UnfinishedBefore(m, l.memory, c, t); }
    SetTaskTouches(m, l.memory, c, t,
                   Reported(l.memory.campaigns[c].tasks[t], input.agent(t).result, |l.world.commits|));
  }

  /** A fallback whose receipt fails leaves on disk what it has in memory. */
  lemma DiscoverSaved(l: Loop, input: PassInput, c: string, docs: Documents, x: Campaign)
    requires l.stop.Running? && c in l.memory.campaigns && l.memory.campaigns[c].tasks == map[]
    requires l.memory.campaigns[c] == x.(materialized := l.memory.campaigns[c].materialized)
    requires l.world.docs == Placed(docs, x) && Updatable(DocumentText(docs, x))
    requires input.agent(DiscoveryId(x, input.runId)).FailsAfterSave?
    ensures Discover(l, input, c).world.disk == Discover(l, input, c).memory
  {
    hide Materialize, AddDiscovery, DiscoveryTask, StateHash, Recorded, Placed, Updatable, DocumentText, SetTask;
    OneTaskMaterializes(l.memory, c, input.runId);
    SameDocName(x, l.memory.campaigns[c]);
    PlacedTwice(docs, x, l.memory.campaigns[c]);
    PlacedRecordsIff(docs, x, DiscoveryId(x, input.runId), |l.world.commits|);
    SameRecorded(Placed(docs, x), x, l.memory.campaigns[c], DiscoveryId(x, input.runId), |l.world.commits|);
  }

  /** The state file holds the work, or will hold it when the pass finishes; or the pass aborts without a save. */
  ghost predicate WorkSaves(l: Loop, input: PassInput, m: State, c: string, saves: bool)
    requires c in l.memory.campaigns
  {
    var worked := WorkOn(l, input, c);
    if saves then if worked.stop.Raised? then Touches(m, worked.world.disk, c) else Touches(m, worked.memory, c)
    else worked.stop.Raised? && worked.world.disk == l.world.disk
  }

  lemma FallbackSaves(l: Loop, input: PassInput, docs: Documents, x: Campaign, m: State, c: string)
    requires l.stop.Running? && LoopTouches(l, l.world.disk, m, c) && x.tasks == map[] && m.campaigns[c].tasks == map[]
    requires l.memory.campaigns[c] == x.(materialized := l.memory.campaigns[c].materialized)
    requires l.world.docs == Placed(docs, x) && !StemsCollide(x) && !input.mode.Fixtures?
    ensures WorkSaves(l, input, m, c, CampaignSaves(docs, input, x))
  {
    hide Discover, Touches, Updatable, DocumentText, Placed, StemsCollide;
    assert l.memory.campaigns[c].tasks.Keys == {};
    if input.allowDiscovery {
      DiscoverEnds(l, input, c, docs, x);
      DiscoverTouches(l, input, c, l.world.disk, m);
      if Updatable(DocumentText(docs, x)) && input.agent(DiscoveryId(x, input.runId)).FailsAfterSave? {
        DiscoverSaved(l, input, c, docs, x);
      }
    }
  }

  lemma ExecutionSaves(l: Loop, input: PassInput, docs: Documents, x: Campaign, m: State, c: string)
    requires l.stop.Running? && LoopTouches(l, l.world.disk, m, c) && x.tasks != map[]
             && m.campaigns[c].tasks == x.tasks
    requires l.memory.campaigns[c] == x.(materialized := l.memory.campaigns[c].materialized)
    requires l.world.docs == Placed(docs, x) && !StemsCollide(x) && input.mode.Execute?
    ensures WorkSaves(l, input, m, c, CampaignSaves(docs, input, x))
  {
    hide RunTasks, Touches, Updatable, DocumentText, Placed, StemsCollide, Saves, WorkOn, DocName, Fits, SortedKeys;
    var ids := SortedKeys(x.tasks.Keys);
    var worked := RunTasksOn(l, input, c);
    PlacedFitsIff(docs, x, l.memory.campaigns[c]);
    SameName(x, l.memory.campaigns[c]);
    LoopSaves(l, input, c, ids, m);
    RunTasksTouches(l, input, c, ids, l.world.disk, m);
    TouchedMemory(worked, l.world.disk, m, c);
  }

  lemma TouchedMemory(l: Loop, disk: State, m: State, c: string)
    requires LoopTouches(l, disk, m, c)
    ensures Touches(m, l.memory, c)
  {
  }

  lemma SelectedSaves(w: World, m: State, input: PassInput, previous: StateSha, c: string)
    requires c in m.campaigns
    ensures var disk := RunSelected(w, m, input, previous, c).world.disk;
            if CampaignSaves(w.docs, input, m.campaigns[c]) then LeavesWorked(m, disk, c) else disk == w.disk
  {
    hide Materialize, WorkOn, WorkTermination, RunSelected, Started, Finish, Touches, CampaignSaves, StemsCollide;
    hide Placed, Completing;
    var x := m.campaigns[c];
    RunSelectedShape(w, m, input, previous, c);
    MaterializesIff(x);
    if StemsCollide(x) {
      assert !CampaignSaves(w.docs, input, x) by { CollidingSavesNothing(w.docs, input, x); }
    } else {
      StartedShape(w, m, previous, c);
      var l := Started(w, m, previous, c);
      MaterializeTouches(m, c, l.memory.campaigns[c]);
      StartedSaves(l, input, w.docs, x, m, c);
      var worked := WorkOn(l, input, c);
      if !worked.stop.Raised? {
        FinishEnd(worked.world, Completing(worked.memory, c), input, worked.previous,
                  WorkTermination(worked, input, c, x.tasks != map[]));
      }
    }
  }

  lemma CollidingSavesNothing(docs: Documents, input: PassInput, x: Campaign)
    requires StemsCollide(x)
    ensures !CampaignSaves(docs, input, x)
  {
  }

  lemma StartedSaves(l: Loop, input: PassInput, docs: Documents, x: Campaign, m: State, c: string)
    requires l.stop.Running? && LoopTouches(l, l.world.disk, m, c) && m.campaigns[c].tasks == x.tasks
    requires l.memory.campaigns[c] == x.(materialized := l.memory.campaigns[c].materialized)
    requires l.world.docs == Placed(docs, x) && !StemsCollide(x)
    ensures WorkSaves(l, input, m, c, CampaignSaves(docs, input, x))
  {
    hide Touches, StemsCollide, Placed, WorkSaves, CampaignSaves;
    if input.mode.Fixtures? || (x.tasks != map[] && !input.mode.Execute?) {
      NoWorkSaves(l, input, docs, x, m, c);
    } else if x.tasks == map[] {
      FallbackSaves(l, input, docs, x, m, c);
    } else {
      ExecutionSaves(l, input, docs, x, m, c);
    }
  }

  lemma NoWorkSaves(l: Loop, input: PassInput, docs: Documents, x: Campaign, m: State, c: string)
    requires l.stop.Running? && LoopTouches(l, l.world.disk, m, c) && m.campaigns[c].tasks == x.tasks
             && !StemsCollide(x)
    requires l.memory.campaigns[c].tasks == x.tasks
             && (input.mode.Fixtures? || (x.tasks != map[] && !input.mode.Execute?))
    ensures WorkSaves(l, input, m, c, CampaignSaves(docs, input, x))
  {
    hide Touches, StemsCollide, Discover, RunTasks;
    assert x.tasks != map[] ==> x.tasks.Keys != {};
  }

  // ---------------------------------------------------------------- passes and runs

  /** The pass saves, and its merge brings a task to a campaign completed on disk. */
  ghost predicate AddsLate(w: World, input: PassInput)
    requires WellFormed(w.disk)
  {
    PassSaves(w, input) && AddsToCompleted(w.disk, MergeProposal(w.disk, input.proposal, AuditId(input)).state)
  }

  /** A pass that saves leaves the merged state, with or without work in it; any other leaves the state file alone. */
  lemma PassSavesIff(w: World, input: PassInput)
    requires WellFormed(w.disk)
    ensures var disk, m := RunPass(w, input).world.disk, MergeProposal(w.disk, input.proposal, AuditId(input)).state;
            if PassSaves(w, input) then
              || disk == m
              || exists c :: c in m.campaigns && m.campaigns[c].status != Completed && LeavesWorked(m, disk, c)
            else disk == w.disk
  {
    hide MergeProposal, Select, RunSelected, WellFormed, StateHash, Eligible, CampaignSaves, LeavesWorked;
    var merged := MergeProposal(w.disk, input.proposal, AuditId(input));
    if !input.stagesFail && merged.error.None? {
      MergeWellFormed(w.disk, input.proposal, AuditId(input));
      SelectedEligible(merged.state);
      if Select(merged.state).Some? {
        var c := Select(merged.state).value;
        EligibleHeld(merged.state, c);
        EligibleOpen(merged.state, c);
        SelectedSaves(w, merged.state, input, StateHash(w.disk), c);
      }
    }
  }

  lemma EligibleOpen(m: State, c: string)
    requires Eligible(m, c)
    ensures c in m.campaigns && m.campaigns[c].status != Completed
  {
  }

  /** Completed campaigns stay whole through a pass exactly when it does not add late to one of them. */
  lemma PassWholeIff(w: World, input: PassInput)
    requires WellFormed(w.disk) && Whole(w.disk)
    ensures Whole(RunPass(w, input).world.disk) <==> !AddsLate(w, input)
  {
    hide RunPass, WellFormed, MergeProposal, Extends, LeavesWorked, Whole, AddsToCompleted, PassSaves;
    PassSavesIff(w, input);
    if PassSaves(w, input) {
      SavesMerge(w, input);
      var disk, m := RunPass(w, input).world.disk, MergeProposal(w.disk, input.proposal, AuditId(input)).state;
      MergeExtends(w.disk, input.proposal, AuditId(input));
      ExtendsWholeIff(w.disk, m);
      if disk != m {
        var c :| c in m.campaigns && m.campaigns[c].status != Completed && LeavesWorked(m, disk, c);
        WorkedWholeIff(m, disk, c);
      }
    }
  }

  lemma SavesMerge(w: World, input: PassInput)
    requires WellFormed(w.disk) && PassSaves(w, input)
    ensures MergeProposal(w.disk, input.proposal, AuditId(input)).error.None?
  {
    hide MergeProposal, CampaignSaves;
  }

  ghost predicate NeverAddsLate(w: World, inputs: seq<PassInput>)
    requires WellFormed(w.disk)
    decreases |inputs|
  {
    hide RunPass, WellFormed, AddsLate;
    if inputs == [] then true
    else
      PassKeepsWellFormed(w, inputs[0]);
      !AddsLate(w, inputs[0]) && NeverAddsLate(RunPass(w, inputs[0]).world, inputs[1..])
  }

  /**
   After any run "completed" means that every task of the campaign has succeeded exactly when no pass of the
   run brought a task to a campaign that was completed: what is spoiled once is never repaired.
   */
  lemma {:induction false} RunWholeIff(w: World, inputs: seq<PassInput>)
    requires WellFormed(w.disk) && Whole(w.disk)
    ensures Whole(RunAll(w, inputs).disk) <==> NeverAddsLate(w, inputs)
    decreases |inputs|
  {
    hide RunPass, WellFormed, Whole, AddsLate;
    if inputs != [] {
      var next, rest := RunPass(w, inputs[0]).world, inputs[1..];
      PassKeepsWellFormed(w, inputs[0]);
      PassWholeIff(w, inputs[0]);
      if Whole(next.disk) {
        RunWholeIff(next, rest);
      } else {
        NotWholeStays(next, rest);
      }
    }
  }
}
