/** Exactly when a successful task on disk names the receipt of an earlier attempt. */
module Receipts {
  import opened Wrappers
  import opened Collections
  import opened Text
  import opened Campaigns
  import opened Merge
  import opened Confluence
  import opened Selection
  import opened Runner
  import opened DocumentLaws
  import opened RunSafety
  import opened Fallback
  import opened Frontier
  import opened Attempts
  import opened CommitRecords

  /** A receipt that is named is the commit after the implementation that is named. */
  predicate Paired(task: Task) {
    task.receiptCommit.Some? ==>
      task.implementationCommit.Some? && task.receiptCommit.value == task.implementationCommit.value + 1
  }

  /** So for every successful task. */
  ghost predicate AllPaired(s: State) {
    forall c, t :: c in s.campaigns && t in s.campaigns[c].tasks && s.campaigns[c].tasks[t].status == Success ==>
      Paired(s.campaigns[c].tasks[t])
  }

  // ---------------------------------------------------------------- the condition

  predicate HasReceipt(tasks: map<string, Task>, t: string) { t in tasks && tasks[t].receiptCommit.Some? }

  /**
   Of the unfinished ids `u`, those before `k` succeed. Then either the attempt at `u[k]` saves its success
   and cannot commit the receipt, beside the receipt of an earlier attempt; or it fails before it saves, so
   that the receipt of the attempt before it, although committed, is not saved beside its success. `stale`
   tells what is on disk when the first attempt fails before it saves.
   */
  ghost predicate StaleAt(input: PassInput, name: string, tasks: map<string, Task>, u: seq<string>, fits: bool,
                          stale: bool, k: nat) {
    && k < |u| && (forall i :: 0 <= i < k ==> Succeeds(input, name, u[i], fits || i > 0))
    && if Saves(input, name, u[k], fits || k > 0)
       then input.agent(u[k]).FailsAfterSave? && input.agent(u[k]).result.status == Success && HasReceipt(tasks, u[k])
       else if k == 0 then stale else HasReceipt(tasks, u[k - 1])
  }

  ghost predicate StaleSomewhere(input: PassInput, name: string, tasks: map<string, Task>, u: seq<string>, fits: bool,
                                 stale: bool) {
    exists k: nat :: StaleAt(input, name, tasks, u, fits, stale, k)
  }

  /** After a first success the rest is on its own. */
  lemma StaleLater(input: PassInput, name: string, tasks: map<string, Task>, u: seq<string>, fits: bool, stale: bool)
    requires u != [] && Succeeds(input, name, u[0], fits)
    ensures StaleSomewhere(input, name, tasks, u, fits, stale)
            <==> StaleSomewhere(input, name, tasks, u[1..], true, HasReceipt(tasks, u[0]))
  {
    hide Succeeds, Saves;
    var rest, had := u[1..], HasReceipt(tasks, u[0]);
    assert Saves(input, name, u[0], fits) && input.agent(u[0]).Finishes? by { SucceedsParts(input, name, u[0], fits); }
    if k: nat :| StaleAt(input, name, tasks, u, fits, stale, k) {
      assert k > 0;
      forall i | 0 <= i < k - 1
        ensures Succeeds(input, name, rest[i], true)
      {
        assert rest[i] == u[i + 1] && Succeeds(input, name, u[i + 1], fits || i + 1 > 0);
      }
      assert StaleAt(input, name, tasks, rest, true, had, k - 1);
    }
    if k: nat :| StaleAt(input, name, tasks, rest, true, had, k) {
      forall i | 0 <= i < k + 1
        ensures Succeeds(input, name, u[i], fits || i > 0)
      {
        if i > 0 {
          assert u[i] == rest[i - 1] && Succeeds(input, name, rest[i - 1], true);
        }
      }
      assert StaleAt(input, name, tasks, u, fits, stale, k + 1);
    }
  }

  lemma SucceedsParts(input: PassInput, name: string, t: string, fits: bool)
    ensures Succeeds(input, name, t, fits) <==>
            Saves(input, name, t, fits) && input.agent(t).Finishes? && input.agent(t).result.status == Success
  {
    hide Saves;
  }

  /** Unless the first attempt succeeds, it decides. */
  lemma StaleNow(input: PassInput, name: string, tasks: map<string, Task>, u: seq<string>, fits: bool, stale: bool)
    requires u != [] && !Succeeds(input, name, u[0], fits)
    ensures StaleSomewhere(input, name, tasks, u, fits, stale) <==> StaleAt(input, name, tasks, u, fits, stale, 0)
  {
    hide Succeeds, Saves;
    if k: nat :| StaleAt(input, name, tasks, u, fits, stale, k) {
      if k > 0 {
        FirstSucceeds(input, name, tasks, u, fits, stale, k);
      }
    }
  }

  lemma FirstSucceeds(input: PassInput, name: string, tasks: map<string, Task>, u: seq<string>, fits: bool,
                      stale: bool, k: nat)
    requires StaleAt(input, name, tasks, u, fits, stale, k) && k > 0
    ensures Succeeds(input, name, u[0], fits)
  {
    hide Succeeds, Saves;
    assert Succeeds(input, name, u[0], fits || 0 > 0);
  }

  lemma StaleSame(input: PassInput, name: string, x: map<string, Task>, y: map<string, Task>, u: seq<string>,
                  fits: bool,
                  stale: bool)
    requires AllHeld(x, u) && AllHeld(y, u) && forall i :: 0 <= i < |u| ==> x[u[i]] == y[u[i]]
    ensures StaleSomewhere(input, name, x, u, fits, stale) <==> StaleSomewhere(input, name, y, u, fits, stale)
  {
    hide Succeeds, Saves;
    if k: nat :| StaleAt(input, name, x, u, fits, stale, k) {
      assert StaleAt(input, name, y, u, fits, stale, k);
    }
    if k: nat :| StaleAt(input, name, y, u, fits, stale, k) {
      assert StaleAt(input, name, x, u, fits, stale, k);
    }
  }

  // ---------------------------------------------------------------- one task

  lemma SetTaskPaired(s: State, c: string, t: string, task: Task)
    requires HoldsTask(s, c, t) && s.campaigns[c].tasks[t].status != Success
    ensures AllPaired(SetTask(s, c, t, task)) <==> AllPaired(s) && (task.status == Success ==> Paired(task))
  {
    hide Paired;
    var next := SetTask(s, c, t, task);
    assert next.campaigns[c].tasks[t] == task;
    if AllPaired(next) {
      forall d, u | d in s.campaigns && u in s.campaigns[d].tasks && s.campaigns[d].tasks[u].status == Success
        ensures Paired(s.campaigns[d].tasks[u])
      {
        assert next.campaigns[d].tasks[u] == s.campaigns[d].tasks[u];
      }
    }
  }

  /** A saved success is paired exactly when no earlier attempt had its receipt. */
  lemma ReportedPaired(s: State, commits: seq<Commit>, c: string, t: string, result: AgentResult)
    requires AllSound(s, commits) && HoldsTask(s, c, t) && s.campaigns[c].tasks[t].status != Success
    ensures AllPaired(SetTask(s, c, t, Reported(s.campaigns[c].tasks[t], result, |commits|)))
            <==> AllPaired(s) && !(result.status == Success && HasReceipt(s.campaigns[c].tasks, t))
  {
    hide AllPaired, AllSound, SetTask;
    TaskSound(s, commits, c, t);
    SetTaskPaired(s, c, t, Reported(s.campaigns[c].tasks[t], result, |commits|));
  }

  /** The receipt of an attempt that goes on is paired in memory. */
  lemma RunTaskPaired(l: Loop, input: PassInput, c: string, t: string)
    requires HoldsTask(l.memory, c, t) && l.memory.campaigns[c].tasks[t].status != Success
    ensures var r := RunTask(l, input, c, t);
            !r.stop.Raised? && !l.stop.Raised? ==> (AllPaired(r.memory) <==> AllPaired(l.memory))
  {
    hide AllPaired, SetTask, StateHash, Recorded;
    var outcome := input.agent(t);
    var r := RunTask(l, input, c, t);
    if !r.stop.Raised? && !l.stop.Raised? {
      var p := |l.world.commits|;
      var done := Reported(l.memory.campaigns[c].tasks[t], outcome.result, p);
      var received := done.(receiptCommit := Some(p + 1));
      SetTaskPaired(l.memory, c, t, received);
      SetTwice(l.memory, c, t, done, received);
    }
  }

  // ---------------------------------------------------------------- the loop

  ghost predicate LoopStale(l: Loop, input: PassInput, c: string, ids: seq<string>, stale: bool)
    requires c in l.memory.campaigns && AllHeld(l.memory.campaigns[c].tasks, ids)
  {
    var x := l.memory.campaigns[c];
    StaleSomewhere(input, DocName(x), x.tasks, Unfinished(x.tasks, ids), Fits(l.world.docs, DocName(x)), stale)
  }

  /** How the condition moves along the loop when the first task is run and the loop goes on. */
  lemma LoopStaleStep(l: Loop, input: PassInput, c: string, ids: seq<string>, stale: bool)
    requires l.stop.Running? && c in l.memory.campaigns && AllHeld(l.memory.campaigns[c].tasks, ids)
             && NoDuplicates(ids)
    requires ids != [] && HoldsTask(l.memory, c, ids[0]) && l.memory.campaigns[c].tasks[ids[0]].status != Success
    requires RunTask(l, input, c, ids[0]).stop.Running?
    ensures var r := RunTask(l, input, c, ids[0]);
            && c in r.memory.campaigns && AllHeld(r.memory.campaigns[c].tasks, ids[1..])
            && (LoopStale(l, input, c, ids, stale)
                <==> LoopStale(r, input, c, ids[1..], HasReceipt(l.memory.campaigns[c].tasks, ids[0])))
  {
    hide RunTask, StaleSomewhere, Records, Fits, DocName, SetTask, HasReceipt;
    var x, rest := l.memory.campaigns[c], ids[1..];
    assert forall i :: 0 <= i < |rest| ==> rest[i] == ids[i + 1];
    AttemptEffect(l, input, c, ids[0]);
    RestKept(l, input, c, ids[0], rest);
    var r := RunTask(l, input, c, ids[0]);
    var y, u := r.memory.campaigns[c], Unfinished(x.tasks, rest);
    UnfinishedSame(x.tasks, y.tasks, rest);
    UnfinishedHeld(x.tasks, rest);
    UnfinishedHeld(y.tasks, rest);
    StaleLater(input, DocName(x), x.tasks, [ids[0]] + u, Fits(l.world.docs, DocName(x)), stale);
    assert ([ids[0]] + u)[1..] == u;
    forall i | 0 <= i < |u|
      ensures x.tasks[u[i]] == y.tasks[u[i]]
    {
      assert u[i] in u && u[i] in rest;
    }
    StaleSame(input, DocName(x), x.tasks, y.tasks, u, true, HasReceipt(x.tasks, ids[0]));
  }

  /** When the first task run ends the loop, it alone decides. */
  lemma LoopStaleEnds(l: Loop, input: PassInput, c: string, ids: seq<string>, stale: bool)
    requires l.stop.Running? && c in l.memory.campaigns && AllHeld(l.memory.campaigns[c].tasks, ids)
    requires ids != [] && HoldsTask(l.memory, c, ids[0]) && l.memory.campaigns[c].tasks[ids[0]].status != Success
    requires !RunTask(l, input, c, ids[0]).stop.Running?
    ensures var r, x, outcome := RunTask(l, input, c, ids[0]), l.memory.campaigns[c], input.agent(ids[0]);
            LoopStale(l, input, c, ids, stale) <==>
              r.stop.Raised? &&
              if Saves(input, DocName(x), ids[0], Fits(l.world.docs, DocName(x)))
              then outcome.result.status == Success && HasReceipt(x.tasks, ids[0]) else stale
  {
    hide RunTask, StaleSomewhere, Records, Fits, DocName, SetTask, HasReceipt;
    var x := l.memory.campaigns[c];
    AttemptEffect(l, input, c, ids[0]);
    StaleNow(input, DocName(x), x.tasks, Unfinished(x.tasks, ids), Fits(l.world.docs, DocName(x)), stale);
  }

  lemma NothingStale(l: Loop, input: PassInput, c: string, stale: bool)
    requires c in l.memory.campaigns
    ensures !LoopStale(l, input, c, [], stale)
  {
  }

  /** A task that has succeeded is passed over. */
  lemma LoopStaleSkips(l: Loop, input: PassInput, c: string, ids: seq<string>, stale: bool)
    requires c in l.memory.campaigns && AllHeld(l.memory.campaigns[c].tasks, ids)
    requires ids != [] && l.memory.campaigns[c].tasks[ids[0]].status == Success
    ensures LoopStale(l, input, c, ids, stale) <==> LoopStale(l, input, c, ids[1..], stale)
  {
    hide StaleSomewhere;
    assert [] + Unfinished(l.memory.campaigns[c].tasks, ids[1..]) == Unfinished(l.memory.campaigns[c].tasks, ids[1..]);
  }

  lemma {:induction false} RunTasksPaired(l: Loop, input: PassInput, c: string, ids: seq<string>, stale: bool)
    requires LoopSound(l) && l.stop.Running? && c in l.memory.campaigns
    requires AllHeld(l.memory.campaigns[c].tasks, ids) && NoDuplicates(ids)
    requires forall i :: 0 <= i < |ids| ==> HoldsTask(l.memory, c, ids[i])
    requires AllPaired(l.world.disk) <==> AllPaired(l.memory) && !stale
    ensures var r := RunTasks(l, input, c, ids);
            if r.stop.Raised?
              then AllPaired(r.world.disk) <==> AllPaired(l.memory) && !LoopStale(l, input, c, ids, stale)
            else (AllPaired(r.memory) <==> AllPaired(l.memory)) && !LoopStale(l, input, c, ids, stale)
    decreases |ids|
  {
    hide AllSound, RunTask, AllPaired, Records, LoopStale, SetTask, HasReceipt, Fits, DocName;
    if ids == [] {
      NothingStale(l, input, c, stale);
    } else {
      var head, rest, x := ids[0], ids[1..], l.memory.campaigns[c];
      assert HoldsTask(l.memory, c, head);
      assert forall i :: 0 <= i < |rest| ==> rest[i] == ids[i + 1] && HoldsTask(l.memory, c, ids[i + 1]);
      if x.tasks[head].status == Success {
        LoopStaleSkips(l, input, c, ids, stale);
        RunTasksPaired(l, input, c, rest, stale);
      } else {
        var r := RunTask(l, input, c, head);
        RunTaskSound(l, input, c, head);
        RunTaskPaired(l, input, c, head);
        AttemptEffect(l, input, c, head);
        if Saves(input, DocName(x), head, Fits(l.world.docs, DocName(x))) {
          ReportedPaired(l.memory, l.world.commits, c, head, input.agent(head).result);
        }
        if r.stop.Running? {
          LoopStaleStep(l, input, c, ids, stale);
          RunTasksPaired(r, input, c, rest, HasReceipt(x.tasks, head));
        } else {
          LoopStaleEnds(l, input, c, ids, stale);
          StoppedStays(r, input, c, rest);
        }
      }
    }
  }

  // ---------------------------------------------------------------- the rest of a pass

  lemma SetUnfinished(s: State, c: string, t: string, task: Task)
    requires c in s.campaigns && task.status != Success
    requires t in s.campaigns[c].tasks ==> s.campaigns[c].tasks[t].status != Success
    ensures AllPaired(SetTask(s, c, t, task)) <==> AllPaired(s)
  {
    hide Paired;
    var next := SetTask(s, c, t, task);
    if AllPaired(next) {
      forall d, u | d in s.campaigns && u in s.campaigns[d].tasks && s.campaigns[d].tasks[u].status == Success
        ensures Paired(s.campaigns[d].tasks[u])
      {
        assert next.campaigns[d].tasks[u] == s.campaigns[d].tasks[u];
      }
    }
  }

  lemma SetCampaignPaired(s: State, c: string, y: Campaign)
    requires c in s.campaigns && y.tasks == s.campaigns[c].tasks
    ensures AllPaired(s.(campaigns := s.campaigns[c := y])) <==> AllPaired(s)
  {
    hide Paired;
    var next := s.(campaigns := s.campaigns[c := y]);
    if AllPaired(next) {
      forall d, u | d in s.campaigns && u in s.campaigns[d].tasks && s.campaigns[d].tasks[u].status == Success
        ensures Paired(s.campaigns[d].tasks[u])
      {
        assert next.campaigns[d].tasks[u] == s.campaigns[d].tasks[u];
      }
    }
  }

  lemma AddedPaired(s: State, c: string, runId: string)
    requires c in s.campaigns && s.campaigns[c].tasks == map[]
    ensures AllPaired(AddDiscovery(s, c, runId)) <==> AllPaired(s)
  {
    hide AllPaired, DiscoveryId;
    var id, task := DiscoveryId(s.campaigns[c], runId), DiscoveryTask(s.campaigns[c], runId);
    NewPlaceholder(s.campaigns[c], runId);
    SetUnfinished(s, c, id, task);
    assert AddDiscovery(s, c, runId).campaigns == SetTask(s, c, id, task).campaigns;
    SameCampaignsPaired(AddDiscovery(s, c, runId), SetTask(s, c, id, task));
  }

  lemma SameCampaignsPaired(a: State, b: State)
    requires a.campaigns == b.campaigns
    ensures AllPaired(a) <==> AllPaired(b)
  {
    hide Paired;
  }

  /** The fallback's placeholder never succeeds. */
  lemma DiscoverPaired(l: Loop, input: PassInput, c: string)
    requires c in l.memory.campaigns && l.memory.campaigns[c].tasks == map[]
    ensures var d := Discover(l, input, c);
            && (AllPaired(d.memory) <==> AllPaired(l.memory))
            && (d.world.disk == l.world.disk || (AllPaired(d.world.disk) <==> AllPaired(l.memory)))
  {
    hide AllPaired, SetTask, StateHash, Recorded, Placed, Materialize, AddDiscovery, DiscoveryTask;
    var x := l.memory.campaigns[c];
    var id, added, p := DiscoveryId(x, input.runId), AddDiscovery(l.memory, c, input.runId), |l.world.commits|;
    DiscoveryAdded(l.memory, c, input.runId);
    AddedPaired(l.memory, c, input.runId);
    if Materialize(added.campaigns[c]).Some? {
      MaterializedTasks(added.campaigns[c]);
      var y := Materialize(added.campaigns[c]).value;
      var stored := added.(campaigns := added.campaigns[c := y]);
      SetCampaignPaired(added, c, y);
      NewPlaceholder(x, input.runId);
      var blocked := DiscoveryTask(x, input.runId).(status := Blocked, implementationCommit := Some(p));
      SetUnfinished(stored, c, id, blocked);
      SetTaskHolds(stored, c, id, blocked);
      SetUnfinished(SetTask(stored, c, id, blocked), c, id, blocked.(receiptCommit := Some(p + 1)));
    }
  }

  /** The work on a campaign with this document text leaves a stale save. */
  ghost predicate LeavesStale(input: PassInput, x: Campaign, fits: bool) {
    input.mode.Execute? && StaleSomewhere(input, DocName(x), x.tasks, UnfinishedOf(x), fits, false)
  }

  ghost predicate WorkPaired(l: Loop, input: PassInput, c: string)
    requires c in l.memory.campaigns
  {
    var worked, x := WorkOn(l, input, c), l.memory.campaigns[c];
    var stale := LeavesStale(input, x, Fits(l.world.docs, DocName(x)));
    if worked.stop.Raised? then AllPaired(worked.world.disk) <==> AllPaired(l.memory) && !stale
    else (AllPaired(worked.memory) <==> AllPaired(l.memory)) && !stale
  }

  lemma ExecutedPaired(l: Loop, input: PassInput, c: string)
    requires LoopSound(l) && l.stop.Running? && c in l.memory.campaigns
    requires AllPaired(l.memory) <==> AllPaired(l.world.disk)
    requires input.mode.Execute? && l.memory.campaigns[c].tasks != map[]
    ensures WorkPaired(l, input, c)
  {
    hide LoopSound, RunTasks, AllPaired, StaleSomewhere, Fits, DocName, WorkOn;
    var worked := RunTasksOn(l, input, c);
    RunTasksPaired(l, input, c, SortedKeys(l.memory.campaigns[c].tasks.Keys), false);
  }

  lemma NoTasksNoneStale(input: PassInput, x: Campaign, fits: bool)
    requires x.tasks == map[]
    ensures !LeavesStale(input, x, fits)
  {
    assert UnfinishedOf(x) == [];
  }

  lemma NotExecutedPaired(l: Loop, input: PassInput, c: string)
    requires l.stop.Running? && c in l.memory.campaigns
    requires AllPaired(l.memory) <==> AllPaired(l.world.disk)
    requires !input.mode.Execute? || l.memory.campaigns[c].tasks == map[]
    ensures WorkPaired(l, input, c)
  {
    hide RunTasks, Discover, AllPaired, LeavesStale, Fits, DocName;
    var x := l.memory.campaigns[c];
    var fits := Fits(l.world.docs, DocName(x));
    assert x.tasks == map[] <==> x.tasks.Keys == {};
    if x.tasks == map[] {
      DiscoverPaired(l, input, c);
      NoTasksNoneStale(input, x, fits);
    } else {
      assert !LeavesStale(input, x, fits) by { OnlyExecuting(input, x, fits); }
    }
  }

  lemma OnlyExecuting(input: PassInput, x: Campaign, fits: bool)
    requires !input.mode.Execute?
    ensures !LeavesStale(input, x, fits)
  {
  }

  lemma WorkOnPaired(l: Loop, input: PassInput, c: string)
    requires LoopSound(l) && l.stop.Running? && c in l.memory.campaigns
    requires AllPaired(l.memory) <==> AllPaired(l.world.disk)
    ensures WorkPaired(l, input, c)
  {
    hide LoopSound, AllPaired, WorkPaired;
    if input.mode.Execute? && l.memory.campaigns[c].tasks != map[] {
      ExecutedPaired(l, input, c);
    } else {
      NotExecutedPaired(l, input, c);
    }
  }

  lemma MergedPaired(s: State, m: State)
    requires Extends(s, m)
    ensures AllPaired(m) <==> AllPaired(s)
  {
    hide Paired;
    if AllPaired(s) {
      forall c, t | c in m.campaigns && t in m.campaigns[c].tasks && m.campaigns[c].tasks[t].status == Success
        ensures Paired(m.campaigns[c].tasks[t])
      {
        if c in s.campaigns && t in s.campaigns[c].tasks {
          assert KeepsCampaign(s.campaigns[c], m.campaigns[c]);
        } else {
          NewIsPending(s, m, c, t);
        }
      }
    }
    if AllPaired(m) {
      forall c, t | c in s.campaigns && t in s.campaigns[c].tasks && s.campaigns[c].tasks[t].status == Success
        ensures Paired(s.campaigns[c].tasks[t])
      {
        assert KeepsCampaign(s.campaigns[c], m.campaigns[c]);
        assert m.campaigns[c].tasks[t] == s.campaigns[c].tasks[t];
      }
    }
  }

  ghost predicate SelectedLeavesStale(docs: Documents, input: PassInput, x: Campaign) {
    !StemsCollide(x) && LeavesStale(input, x, Updatable(DocumentText(docs, x)))
  }

  lemma SelectedPairedIff(w: World, m: State, input: PassInput, previous: StateSha, c: string)
    requires WorldSound(w) && AllSound(m, w.commits) && c in m.campaigns && (AllPaired(m) <==> AllPaired(w.disk))
    ensures AllPaired(RunSelected(w, m, input, previous, c).world.disk)
            <==> AllPaired(w.disk) && !SelectedLeavesStale(w.docs, input, m.campaigns[c])
  {
    hide AllSound, AllPaired, Materialize, WorkOn, WorkTermination, RunSelected, Started, Finish, AllSucceeded;
    hide LeavesStale;
    hide StemsCollide, DocName, Placed, Updatable, DocumentText;
    var x := m.campaigns[c];
    RunSelectedShape(w, m, input, previous, c);
    MaterializesIff(x);
    if Materialize(x).Some? {
      StartedShape(w, m, previous, c);
      var l := Started(w, m, previous, c);
      SetCampaignSound(m, w.commits, c, l.memory.campaigns[c]);
      SetCampaignPaired(m, c, l.memory.campaigns[c]);
      WorkOnPaired(l, input, c);
      PlacedFitsIff(w.docs, x, l.memory.campaigns[c]);
      SameLeavesStale(input, x, l.memory.campaigns[c], Updatable(DocumentText(w.docs, x)));
      var worked := WorkOn(l, input, c);
      if !worked.stop.Raised? {
        var end := WorkTermination(worked, input, c, m.campaigns[c].tasks != map[]);
        SetCampaignPaired(worked.memory, c, UpdateCompletion(worked.memory.campaigns[c]));
        FinishEnd(worked.world, Completing(worked.memory, c), input, worked.previous, end);
      }
    }
  }

  lemma SameLeavesStale(input: PassInput, x: Campaign, y: Campaign, fits: bool)
    requires y == x.(materialized := y.materialized)
    ensures LeavesStale(input, x, fits) <==> LeavesStale(input, y, fits)
  {
    SameName(x, y);
  }

  // ---------------------------------------------------------------- passes and runs

  /**
   The pass selects a campaign whose files do not collide, and what its agent will do leaves, as the last
   save of an aborted loop, a success beside the receipt of an earlier attempt.
   */
  ghost predicate PassLeavesStale(w: World, input: PassInput)
    requires WellFormed(w.disk)
  {
    var selected := PassSelection(w, input);
    selected.Some? && SelectedLeavesStale(w.docs, input, selected.value.0.campaigns[selected.value.1])
  }

  /** Receipts and implementations of successes stay paired exactly when no pass leaves such a save. */
  lemma PassPairedIff(w: World, input: PassInput)
    requires WellFormed(w.disk) && WorldSound(w)
    ensures AllPaired(RunPass(w, input).world.disk) <==> AllPaired(w.disk) && !PassLeavesStale(w, input)
  {
    hide AllSound, AllPaired, MergeProposal, Select, RunSelected, WellFormed, StateHash, Eligible, Extends;
    hide SelectedLeavesStale;
    var merged := MergeProposal(w.disk, input.proposal, AuditId(input));
    if !input.stagesFail && merged.error.None? {
      MergeWellFormed(w.disk, input.proposal, AuditId(input));
      MergeExtends(w.disk, input.proposal, AuditId(input));
      MergedSound(w.disk, merged.state, w.commits);
      MergedPaired(w.disk, merged.state);
      SelectedEligible(merged.state);
      if Select(merged.state).Some? {
        EligibleHeld(merged.state, Select(merged.state).value);
        SelectedPairedIff(w, merged.state, input, StateHash(w.disk), Select(merged.state).value);
      }
    }
  }

  ghost predicate NeverLeavesStale(w: World, inputs: seq<PassInput>)
    requires WellFormed(w.disk)
    decreases |inputs|
  {
    hide RunPass, WellFormed, PassLeavesStale;
    if inputs == [] then true
    else
      PassKeepsWellFormed(w, inputs[0]);
      !PassLeavesStale(w, inputs[0]) && NeverLeavesStale(RunPass(w, inputs[0]).world, inputs[1..])
  }

  /** After any run every success names a matching pair of commits exactly when no pass left a stale save. */
  lemma {:induction false} RunPairedIff(w: World, inputs: seq<PassInput>)
    requires WellFormed(w.disk) && WorldSound(w)
    ensures AllPaired(RunAll(w, inputs).disk) <==> AllPaired(w.disk) && NeverLeavesStale(w, inputs)
    decreases |inputs|
  {
    hide RunPass, WellFormed, WorldSound, AllPaired, PassLeavesStale;
    if inputs != [] {
      PassKeepsWellFormed(w, inputs[0]);
      PassSound(w, inputs[0]);
      PassPairedIff(w, inputs[0]);
      RunPairedIff(RunPass(w, inputs[0]).world, inputs[1..]);
    }
  }
}
