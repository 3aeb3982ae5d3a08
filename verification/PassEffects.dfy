/** What a pass leaves behind, spelled out: task records, log entries, and how it ends. */
module PassEffects {
  import opened Wrappers
  import opened Collections
  import opened Text
  import opened Campaigns
  import opened Merge
  import opened Confluence
  import opened IndexLaws
  import opened Selection
  import opened Runner
  import opened DocumentLaws
  import opened RunSafety
  import opened Fallback
  import opened Frontier
  import opened Attempts

  // ---------------------------------------------------------------- what a record reports

  /** The record is the task's own with what its agent reported, and nothing else changed but the commits. */
  ghost predicate ReportedBy(before: Task, after: Task, input: PassInput, t: string) {
    var outcome := input.agent(t);
    && !outcome.FailsBeforeCommit? && outcome.result.status != Pending
    && after.content == before.content && after.hash == before.hash && after.campaignSlug == before.campaignSlug
    && after.status == outcome.result.status && after.result == Some(outcome.result) && after.implementationCommit.Some?
  }

  /** Each task of the campaign is as it was, or reports what its agent did, unless it had succeeded before. */
  ghost predicate Accounted(before: map<string, Task>, after: map<string, Task>, input: PassInput) {
    && after.Keys == before.Keys
    && forall t :: t in before && t in after && after[t] != before[t] ==>
         before[t].status != Success && ReportedBy(before[t], after[t], input, t)
  }

  lemma RunTaskAccounted(l: Loop, input: PassInput, c: string, t: string, before: map<string, Task>)
    requires HoldsTask(l.memory, c, t) && Accounted(before, l.memory.campaigns[c].tasks, input)
    requires l.memory.campaigns[c].tasks[t].status != Success
    ensures var r := RunTask(l, input, c, t);
            && c in r.memory.campaigns && Accounted(before, r.memory.campaigns[c].tasks, input)
            && (r.world.disk == l.world.disk
                || (c in r.world.disk.campaigns && Accounted(before, r.world.disk.campaigns[c].tasks, input)))
  {
    hide StateHash, Recorded, SetTask;
    var outcome := input.agent(t);
    if !outcome.FailsBeforeCommit? && outcome.result.status != Pending {
      var p := |l.world.commits|;
      var done := Reported(l.memory.campaigns[c].tasks[t], outcome.result, p);
      var received := done.(receiptCommit := Some(p + 1));
      SetAccounted(l.memory, c, t, done, before, input);
      SetAccounted(l.memory, c, t, received, before, input);
      SetTwice(l.memory, c, t, done, received);
    }
  }

  lemma SetAccounted(s: State, c: string, t: string, task: Task, before: map<string, Task>, input: PassInput)
    requires HoldsTask(s, c, t) && Accounted(before, s.campaigns[c].tasks, input)
             && s.campaigns[c].tasks[t].status != Success
    requires ReportedBy(s.campaigns[c].tasks[t], task, input, t)
    ensures c in SetTask(s, c, t, task).campaigns && Accounted(before, SetTask(s, c, t, task).campaigns[c].tasks, input)
  {
  }

  lemma {:induction false} RunTasksAccounted(l: Loop, input: PassInput, c: string, ids: seq<string>,
                                             before: map<string, Task>,
                                             disk: State)
    requires c in l.memory.campaigns && forall i :: 0 <= i < |ids| ==> HoldsTask(l.memory, c, ids[i])
    requires Accounted(before, l.memory.campaigns[c].tasks, input)
    requires l.world.disk == disk
             || (c in l.world.disk.campaigns && Accounted(before, l.world.disk.campaigns[c].tasks, input))
    ensures var r := RunTasks(l, input, c, ids);
            && Accounted(before, r.memory.campaigns[c].tasks, input)
            && (r.world.disk == disk
                || (c in r.world.disk.campaigns && Accounted(before, r.world.disk.campaigns[c].tasks, input)))
    decreases |ids|
  {
    hide RunTask, Accounted;
    if ids != [] && l.stop.Running? {
      var rest := ids[1..];
      assert HoldsTask(l.memory, c, ids[0]);
      assert forall i :: 0 <= i < |rest| ==> rest[i] == ids[i + 1] && HoldsTask(l.memory, c, ids[i + 1]);
      if l.memory.campaigns[c].tasks[ids[0]].status == Success {
        RunTasksAccounted(l, input, c, rest, before, disk);
      } else {
        RunTaskAccounted(l, input, c, ids[0], before);
        RunTasksAccounted(RunTask(l, input, c, ids[0]), input, c, rest, before, disk);
      }
    }
  }

  lemma AccountedItself(tasks: map<string, Task>, input: PassInput)
    ensures Accounted(tasks, tasks, input)
  {
    hide ReportedBy;
  }

  /** Executing a campaign accounts for every record it leaves on disk. */
  lemma SelectedAccounted(w: World, m: State, input: PassInput, previous: StateSha, c: string)
    requires c in m.campaigns && m.campaigns[c].tasks != map[]
    ensures var disk := RunSelected(w, m, input, previous, c).world.disk;
            disk == w.disk || (c in disk.campaigns && Accounted(m.campaigns[c].tasks, disk.campaigns[c].tasks, input))
  {
    hide Materialize, WorkOn, WorkTermination, RunSelected, Started, Finish, Accounted, Completing, RunTasks;
    var x := m.campaigns[c];
    AccountedItself(x.tasks, input);
    RunSelectedShape(w, m, input, previous, c);
    if Materialize(x).Some? {
      StartedShape(w, m, previous, c);
      var l := Started(w, m, previous, c);
      var worked := WorkOn(l, input, c);
      WorkAccounted(l, input, c, x.tasks, w.disk);
      if !worked.stop.Raised? {
        var end := WorkTermination(worked, input, c, true);
        FinishEnd(worked.world, Completing(worked.memory, c), input, worked.previous, end);
        CompletingEffect(worked.memory, c);
      }
    }
  }

  lemma WorkAccounted(l: Loop, input: PassInput, c: string, before: map<string, Task>, disk: State)
    requires c in l.memory.campaigns && l.memory.campaigns[c].tasks == before != map[] && l.world.disk == disk
    ensures var worked := WorkOn(l, input, c);
            && Accounted(before, worked.memory.campaigns[c].tasks, input)
            && (worked.world.disk == disk
                || (c in worked.world.disk.campaigns && Accounted(before, worked.world.disk.campaigns[c].tasks, input)))
  {
    hide RunTasks, Accounted, Sorted, Discover;
    AccountedItself(before, input);
    assert before.Keys != {};
    SortedHeld(l.memory, c);
    RunTasksAccounted(l, input, c, SortedKeys(before.Keys), before, disk);
  }

  /**
   After any pass that selects a campaign with tasks, each record of that campaign on disk is the merged one or
   reports exactly what this pass's agent did, with its content as merged; a success is never reported over.
   */
  lemma PassReports(w: World, input: PassInput, m: State, c: string)
    requires WellFormed(w.disk) && PassSelection(w, input) == Some((m, c)) && c in m.campaigns
             && m.campaigns[c].tasks != map[]
    ensures var disk := RunPass(w, input).world.disk;
            disk == w.disk || (c in disk.campaigns && Accounted(m.campaigns[c].tasks, disk.campaigns[c].tasks, input))
  {
    hide MergeProposal, Select, RunSelected, WellFormed, StateHash, Eligible, Accounted;
    SelectedAccounted(w, m, input, StateHash(w.disk), c);
  }

  // ---------------------------------------------------------------- what is logged

  /** The reasons of the entries gained, all of this run. */
  ghost predicate Logs(before: seq<Transition>, after: seq<Transition>, runId: string, reasons: seq<Reason>) {
    && |after| == |before| + |reasons| && before <= after
    && forall i :: 0 <= i < |reasons| ==> Says(after, |before| + i, runId, reasons[i])
  }

  ghost predicate Says(log: seq<Transition>, k: int, runId: string, reason: Reason) {
    0 <= k < |log| && log[k].runId == runId && log[k].reason == reason
  }

  function TaskReceipts(ids: seq<string>): (r: seq<Reason>)
    ensures |r| == |ids| && forall i :: 0 <= i < |ids| ==> r[i] == TaskReceipt(ids[i])
  {
    seq(|ids|, i requires 0 <= i < |ids| => TaskReceipt(ids[i]))
  }

  lemma LogsNothing(log: seq<Transition>, runId: string)
    ensures Logs(log, log, runId, [])
  {
  }

  lemma LogsThen(a: seq<Transition>, b: seq<Transition>, c: seq<Transition>, runId: string, x: seq<Reason>,
                 y: seq<Reason>)
    requires Logs(a, b, runId, x) && Logs(b, c, runId, y)
    ensures Logs(a, c, runId, x + y)
  {
    forall i | 0 <= i < |x + y|
      ensures Says(c, |a| + i, runId, (x + y)[i])
    {
      if i < |x| {
        assert Says(b, |a| + i, runId, x[i]);
      } else {
        var k := i - |x|;
        assert Says(c, |b| + k, runId, y[k]) && |a| + i == |b| + k;
      }
    }
  }

  /** The loop logs one receipt for each task it saves: the first `n` unfinished ones. */
  ghost predicate LogsReceipts(l: Loop, r: Loop, input: PassInput, u: seq<string>, n: nat) {
    n <= |u| && Logs(l.world.log, r.world.log, input.runId, TaskReceipts(u[..n]))
  }

  lemma RunTaskLogs(l: Loop, input: PassInput, c: string, t: string)
    requires l.stop.Running? && HoldsTask(l.memory, c, t)
    ensures var r, name := RunTask(l, input, c, t), DocName(l.memory.campaigns[c]);
            Logs(l.world.log, r.world.log, input.runId,
                 if Saves(input, name, t, Fits(l.world.docs, name)) then [TaskReceipt(t)] else [])
  {
    hide StateHash, Recorded, Updatable, Fits, SetTask;
    RecordedIff(l.world.docs + input.agent(t).edits, l.memory.campaigns[c], t, |l.world.commits|);
    EditedFits(input, l.world.docs, DocName(l.memory.campaigns[c]), t);
  }

  /** Running a task leaves the later ones as unfinished as they were. */
  lemma RestUnfinished(l: Loop, input: PassInput, c: string, t: string, rest: seq<string>)
    requires HoldsTask(l.memory, c, t) && AllHeld(l.memory.campaigns[c].tasks, rest) && t !in rest
    ensures var r := RunTask(l, input, c, t);
            && c in r.memory.campaigns && AllHeld(r.memory.campaigns[c].tasks, rest)
            && Unfinished(r.memory.campaigns[c].tasks, rest) == Unfinished(l.memory.campaigns[c].tasks, rest)
  {
    hide RunTask, Unfinished;
    RestKept(l, input, c, t, rest);
    UnfinishedSame(l.memory.campaigns[c].tasks, RunTask(l, input, c, t).memory.campaigns[c].tasks, rest);
  }

  lemma ReceiptsStep(head: string, rest: seq<string>, n: nat)
    requires n <= |rest|
    ensures TaskReceipts(([head] + rest)[..n + 1]) == [TaskReceipt(head)] + TaskReceipts(rest[..n])
  {
    assert ([head] + rest)[..n + 1] == [head] + rest[..n];
  }

  lemma ReceiptsFirst(head: string, rest: seq<string>)
    ensures TaskReceipts(([head] + rest)[..1]) == [TaskReceipt(head)] && TaskReceipts(([head] + rest)[..0]) == []
  {
    assert ([head] + rest)[..1] == [head];
  }

  lemma LogsOneMore(l: Loop, mid: Loop, r: Loop, input: PassInput, head: string, rest: seq<string>, n: nat)
    requires Logs(l.world.log, mid.world.log, input.runId, [TaskReceipt(head)]) && LogsReceipts(mid, r, input, rest, n)
    ensures LogsReceipts(l, r, input, [head] + rest, n + 1)
  {
    hide Logs, TaskReceipts;
    LogsThen(l.world.log, mid.world.log, r.world.log, input.runId, [TaskReceipt(head)], TaskReceipts(rest[..n]));
    ReceiptsStep(head, rest, n);
  }

  lemma LogsLast(l: Loop, r: Loop, input: PassInput, head: string, rest: seq<string>, saved: bool)
    requires Logs(l.world.log, r.world.log, input.runId, if saved then [TaskReceipt(head)] else [])
    ensures LogsReceipts(l, r, input, [head] + rest, if saved then 1 else 0)
  {
    hide Logs, TaskReceipts;
    ReceiptsFirst(head, rest);
  }

  lemma LogsNone(l: Loop, input: PassInput)
    ensures LogsReceipts(l, l, input, [], 0)
  {
    LogsNothing(l.world.log, input.runId);
    assert TaskReceipts([]) == [];
  }

  /** How many of the unfinished tasks get as far as a save: one that does not succeed is the last. */
  ghost function SavedCount(input: PassInput, name: string, u: seq<string>, fits: bool): (n: nat)
    ensures n <= |u|
  {
    if u == [] || !Saves(input, name, u[0], fits) then 0
    else if Succeeds(input, name, u[0], fits) then 1 + SavedCount(input, name, u[1..], true)
    else 1
  }

  /** How the loop ends: at the first unfinished task that does not succeed. */
  ghost function LoopEnd(input: PassInput, name: string, u: seq<string>, fits: bool): Stop {
    if u == [] then Running
    else if Succeeds(input, name, u[0], fits) then LoopEnd(input, name, u[1..], true)
    else if Saves(input, name, u[0], fits) && input.agent(u[0]).Finishes?
      then StoppedBy(u[0], input.agent(u[0]).result.status)
    else Raised
  }

  /**
   Every task before `k` succeeds; the attempt at `t`, the one at `k`, is saved and finished with this other
   status.
   */
  ghost predicate StopsWith(input: PassInput, name: string, u: seq<string>, fits: bool, k: nat, t: string,
                            status: TaskStatus) {
    && k < |u| && (forall i :: 0 <= i < k ==> Succeeds(input, name, u[i], fits || i > 0))
    && u[k] == t && Saves(input, name, t, fits || k > 0) && input.agent(t).Finishes?
    && input.agent(t).result.status == status != Success
  }

  /** The loop runs through exactly when every attempt succeeds. */
  lemma {:induction false} RunsThroughIff(input: PassInput, name: string, u: seq<string>, fits: bool)
    ensures LoopEnd(input, name, u, fits).Running? <==>
              forall i :: 0 <= i < |u| ==> Succeeds(input, name, u[i], fits || i > 0)
  {
    hide Succeeds, Saves;
    if u != [] {
      var rest := u[1..];
      if Succeeds(input, name, u[0], fits) {
        RunsThroughIff(input, name, rest, true);
        forall i | 0 <= i < |rest|
          ensures rest[i] == u[i + 1]
        {
        }
        if forall i :: 0 <= i < |rest| ==> Succeeds(input, name, rest[i], true || i > 0) {
          forall i | 0 <= i < |u|
            ensures Succeeds(input, name, u[i], fits || i > 0)
          {
            assert i > 0 ==> Succeeds(input, name, rest[i - 1], true);
          }
        }
        if forall i :: 0 <= i < |u| ==> Succeeds(input, name, u[i], fits || i > 0) {
          forall i | 0 <= i < |rest|
            ensures Succeeds(input, name, rest[i], true)
          {
            assert Succeeds(input, name, u[i + 1], fits || i + 1 > 0);
          }
        }
      } else {
        assert !Succeeds(input, name, u[0], fits || 0 > 0);
      }
    }
  }

  /** It stops exactly at the first task that is saved and finished without success. */
  lemma {:induction false} StopsIff(input: PassInput, name: string, u: seq<string>, fits: bool, t: string,
                                    status: TaskStatus)
    ensures LoopEnd(input, name, u, fits) == StoppedBy(t, status) <==>
              exists k: nat :: StopsWith(input, name, u, fits, k, t, status)
  {
    hide Records;
    if u != [] {
      if Succeeds(input, name, u[0], fits) {
        StopsIff(input, name, u[1..], true, t, status);
        StopsShift(input, name, u, fits, t, status);
      } else {
        if k: nat :| StopsWith(input, name, u, fits, k, t, status) {
          StopsAtFirst(input, name, u, fits, k, t, status);
        }
        if Saves(input, name, u[0], fits) && input.agent(u[0]).Finishes? && t == u[0]
          && input.agent(t).result.status == status {
          assert StopsWith(input, name, u, fits, 0, t, status);
        }
      }
    }
  }

  lemma StopsAtFirst(input: PassInput, name: string, u: seq<string>, fits: bool, k: nat, t: string, status: TaskStatus)
    requires StopsWith(input, name, u, fits, k, t, status)
    ensures k == 0 || Succeeds(input, name, u[0], fits)
  {
    hide Succeeds, Saves;
    if k > 0 {
      assert Succeeds(input, name, u[0], fits || 0 > 0);
    }
  }

  lemma StopsLater(input: PassInput, name: string, u: seq<string>, fits: bool, k: nat, t: string, status: TaskStatus)
    requires u != [] && Succeeds(input, name, u[0], fits)
    ensures StopsWith(input, name, u[1..], true, k, t, status) <==> StopsWith(input, name, u, fits, k + 1, t, status)
  {
    hide Succeeds, Saves;
    var rest := u[1..];
    if StopsWith(input, name, rest, true, k, t, status) {
      forall i | 0 <= i < k + 1
        ensures Succeeds(input, name, u[i], fits || i > 0)
      {
        if i > 0 {
          assert Succeeds(input, name, rest[i - 1], true) && u[i] == rest[i - 1];
        }
      }
    }
    if StopsWith(input, name, u, fits, k + 1, t, status) {
      forall i | 0 <= i < k
        ensures Succeeds(input, name, rest[i], true)
      {
        assert Succeeds(input, name, u[i + 1], fits || i + 1 > 0) && u[i + 1] == rest[i];
      }
    }
  }

  lemma StopsShift(input: PassInput, name: string, u: seq<string>, fits: bool, t: string, status: TaskStatus)
    requires u != [] && Succeeds(input, name, u[0], fits)
    ensures (exists k: nat :: StopsWith(input, name, u[1..], true, k, t, status)) <==>
            (exists k: nat :: StopsWith(input, name, u, fits, k, t, status))
  {
    hide StopsWith, Succeeds;
    if k: nat :| StopsWith(input, name, u[1..], true, k, t, status) {
      StopsLater(input, name, u, fits, k, t, status);
    }
    if k: nat :| StopsWith(input, name, u, fits, k, t, status) {
      if k == 0 {
        StoppedIsNoSuccess(input, name, u, fits, t, status);
      } else {
        StopsLater(input, name, u, fits, k - 1, t, status);
      }
    }
  }

  lemma StoppedIsNoSuccess(input: PassInput, name: string, u: seq<string>, fits: bool, t: string, status: TaskStatus)
    requires StopsWith(input, name, u, fits, 0, t, status)
    ensures !Succeeds(input, name, u[0], fits)
  {
  }

  /** The loop ends and logs as its input says. */
  lemma {:induction false} RunTasksSpelled(l: Loop, input: PassInput, c: string, ids: seq<string>)
    requires l.stop.Running? && c in l.memory.campaigns && AllHeld(l.memory.campaigns[c].tasks, ids)
             && NoDuplicates(ids)
    requires forall i :: 0 <= i < |ids| ==> HoldsTask(l.memory, c, ids[i])
    ensures var r, x := RunTasks(l, input, c, ids), l.memory.campaigns[c];
            var u, fits := Unfinished(x.tasks, ids), Fits(l.world.docs, DocName(x));
            && r.stop == LoopEnd(input, DocName(x), u, fits)
            && LogsReceipts(l, r, input, u, SavedCount(input, DocName(x), u, fits))
    decreases |ids|
  {
    hide RunTask, LogsReceipts, Logs, Records, DocName, Fits;
    if ids == [] {
      LogsNone(l, input);
    } else {
      var head, rest, tasks := ids[0], ids[1..], l.memory.campaigns[c].tasks;
      assert HoldsTask(l.memory, c, head);
      assert forall i :: 0 <= i < |rest| ==> rest[i] == ids[i + 1] && HoldsTask(l.memory, c, ids[i + 1]);
      if tasks[head].status == Success {
        RunTasksSpelled(l, input, c, rest);
        assert [] + Unfinished(tasks, rest) == Unfinished(tasks, rest);
      } else {
        var mid, name, later := RunTask(l, input, c, head), DocName(l.memory.campaigns[c]), Unfinished(tasks, rest);
        assert ([head] + later)[1..] == later;
        RunTaskLogs(l, input, c, head);
        AttemptEffect(l, input, c, head);
        RestUnfinished(l, input, c, head, rest);
        if mid.stop.Running? {
          RunTasksSpelled(mid, input, c, rest);
          LogsOneMore(l, mid, RunTasks(mid, input, c, rest), input, head, later, SavedCount(input, name, later, true));
        } else {
          StoppedStays(mid, input, c, rest);
          LogsLast(l, mid, input, head, later, Saves(input, name, head, Fits(l.world.docs, name)));
        }
      }
    }
  }

  // ---------------------------------------------------------------- the selected campaign

  /** How a pass that selects this campaign ends. */
  ghost function CampaignEnd(docs: Documents, input: PassInput, x: Campaign): Termination {
    if StemsCollide(x) then Aborted
    else if input.mode.Fixtures? then SelectedMaterialized
    else if x.tasks == map[] then
      if EntersFallback(docs, input, x) && input.agent(DiscoveryId(x, input.runId)).Finishes?
        then DiscoveryBlockedForReview
      else Aborted
    else if !input.mode.Execute? then SelectedMaterialized
    else match LoopEnd(input, DocName(x), UnfinishedOf(x), Updatable(DocumentText(docs, x)))
      case Raised => Aborted
      case StoppedBy(t, status) => StoppedAtTask(t, status)
      case Running => ExecutionComplete
  }

  /** The reasons it logs, in order. */
  ghost function CampaignReasons(docs: Documents, input: PassInput, x: Campaign): seq<Reason> {
    if StemsCollide(x) then []
    else if input.mode.Fixtures? then [FixtureComplete]
    else if x.tasks == map[] then
      var outcome := input.agent(DiscoveryId(x, input.runId));
      if !EntersFallback(docs, input, x) then []
      else if outcome.Finishes? then [DiscoveryBlocked, PassComplete]
      else if outcome.FailsAfterSave? then [DiscoveryBlocked]
      else []
    else if !input.mode.Execute? then [PassComplete]
    else
      var u, fits := UnfinishedOf(x), Updatable(DocumentText(docs, x));
      TaskReceipts(u[..SavedCount(input, DocName(x), u, fits)])
      + (if LoopEnd(input, DocName(x), u, fits).Raised? then [] else [PassComplete])
  }

  lemma FinishLogs(w: World, s: State, input: PassInput, previous: StateSha, end: Termination)
    ensures Logs(w.log, Finish(w, s, input, previous, end).world.log, RunId(input),
                 [if input.mode.Fixtures? then FixtureComplete else PassComplete])
  {
    hide StateHash, RunId;
  }

  lemma DiscoverLogs(l: Loop, input: PassInput, c: string, docs: Documents, x: Campaign)
    requires l.stop.Running? && c in l.memory.campaigns && l.memory.campaigns[c].tasks == map[]
    requires l.memory.campaigns[c] == x.(materialized := l.memory.campaigns[c].materialized)
    requires l.world.docs == Placed(docs, x)
    ensures var outcome := input.agent(DiscoveryId(x, input.runId));
            Logs(l.world.log, Discover(l, input, c).world.log, input.runId,
                 if Updatable(DocumentText(docs, x)) && (outcome.Finishes? || outcome.FailsAfterSave?)
                   then [DiscoveryBlocked]
                 else [])
  {
    hide Materialize, AddDiscovery, DiscoveryTask, StateHash, Recorded, Placed, Updatable, DocumentText, SetTask;
    OneTaskMaterializes(l.memory, c, input.runId);
    SameDocName(x, l.memory.campaigns[c]);
    PlacedTwice(docs, x, l.memory.campaigns[c]);
    PlacedRecordsIff(docs, x, DiscoveryId(x, input.runId), |l.world.commits|);
    SameRecorded(Placed(docs, x), x, l.memory.campaigns[c], DiscoveryId(x, input.runId), |l.world.commits|);
  }

  /** What the work on the campaign logs and how it ends, before the pass is finished. */
  ghost predicate WorkSpelled(l: Loop, input: PassInput, c: string, docs: Documents, x: Campaign)
    requires c in l.memory.campaigns
  {
    var worked, end, reasons := WorkOn(l, input, c), CampaignEnd(docs, input, x), CampaignReasons(docs, input, x);
    && (worked.stop.Raised? <==> end == Aborted)
    && (if worked.stop.Raised? then Logs(l.world.log, worked.world.log, RunId(input), reasons)
        else reasons != [] && reasons[|reasons| - 1] == (if input.mode.Fixtures? then FixtureComplete else PassComplete)
             && Logs(l.world.log, worked.world.log, RunId(input), reasons[..|reasons| - 1]))
    && (!worked.stop.Raised? ==>
          end == (if input.mode.Execute? && x.tasks != map[]
                  then if worked.stop.StoppedBy? then StoppedAtTask(worked.stop.task, worked.stop.status)
                    else ExecutionComplete
                  else WorkTermination(worked, input, c, x.tasks != map[])))
  }

  lemma IdleSpelled(l: Loop, input: PassInput, c: string, docs: Documents, x: Campaign)
    requires l.stop.Running? && c in l.memory.campaigns && l.memory.campaigns[c].tasks == x.tasks && !StemsCollide(x)
    requires input.mode.Fixtures? || (x.tasks != map[] && !input.mode.Execute?)
    ensures WorkSpelled(l, input, c, docs, x)
  {
    hide Discover, RunTasks, Logs, StemsCollide, LoopEnd;
    assert x.tasks != map[] ==> x.tasks.Keys != {};
    LogsNothing(l.world.log, RunId(input));
    assert [FixtureComplete][..0] == [] && [PassComplete][..0] == [];
  }

  lemma FallbackSpelled(l: Loop, input: PassInput, c: string, docs: Documents, x: Campaign)
    requires l.stop.Running? && c in l.memory.campaigns && !StemsCollide(x)
    requires l.memory.campaigns[c] == x.(materialized := l.memory.campaigns[c].materialized)
    requires l.world.docs == Placed(docs, x) && x.tasks == map[] && !input.mode.Fixtures?
    ensures WorkSpelled(l, input, c, docs, x)
  {
    hide Discover, RunTasks, Logs, StemsCollide, LoopEnd, Updatable, DocumentText, Placed;
    assert l.memory.campaigns[c].tasks.Keys == {};
    if input.allowDiscovery {
      DiscoverEnds(l, input, c, docs, x);
      DiscoverLogs(l, input, c, docs, x);
      assert [DiscoveryBlocked, PassComplete][..1] == [DiscoveryBlocked];
    } else {
      LogsNothing(l.world.log, input.runId);
      assert !EntersFallback(docs, input, x);
    }
  }

  lemma ExecutionSpelled(l: Loop, input: PassInput, c: string, docs: Documents, x: Campaign)
    requires l.stop.Running? && c in l.memory.campaigns && !StemsCollide(x)
    requires l.memory.campaigns[c] == x.(materialized := l.memory.campaigns[c].materialized)
    requires l.world.docs == Placed(docs, x) && x.tasks != map[] && input.mode.Execute?
    ensures WorkSpelled(l, input, c, docs, x)
  {
    hide RunTasks, WorkOn, Logs, StemsCollide, LoopEnd, Updatable, DocumentText, Placed, DocName, Fits, SavedCount;
    hide SortedKeys;
    hide CampaignEnd, CampaignReasons, TaskReceipts, UnfinishedOf;
    var worked := RunTasksOn(l, input, c);
    PlacedFitsIff(docs, x, l.memory.campaigns[c]);
    SameName(x, l.memory.campaigns[c]);
    RunTasksSpelled(l, input, c, SortedKeys(x.tasks.Keys));
    UnfinishedIs(x);
    ExecutionCase(docs, input, x);
    var u, fits := UnfinishedOf(x), Updatable(DocumentText(docs, x));
    OneAfter(TaskReceipts(u[..SavedCount(input, DocName(x), u, fits)]), PassComplete);
  }

  lemma UnfinishedIs(x: Campaign)
    ensures AllHeld(x.tasks, SortedKeys(x.tasks.Keys))
            && UnfinishedOf(x) == Unfinished(x.tasks, SortedKeys(x.tasks.Keys))
  {
    hide SortedKeys, Unfinished;
    var ids := SortedKeys(x.tasks.Keys);
    assert forall i :: 0 <= i < |ids| ==> ids[i] in ids;
  }

  lemma OneAfter(a: seq<Reason>, b: Reason)
    ensures (a + [b])[..|a + [b]| - 1] == a && (a + [b])[|a + [b]| - 1] == b && a + [] == a
  {
  }

  lemma ExecutionCase(docs: Documents, input: PassInput, x: Campaign)
    requires !StemsCollide(x) && x.tasks != map[] && input.mode.Execute?
    ensures var u, fits := UnfinishedOf(x), Updatable(DocumentText(docs, x));
            var end := LoopEnd(input, DocName(x), u, fits);
            && CampaignEnd(docs, input, x)
               == (if end.Raised? then Aborted else if end.StoppedBy? then StoppedAtTask(end.task, end.status)
                   else ExecutionComplete)
            && CampaignReasons(docs, input, x)
               == TaskReceipts(u[..SavedCount(input, DocName(x), u, fits)])
                 + (if end.Raised? then [] else [PassComplete])
  {
    hide StemsCollide, LoopEnd, SavedCount, TaskReceipts, Updatable, DocumentText, DocName, UnfinishedOf;
  }

  /** A pass that selects this campaign ends and logs as its input says. */
  lemma SelectedSpelled(w: World, m: State, input: PassInput, previous: StateSha, c: string)
    requires c in m.campaigns
    ensures var r := RunSelected(w, m, input, previous, c);
            && r.end == CampaignEnd(w.docs, input, m.campaigns[c])
            && Logs(w.log, r.world.log, RunId(input), CampaignReasons(w.docs, input, m.campaigns[c]))
  {
    hide Materialize, WorkOn, WorkTermination, RunSelected, Started, Finish, Logs, Completing, StemsCollide;
    hide CampaignEnd;
    hide CampaignReasons, Placed;
    var x := m.campaigns[c];
    RunSelectedShape(w, m, input, previous, c);
    MaterializesIff(x);
    if StemsCollide(x) {
      CollidingSpelled(w.docs, input, x);
      LogsNothing(w.log, RunId(input));
    } else {
      StartedShape(w, m, previous, c);
      var l := Started(w, m, previous, c);
      StartedSpelled(l, input, c, w.docs, x);
      var worked := WorkOn(l, input, c);
      if !worked.stop.Raised? {
        var end, reasons := WorkTermination(worked, input, c, x.tasks != map[]), CampaignReasons(w.docs, input, x);
        var next := Completing(worked.memory, c);
        FinishEnd(worked.world, next, input, worked.previous, end);
        FinishLogs(worked.world, next, input, worked.previous, end);
        LogsThen(w.log, worked.world.log, Finish(worked.world, next, input, worked.previous, end).world.log,
                 RunId(input), reasons[..|reasons| - 1], [reasons[|reasons| - 1]]);
        assert reasons[..|reasons| - 1] + [reasons[|reasons| - 1]] == reasons;
        if input.mode.Execute? && x.tasks != map[] {
          EndsSomehow(worked, input, c, true);
          ExecutedEnd(w, m, input, previous, c, worked);
        }
      }
    }
  }

  lemma CollidingSpelled(docs: Documents, input: PassInput, x: Campaign)
    requires StemsCollide(x)
    ensures CampaignEnd(docs, input, x) == Aborted && CampaignReasons(docs, input, x) == []
  {
  }

  lemma StartedSpelled(l: Loop, input: PassInput, c: string, docs: Documents, x: Campaign)
    requires l.stop.Running? && c in l.memory.campaigns && !StemsCollide(x)
    requires l.memory.campaigns[c] == x.(materialized := l.memory.campaigns[c].materialized)
    requires l.world.docs == Placed(docs, x)
    ensures WorkSpelled(l, input, c, docs, x)
  {
    hide WorkSpelled, StemsCollide, Placed;
    if input.mode.Fixtures? || (x.tasks != map[] && !input.mode.Execute?) {
      IdleSpelled(l, input, c, docs, x);
    } else if x.tasks == map[] {
      FallbackSpelled(l, input, c, docs, x);
    } else {
      ExecutionSpelled(l, input, c, docs, x);
    }
  }

  /** A loop that was not aborted stopped at a task or completed the campaign. */
  lemma ExecutedEnd(w: World, m: State, input: PassInput, previous: StateSha, c: string, worked: Loop)
    requires c in m.campaigns && m.campaigns[c].tasks != map[] && input.mode.Execute?
    requires RunSelected(w, m, input, previous, c).end != Aborted
    requires Materialize(m.campaigns[c]).Some? ==> worked == WorkOn(Started(w, m, previous, c), input, c)
    ensures RunSelected(w, m, input, previous, c).end
            == if worked.stop.StoppedBy? then StoppedAtTask(worked.stop.task, worked.stop.status) else ExecutionComplete
  {
    hide Materialize, WorkOn, RunSelected, Started, CleanFrontier, Completing, AllSucceeded;
    RunSelectedIsFinish(w, m, input, previous, c, worked);
    var k, other := RunSelectedFrontier(w, m, input, previous, c);
  }

  // ---------------------------------------------------------------- every pass

  /** How a pass ends, from its world and input. */
  ghost function PassEnd(w: World, input: PassInput): Termination
    requires WellFormed(w.disk)
  {
    var m := MergeProposal(w.disk, input.proposal, AuditId(input));
    if input.stagesFail || m.error.Some? then Aborted
    else match PassSelection(w, input)
      case None =>
        if m.state.campaigns.Keys == w.disk.campaigns.Keys && Held(m.state) == Held(w.disk) then NoCampaignsProduced
        else NoEligibleCampaigns
      case Some(selected) => CampaignEnd(w.docs, input, selected.0.campaigns[selected.1])
  }

  ghost function PassReasons(w: World, input: PassInput): seq<Reason>
    requires WellFormed(w.disk)
  {
    if input.stagesFail || MergeProposal(w.disk, input.proposal, AuditId(input)).error.Some? then []
    else match PassSelection(w, input)
      case None => [if input.mode.Fixtures? then FixtureComplete else PassComplete]
      case Some(selected) => CampaignReasons(w.docs, input, selected.0.campaigns[selected.1])
  }

  lemma NothingMergedIff(s: State, p: Proposal, audit: string)
    requires MergeProposal(s, p, audit).error.None?
    ensures var m := MergeProposal(s, p, audit);
            m.campaigns == 0 && m.tasks == 0 <==> m.state.campaigns.Keys == s.campaigns.Keys && Held(m.state) == Held(s)
  {
    hide MergeProposal, Held;
    MergeExtends(s, p, audit);
    MergeCountsExact(s, p, audit);
    var m := MergeProposal(s, p, audit).state;
    HeldGrow(s, m);
    SubsetSize(s.campaigns.Keys, m.campaigns.Keys);
    SubsetSize(Held(s), Held(m));
    assert |s.campaigns.Keys| == |s.campaigns| && |m.campaigns.Keys| == |m.campaigns|;
  }

  lemma HeldGrow(s: State, m: State)
    requires Extends(s, m)
    ensures Held(s) <= Held(m) && s.campaigns.Keys <= m.campaigns.Keys
  {
    forall c, t | (c, t) in Held(s)
      ensures (c, t) in Held(m)
    {
      assert KeepsCampaign(s.campaigns[c], m.campaigns[c]);
    }
  }

  /** Every pass ends, and logs, exactly as its world and input say. */
  lemma PassSpelled(w: World, input: PassInput)
    requires WellFormed(w.disk)
    ensures RunPass(w, input).end == PassEnd(w, input)
    ensures Logs(w.log, RunPass(w, input).world.log, RunId(input), PassReasons(w, input))
  {
    hide MergeProposal, Select, RunSelected, WellFormed, StateHash, Eligible, CampaignEnd, CampaignReasons, Held;
    hide Logs, Finish;
    var merged := MergeProposal(w.disk, input.proposal, AuditId(input));
    if input.stagesFail || merged.error.Some? {
      LogsNothing(w.log, RunId(input));
    } else {
      MergeWellFormed(w.disk, input.proposal, AuditId(input));
      SelectedEligible(merged.state);
      NothingMergedIff(w.disk, input.proposal, AuditId(input));
      match Select(merged.state)
      case None =>
        var end := if merged.campaigns == 0 && merged.tasks == 0 then NoCampaignsProduced else NoEligibleCampaigns;
        FinishEnd(w, merged.state, input, StateHash(w.disk), end);
        FinishLogs(w, merged.state, input, StateHash(w.disk), end);
      case Some(c) =>
        EligibleHeld(merged.state, c);
        SelectedSpelled(w, merged.state, input, StateHash(w.disk), c);
    }
  }

  // ---------------------------------------------------------------- what is committed

  /** What the attempts commit: an implementation unless the agent fails first, and a receipt once it is saved. */
  ghost function LoopCommits(input: PassInput, name: string, c: string, u: seq<string>, fits: bool): seq<Commit> {
    if u == [] || input.agent(u[0]).FailsBeforeCommit? || input.agent(u[0]).result.status == Pending then []
    else if !Saves(input, name, u[0], fits) || !input.agent(u[0]).Finishes? then [Implementation(c, u[0])]
    else
      [Implementation(c, u[0]), Receipt(c, u[0])]
      + (if Succeeds(input, name, u[0], fits) then LoopCommits(input, name, c, u[1..], true) else [])
  }

  lemma RunTaskCommits(l: Loop, input: PassInput, c: string, t: string)
    requires l.stop.Running? && HoldsTask(l.memory, c, t)
    ensures var r, name, outcome := RunTask(l, input, c, t), DocName(l.memory.campaigns[c]), input.agent(t);
            r.world.commits == l.world.commits
              + (if outcome.FailsBeforeCommit? || outcome.result.status == Pending then []
                 else if Saves(input, name, t, Fits(l.world.docs, name)) && outcome.Finishes?
                 then [Implementation(c, t), Receipt(c, t)] else [Implementation(c, t)])
  {
    hide StateHash, Recorded, Updatable, Fits, SetTask;
    RecordedIff(l.world.docs + input.agent(t).edits, l.memory.campaigns[c], t, |l.world.commits|);
    EditedFits(input, l.world.docs, DocName(l.memory.campaigns[c]), t);
  }

  lemma {:induction false} RunTasksCommits(l: Loop, input: PassInput, c: string, ids: seq<string>)
    requires l.stop.Running? && c in l.memory.campaigns && AllHeld(l.memory.campaigns[c].tasks, ids)
             && NoDuplicates(ids)
    requires forall i :: 0 <= i < |ids| ==> HoldsTask(l.memory, c, ids[i])
    ensures var r, x := RunTasks(l, input, c, ids), l.memory.campaigns[c];
            r.world.commits
            == l.world.commits + LoopCommits(input, DocName(x), c, Unfinished(x.tasks, ids),
                                             Fits(l.world.docs, DocName(x)))
    decreases |ids|
  {
    hide RunTask, Records, DocName, Fits;
    if ids == [] {
      assert l.world.commits + [] == l.world.commits;
    } else {
      var head, rest, tasks := ids[0], ids[1..], l.memory.campaigns[c].tasks;
      assert HoldsTask(l.memory, c, head);
      assert forall i :: 0 <= i < |rest| ==> rest[i] == ids[i + 1] && HoldsTask(l.memory, c, ids[i + 1]);
      if tasks[head].status == Success {
        RunTasksCommits(l, input, c, rest);
        assert [] + Unfinished(tasks, rest) == Unfinished(tasks, rest);
      } else {
        var mid, later := RunTask(l, input, c, head), Unfinished(tasks, rest);
        assert ([head] + later)[1..] == later;
        RunTaskCommits(l, input, c, head);
        AttemptEffect(l, input, c, head);
        RestUnfinished(l, input, c, head, rest);
        if mid.stop.Running? {
          RunTasksCommits(mid, input, c, rest);
        } else {
          StoppedStays(mid, input, c, rest);
        }
      }
    }
  }

  /** What a pass that selects this campaign commits, before the run receipt. */
  ghost function CampaignCommits(docs: Documents, input: PassInput, c: string, x: Campaign): seq<Commit> {
    if StemsCollide(x) || input.mode.Fixtures? then []
    else if x.tasks == map[] then
      var id := DiscoveryId(x, input.runId);
      if !input.allowDiscovery || input.agent(id).FailsBeforeCommit? then []
      else if EntersFallback(docs, input, x) && input.agent(id).Finishes? then [Implementation(c, id), Receipt(c, id)]
      else [Implementation(c, id)]
    else if !input.mode.Execute? then []
    else LoopCommits(input, DocName(x), c, UnfinishedOf(x), Updatable(DocumentText(docs, x)))
  }

  lemma DiscoverCommits(l: Loop, input: PassInput, c: string, docs: Documents, x: Campaign)
    requires l.stop.Running? && c in l.memory.campaigns && l.memory.campaigns[c].tasks == map[]
    requires l.memory.campaigns[c] == x.(materialized := l.memory.campaigns[c].materialized)
    requires l.world.docs == Placed(docs, x)
    ensures var id := DiscoveryId(x, input.runId);
            var outcome := input.agent(id);
            Discover(l, input, c).world.commits == l.world.commits
              + (if outcome.FailsBeforeCommit? then []
                 else if Updatable(DocumentText(docs, x)) && outcome.Finishes?
                   then [Implementation(c, id), Receipt(c, id)]
                 else [Implementation(c, id)])
  {
    hide Materialize, AddDiscovery, DiscoveryTask, StateHash, Recorded, Placed, Updatable, DocumentText, SetTask;
    OneTaskMaterializes(l.memory, c, input.runId);
    SameDocName(x, l.memory.campaigns[c]);
    PlacedTwice(docs, x, l.memory.campaigns[c]);
    PlacedRecordsIff(docs, x, DiscoveryId(x, input.runId), |l.world.commits|);
    SameRecorded(Placed(docs, x), x, l.memory.campaigns[c], DiscoveryId(x, input.runId), |l.world.commits|);
  }

  lemma WorkCommits(l: Loop, input: PassInput, c: string, docs: Documents, x: Campaign)
    requires l.stop.Running? && c in l.memory.campaigns && !StemsCollide(x)
    requires l.memory.campaigns[c] == x.(materialized := l.memory.campaigns[c].materialized)
    requires l.world.docs == Placed(docs, x)
    ensures WorkOn(l, input, c).world.commits == l.world.commits + CampaignCommits(docs, input, c, x)
  {
    hide RunTasks, Discover, StemsCollide, Placed, LoopCommits, Updatable, DocumentText, DocName, Fits, SortedKeys;
    hide UnfinishedOf;
    assert x.tasks == map[] <==> x.tasks.Keys == {};
    assert l.world.commits + [] == l.world.commits;
    if x.tasks == map[] {
      DiscoverCommits(l, input, c, docs, x);
      NoKeys(x);
    } else if input.mode.Execute? {
      var worked := RunTasksOn(l, input, c);
      PlacedFitsIff(docs, x, l.memory.campaigns[c]);
      SameName(x, l.memory.campaigns[c]);
      UnfinishedIs(x);
      RunTasksCommits(l, input, c, SortedKeys(x.tasks.Keys));
    } else {
      SomeKeys(x);
    }
  }

  lemma NoKeys(x: Campaign)
    requires x.tasks.Keys == {}
    ensures SortedKeys(x.tasks.Keys) == []
  {
  }

  lemma SomeKeys(x: Campaign)
    requires x.tasks.Keys != {}
    ensures SortedKeys(x.tasks.Keys) != []
  {
  }

  /** What a pass commits, from its world and input. */
  ghost function PassCommits(w: World, input: PassInput): seq<Commit>
    requires WellFormed(w.disk)
  {
    (match PassSelection(w, input)
     case None => []
     case Some(selected) => CampaignCommits(w.docs, input, selected.1, selected.0.campaigns[selected.1]))
    + (if PassEnd(w, input) != Aborted && input.commitsAtEnd && !input.mode.Fixtures? then [RunReceipt(input.runId)]
       else [])
  }

  lemma FinishCommits(w: World, s: State, input: PassInput, previous: StateSha, end: Termination)
    ensures Finish(w, s, input, previous, end).world.commits
            == w.commits + (if input.commitsAtEnd && !input.mode.Fixtures? then [RunReceipt(input.runId)] else [])
  {
    hide StateHash;
  }

  lemma SelectedCommits(w: World, m: State, input: PassInput, previous: StateSha, c: string)
    requires c in m.campaigns
    ensures var r := RunSelected(w, m, input, previous, c);
            r.world.commits == w.commits + CampaignCommits(w.docs, input, c, m.campaigns[c])
              + (if r.end != Aborted && input.commitsAtEnd && !input.mode.Fixtures? then [RunReceipt(input.runId)]
                 else [])
  {
    hide Materialize, WorkOn, WorkTermination, RunSelected, Started, Finish, Completing, StemsCollide, Placed;
    hide CampaignCommits;
    var x := m.campaigns[c];
    RunSelectedShape(w, m, input, previous, c);
    MaterializesIff(x);
    if StemsCollide(x) {
      assert CampaignCommits(w.docs, input, c, x) == [] by { CollidingCommitsNothing(w.docs, input, c, x); }
    } else {
      StartedShape(w, m, previous, c);
      var l := Started(w, m, previous, c);
      WorkCommits(l, input, c, w.docs, x);
      var worked := WorkOn(l, input, c);
      if !worked.stop.Raised? {
        var end, next := WorkTermination(worked, input, c, x.tasks != map[]), Completing(worked.memory, c);
        FinishEnd(worked.world, next, input, worked.previous, end);
        FinishCommits(worked.world, next, input, worked.previous, end);
        EndsSomehow(worked, input, c, x.tasks != map[]);
      }
    }
  }

  lemma CollidingCommitsNothing(docs: Documents, input: PassInput, c: string, x: Campaign)
    requires StemsCollide(x)
    ensures CampaignCommits(docs, input, c, x) == []
  {
  }

  lemma EndsSomehow(l: Loop, input: PassInput, c: string, hadTasks: bool)
    requires c in l.memory.campaigns && !l.stop.Raised?
    ensures WorkTermination(l, input, c, hadTasks) != Aborted
  {
    hide AllSucceeded;
  }

  /** Every pass commits exactly what its world and input say, in order. */
  lemma PassCommitsSpelled(w: World, input: PassInput)
    requires WellFormed(w.disk)
    ensures RunPass(w, input).world.commits == w.commits + PassCommits(w, input)
  {
    hide MergeProposal, Select, RunSelected, WellFormed, StateHash, Eligible, CampaignCommits, PassEnd, Finish;
    PassSpelled(w, input);
    var merged := MergeProposal(w.disk, input.proposal, AuditId(input));
    if !input.stagesFail && merged.error.None? {
      MergeWellFormed(w.disk, input.proposal, AuditId(input));
      SelectedEligible(merged.state);
      match Select(merged.state)
      case None =>
        var end := if merged.campaigns == 0 && merged.tasks == 0 then NoCampaignsProduced else NoEligibleCampaigns;
        FinishEnd(w, merged.state, input, StateHash(w.disk), end);
        FinishCommits(w, merged.state, input, StateHash(w.disk), end);
      case Some(c) =>
        EligibleHeld(merged.state, c);
        SelectedCommits(w, merged.state, input, StateHash(w.disk), c);
    }
  }

  // ---------------------------------------------------------------- what is materialised

  /** The campaign's document and the file of each task are recorded under their names. */
  ghost predicate Names(x: Campaign) {
    && x.materialized.docPath == Some(DocName(x))
    && forall t :: t in x.tasks ==>
         t in x.materialized.taskStems && x.materialized.taskStems[t] == Stem(x, x.tasks[t].content.slug)
  }

  lemma MaterializedNames(x: Campaign)
    requires Materialize(x).Some?
    ensures Names(Materialize(x).value)
  {
    hide StemsCollide, Stem, DocName;
    SameNames(x, Materialize(x).value);
  }

  lemma SameNames(x: Campaign, y: Campaign)
    requires x.slug == y.slug && x.date == y.date && x.seqNo == y.seqNo
    ensures DocName(x) == DocName(y) && forall slug :: Stem(x, slug) == Stem(y, slug)
  {
    hide LowerSnake, DashesToUnderscores;
    SameName(x, y);
  }

  lemma SetKeepsNames(s: State, c: string, t: string, task: Task)
    requires HoldsTask(s, c, t) && Names(s.campaigns[c]) && task.content == s.campaigns[c].tasks[t].content
    ensures c in SetTask(s, c, t, task).campaigns && Names(SetTask(s, c, t, task).campaigns[c])
  {
    hide Stem, DocName;
    SameNames(s.campaigns[c], SetTask(s, c, t, task).campaigns[c]);
  }

  lemma RunTaskNames(l: Loop, input: PassInput, c: string, t: string)
    requires HoldsTask(l.memory, c, t) && Names(l.memory.campaigns[c])
    ensures var r := RunTask(l, input, c, t);
            && c in r.memory.campaigns && Names(r.memory.campaigns[c])
            && (r.world.disk == l.world.disk || (c in r.world.disk.campaigns && Names(r.world.disk.campaigns[c])))
  {
    hide StateHash, Recorded, SetTask, Names;
    var outcome := input.agent(t);
    if !outcome.FailsBeforeCommit? && outcome.result.status != Pending {
      var p := |l.world.commits|;
      var done := Reported(l.memory.campaigns[c].tasks[t], outcome.result, p);
      SetKeepsNames(l.memory, c, t, done);
      SetTaskHolds(l.memory, c, t, done);
      SetKeepsNames(SetTask(l.memory, c, t, done), c, t, done.(receiptCommit := Some(p + 1)));
    }
  }

  lemma {:induction false} RunTasksNames(l: Loop, input: PassInput, c: string, ids: seq<string>, disk: State)
    requires c in l.memory.campaigns && forall i :: 0 <= i < |ids| ==> HoldsTask(l.memory, c, ids[i])
    requires Names(l.memory.campaigns[c])
    requires l.world.disk == disk || (c in l.world.disk.campaigns && Names(l.world.disk.campaigns[c]))
    ensures var r := RunTasks(l, input, c, ids);
            && Names(r.memory.campaigns[c])
            && (r.world.disk == disk || (c in r.world.disk.campaigns && Names(r.world.disk.campaigns[c])))
    decreases |ids|
  {
    hide RunTask, Names;
    if ids != [] && l.stop.Running? {
      var rest := ids[1..];
      assert HoldsTask(l.memory, c, ids[0]);
      assert forall i :: 0 <= i < |rest| ==> rest[i] == ids[i + 1] && HoldsTask(l.memory, c, ids[i + 1]);
      if l.memory.campaigns[c].tasks[ids[0]].status == Success {
        RunTasksNames(l, input, c, rest, disk);
      } else {
        RunTaskNames(l, input, c, ids[0]);
        RunTasksNames(RunTask(l, input, c, ids[0]), input, c, rest, disk);
      }
    }
  }

  lemma DiscoverNames(l: Loop, input: PassInput, c: string)
    requires c in l.memory.campaigns && l.memory.campaigns[c].tasks == map[]
    ensures var r := Discover(l, input, c);
            && (!r.stop.Raised? && !l.stop.Raised? ==> Names(r.memory.campaigns[c]))
            && (r.world.disk == l.world.disk || (c in r.world.disk.campaigns && Names(r.world.disk.campaigns[c])))
  {
    hide StateHash, Recorded, SetTask, Names, Placed, Materialize, AddDiscovery, DiscoveryTask;
    var x, added := l.memory.campaigns[c], AddDiscovery(l.memory, c, input.runId);
    DiscoveryAdded(l.memory, c, input.runId);
    if Materialize(added.campaigns[c]).Some? {
      var id, y, p := DiscoveryId(x, input.runId), Materialize(added.campaigns[c]).value, |l.world.commits|;
      MaterializedTasks(added.campaigns[c]);
      MaterializedNames(added.campaigns[c]);
      var stored := added.(campaigns := added.campaigns[c := y]);
      var blocked := DiscoveryTask(x, input.runId).(status := Blocked, implementationCommit := Some(p));
      SetKeepsNames(stored, c, id, blocked);
      SetTaskHolds(stored, c, id, blocked);
      SetKeepsNames(SetTask(stored, c, id, blocked), c, id, blocked.(receiptCommit := Some(p + 1)));
    }
  }

  lemma CompletingNames(s: State, c: string)
    requires c in s.campaigns && Names(s.campaigns[c])
    ensures Names(Completing(s, c).campaigns[c])
  {
    hide Stem, DocName, AllSucceeded;
    SameNames(s.campaigns[c], Completing(s, c).campaigns[c]);
  }

  lemma WorkNames(l: Loop, input: PassInput, c: string)
    requires l.stop.Running? && c in l.memory.campaigns && Names(l.memory.campaigns[c])
    ensures var worked := WorkOn(l, input, c);
            && (!worked.stop.Raised? ==> Names(worked.memory.campaigns[c]))
            && (worked.world.disk == l.world.disk
                || (c in worked.world.disk.campaigns && Names(worked.world.disk.campaigns[c])))
  {
    hide RunTasks, Discover, Names, Sorted;
    SortedHeld(l.memory, c);
    if l.memory.campaigns[c].tasks.Keys == {} {
      DiscoverNames(l, input, c);
    }
    RunTasksNames(l, input, c, SortedKeys(l.memory.campaigns[c].tasks.Keys), l.world.disk);
  }

  /** A pass that selects a campaign and saves leaves the names of its document and task files on record. */
  lemma PassNames(w: World, input: PassInput, m: State, c: string)
    requires WellFormed(w.disk) && PassSelection(w, input) == Some((m, c)) && c in m.campaigns
    ensures var disk := RunPass(w, input).world.disk;
            disk == w.disk || (c in disk.campaigns && Names(disk.campaigns[c]))
  {
    hide MergeProposal, Select, RunSelected, WellFormed, StateHash, Eligible, Names, Materialize, WorkOn;
    hide WorkTermination;
    hide Started, Finish, Completing;
    RunSelectedShape(w, m, input, StateHash(w.disk), c);
    if Materialize(m.campaigns[c]).Some? {
      StartedShape(w, m, StateHash(w.disk), c);
      var l := Started(w, m, StateHash(w.disk), c);
      MaterializedNames(m.campaigns[c]);
      WorkNames(l, input, c);
      var worked := WorkOn(l, input, c);
      if !worked.stop.Raised? {
        var end := WorkTermination(worked, input, c, m.campaigns[c].tasks != map[]);
        CompletingNames(worked.memory, c);
        CompletingEffect(worked.memory, c);
        FinishEnd(worked.world, Completing(worked.memory, c), input, worked.previous, end);
      }
    }
  }

  /** The run is named by its audit, which in fixture mode is the given one: without "AUDIT_", if it starts so. */
  lemma AuditNamesRun(input: PassInput)
    ensures AuditId(input) == if input.mode.Fixtures? then input.mode.auditId else "AUDIT_" + input.runId
    ensures "AUDIT_" <= AuditId(input) ==> AuditId(input) == "AUDIT_" + RunId(input)
    ensures !("AUDIT_" <= AuditId(input)) ==> AuditId(input) == RunId(input)
  {
  }
}
