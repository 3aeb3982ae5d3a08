/** What an execute pass does to the tasks of its campaign. */
module Frontier {
  import opened Wrappers
  import opened Collections
  import opened Text
  import opened Campaigns
  import opened Merge
  import opened Selection
  import opened Runner
  import opened RunSafety

  /** The ids, in order, whose tasks had not succeeded yet. */
  function Unfinished(tasks: map<string, Task>, ids: seq<string>): seq<string>
    requires forall i :: 0 <= i < |ids| ==> ids[i] in tasks
  {
    if ids == [] then []
    else (if tasks[ids[0]].status == Success then [] else [ids[0]]) + Unfinished(tasks, ids[1..])
  }

  /** One implementation commit followed at once by one receipt commit for each task. */
  function CommitPairs(c: string, ids: seq<string>): seq<Commit> {
    if ids == [] then [] else [Implementation(c, ids[0]), Receipt(c, ids[0])] + CommitPairs(c, ids[1..])
  }

  /** The record names two adjacent commits, the task's own implementation and its receipt. */
  predicate CommitsRecorded(task: Task, commits: seq<Commit>, c: string, t: string) {
    && task.implementationCommit.Some? && task.result.Some? && task.result.value.status == task.status
    && var p := task.implementationCommit.value;
       && p + 1 < |commits| && commits[p] == Implementation(c, t) && commits[p + 1] == Receipt(c, t)
       && task.receiptCommit == Some(p + 1)
  }

  /** Ids up to and including the one the loop stopped at. */
  function UpTo(ids: seq<string>, k: nat): seq<string> { if k < |ids| then ids[..k + 1] else ids }

  predicate AllHeld(tasks: map<string, Task>, ids: seq<string>) {
    forall i :: 0 <= i < |ids| ==> ids[i] in tasks
  }

  ghost predicate SameIds(before: map<string, Task>, r: Loop, c: string, ids: seq<string>, k: nat) {
    && k <= |ids| && AllHeld(before, ids) && AllHeld(before, UpTo(ids, k))
    && c in r.memory.campaigns && r.memory.campaigns[c].tasks.Keys == before.Keys
  }

  /** Every task before `k` has succeeded and the loop stopped at `k`, or ran to the end. */
  ghost predicate StopsAt(before: map<string, Task>, r: Loop, c: string, ids: seq<string>, k: nat)
    requires SameIds(before, r, c, ids, k)
  {
    var after := r.memory.campaigns[c].tasks;
    && (forall i :: 0 <= i < k ==> after[ids[i]].status == Success)
    && (if k == |ids| then r.stop.Running?
        else r.stop == StoppedBy(ids[k], after[ids[k]].status) && after[ids[k]].status in {Failed, Blocked})
  }

  /** Tasks the loop did not reach, and tasks that had already succeeded, keep their records. */
  ghost predicate UntouchedElsewhere(before: map<string, Task>, r: Loop, c: string, ids: seq<string>, k: nat)
    requires SameIds(before, r, c, ids, k)
  {
    forall t :: t in before && (t !in UpTo(ids, k) || before[t].status == Success) ==>
      r.memory.campaigns[c].tasks[t] == before[t]
  }

  /** The commits gained are one pair per task run. */
  ghost predicate PairsCommitted(before: map<string, Task>, commits: seq<Commit>, r: Loop, c: string, ids: seq<string>,
                                 k: nat)
    requires SameIds(before, r, c, ids, k)
  {
    r.world.commits == commits + CommitPairs(c, Unfinished(before, UpTo(ids, k)))
  }

  /** Each task run names its own pair of commits. */
  ghost predicate PairsRecorded(before: map<string, Task>, r: Loop, c: string, ids: seq<string>, k: nat)
    requires SameIds(before, r, c, ids, k)
  {
    forall t :: t in before && t in UpTo(ids, k) && before[t].status != Success ==>
      CommitsRecorded(r.memory.campaigns[c].tasks[t], r.world.commits, c, t)
  }

  /** The clean frontier an execution that was not aborted leaves in id order. */
  ghost predicate CleanFrontier(before: map<string, Task>, commits: seq<Commit>, r: Loop, c: string, ids: seq<string>,
                                k: nat) {
    && SameIds(before, r, c, ids, k)
    && StopsAt(before, r, c, ids, k)
    && UntouchedElsewhere(before, r, c, ids, k)
    && PairsCommitted(before, commits, r, c, ids, k)
    && PairsRecorded(before, r, c, ids, k)
  }

  lemma RunTaskEffect(l: Loop, input: PassInput, c: string, t: string)
    requires HoldsTask(l.memory, c, t) && l.stop.Running? && !RunTask(l, input, c, t).stop.Raised?
    ensures var r := RunTask(l, input, c, t);
            var before := l.memory.campaigns[c].tasks;
            && c in r.memory.campaigns && t in r.memory.campaigns[c].tasks
            && r.memory.campaigns[c].tasks == before[t := r.memory.campaigns[c].tasks[t]]
            && r.world.commits == l.world.commits + [Implementation(c, t), Receipt(c, t)]
            && CommitsRecorded(r.memory.campaigns[c].tasks[t], r.world.commits, c, t)
            && var status := r.memory.campaigns[c].tasks[t].status;
               && status != Pending
               && r.stop == if status == Success then Running else StoppedBy(t, status)
  {
    hide StateHash, Recorded, Placed;
  }

  lemma CommitsStayRecorded(task: Task, commits: seq<Commit>, more: seq<Commit>, c: string, t: string)
    requires CommitsRecorded(task, commits, c, t) && commits <= more
    ensures CommitsRecorded(task, more, c, t)
  {
  }

  lemma {:induction false} UnfinishedSame(x: map<string, Task>, y: map<string, Task>, ids: seq<string>)
    requires AllHeld(x, ids) && AllHeld(y, ids)
    requires forall i :: 0 <= i < |ids| ==> x[ids[i]] == y[ids[i]]
    ensures Unfinished(x, ids) == Unfinished(y, ids)
  {
    if ids != [] {
      assert forall i :: 0 <= i < |ids[1..]| ==> ids[1..][i] == ids[i + 1];
      UnfinishedSame(x, y, ids[1..]);
    }
  }

  lemma {:induction false} RunTasksFrontier(l: Loop, input: PassInput, c: string, ids: seq<string>) returns (k: nat)
    requires l.stop.Running? && c in l.memory.campaigns
    requires AllHeld(l.memory.campaigns[c].tasks, ids) && NoDuplicates(ids)
    requires forall i :: 0 <= i < |ids| ==> HoldsTask(l.memory, c, ids[i])
    requires !RunTasks(l, input, c, ids).stop.Raised?
    ensures CleanFrontier(l.memory.campaigns[c].tasks, l.world.commits, RunTasks(l, input, c, ids), c, ids, k)
    decreases |ids|
  {
    hide RunTask, CommitsRecorded;
    var before := l.memory.campaigns[c].tasks;
    if ids == [] {
      k := 0;
      assert l.world.commits == l.world.commits + [];
    } else {
      var head, rest := ids[0], ids[1..];
      assert head in before;
      assert forall i :: 0 <= i < |rest| ==> rest[i] == ids[i + 1];
      if before[head].status == Success {
        k := RunTasksFrontier(l, input, c, rest);
        k := k + 1;
        FrontierSkips(before, l.world.commits, RunTasks(l, input, c, rest), c, ids, k);
      } else {
        var mid := RunTask(l, input, c, head);
        if mid.stop.Raised? {
          StoppedStays(mid, input, c, rest);
        } else {
          RunTaskEffect(l, input, c, head);
          if mid.stop.StoppedBy? {
            StoppedStays(mid, input, c, rest);
            k := 0;
            FrontierStops(before, l.world.commits, mid, c, ids);
          } else {
            k := RunTasksFrontier(mid, input, c, rest);
            k := k + 1;
            FrontierRuns(before, l.world.commits, mid, RunTasks(mid, input, c, rest), c, ids, k);
          }
        }
      }
    }
  }

  lemma StoppedStays(l: Loop, input: PassInput, c: string, ids: seq<string>)
    requires !l.stop.Running?
    requires c in l.memory.campaigns && forall i :: 0 <= i < |ids| ==> HoldsTask(l.memory, c, ids[i])
    ensures RunTasks(l, input, c, ids) == l
  {
  }

  lemma UpToStep(ids: seq<string>, k: nat)
    requires ids != [] && 0 < k <= |ids|
    ensures UpTo(ids, k) == [ids[0]] + UpTo(ids[1..], k - 1)
    ensures UpTo(ids, k)[1..] == UpTo(ids[1..], k - 1)
  {
  }

  lemma FrontierSkips(before: map<string, Task>, commits: seq<Commit>, r: Loop, c: string, ids: seq<string>, k: nat)
    requires ids != [] && AllHeld(before, ids) && NoDuplicates(ids) && 0 < k
    requires before[ids[0]].status == Success
    requires CleanFrontier(before, commits, r, c, ids[1..], k - 1)
    ensures CleanFrontier(before, commits, r, c, ids, k)
  {
    hide CommitsRecorded;
    var rest := ids[1..];
    assert forall i :: 0 <= i < |rest| ==> rest[i] == ids[i + 1];
    UpToStep(ids, k);
    SkipFirst(before, ids[0], UpTo(rest, k - 1));
    hide UpTo, Unfinished;
    assert SameIds(before, r, c, ids, k);
    forall i | 0 <= i < k
      ensures r.memory.campaigns[c].tasks[ids[i]].status == Success
    {
      if i > 0 {
        assert ids[i] == rest[i - 1];
      }
    }
  }

  lemma SkipFirst(before: map<string, Task>, head: string, tail: seq<string>)
    requires head in before && before[head].status == Success && AllHeld(before, tail)
    ensures AllHeld(before, [head] + tail)
    ensures Unfinished(before, [head] + tail) == Unfinished(before, tail)
  {
    assert ([head] + tail)[1..] == tail;
  }

  /** The first task was run and left the rest of the campaign alone. */
  ghost predicate RanFirst(before: map<string, Task>, commits: seq<Commit>, mid: Loop, c: string, ids: seq<string>) {
    && ids != [] && AllHeld(before, ids) && NoDuplicates(ids)
    && ids[0] in before && before[ids[0]].status != Success
    && c in mid.memory.campaigns && ids[0] in mid.memory.campaigns[c].tasks
    && mid.memory.campaigns[c].tasks == before[ids[0] := mid.memory.campaigns[c].tasks[ids[0]]]
    && mid.world.commits == commits + [Implementation(c, ids[0]), Receipt(c, ids[0])]
    && CommitsRecorded(mid.memory.campaigns[c].tasks[ids[0]], mid.world.commits, c, ids[0])
  }

  lemma FrontierStops(before: map<string, Task>, commits: seq<Commit>, r: Loop, c: string, ids: seq<string>)
    requires RanFirst(before, commits, r, c, ids)
    requires var status := r.memory.campaigns[c].tasks[ids[0]].status;
             status != Pending && status != Success && r.stop == StoppedBy(ids[0], status)
    ensures CleanFrontier(before, commits, r, c, ids, 0)
  {
    hide CommitsRecorded;
    var head := ids[0];
    assert UpTo(ids, 0) == [head];
    assert [head][1..] == [];
    assert Unfinished(before, [head]) == [head];
    assert CommitPairs(c, [head]) == [Implementation(c, head), Receipt(c, head)];
    assert r.memory.campaigns[c].tasks.Keys == before.Keys;
  }

  /** What the rest of the loop starts from, and where the ids of the whole loop sit in it. */
  lemma RanFirstRest(before: map<string, Task>, commits: seq<Commit>, mid: Loop, r: Loop, c: string, ids: seq<string>,
                     k: nat)
    requires RanFirst(before, commits, mid, c, ids) && 0 < k
    requires SameIds(mid.memory.campaigns[c].tasks, r, c, ids[1..], k - 1)
    ensures SameIds(before, r, c, ids, k)
    ensures UpTo(ids, k) == [ids[0]] + UpTo(ids[1..], k - 1)
    ensures forall t :: t in UpTo(ids[1..], k - 1) ==> t != ids[0] && t in before
    ensures forall i :: 0 < i < |ids| ==> ids[i] == ids[1..][i - 1] && ids[i] != ids[0] && ids[i] in before
  {
    hide CommitsRecorded;
    UpToStep(ids, k);
    assert r.memory.campaigns[c].tasks.Keys == before.Keys;
    var tail := UpTo(ids[1..], k - 1);
    forall t | t in tail
      ensures t != ids[0] && t in before
    {
      var i :| 0 <= i < |tail| && tail[i] == t;
      assert tail[i] == ids[i + 1];
    }
  }

  lemma FrontierRunsStop(before: map<string, Task>, commits: seq<Commit>, mid: Loop, r: Loop, c: string,
                         ids: seq<string>, k: nat)
    requires RanFirst(before, commits, mid, c, ids) && 0 < k
    requires mid.memory.campaigns[c].tasks[ids[0]].status == Success
    requires CleanFrontier(mid.memory.campaigns[c].tasks, mid.world.commits, r, c, ids[1..], k - 1)
    ensures SameIds(before, r, c, ids, k) && StopsAt(before, r, c, ids, k) && UntouchedElsewhere(before, r, c, ids, k)
  {
    hide CommitsRecorded, PairsCommitted, PairsRecorded;
    RanFirstRest(before, commits, mid, r, c, ids, k);
    var middle, after := mid.memory.campaigns[c].tasks, r.memory.campaigns[c].tasks;
    assert ids[0] !in UpTo(ids[1..], k - 1);
    assert after[ids[0]] == middle[ids[0]];
    forall i | 0 <= i < k
      ensures after[ids[i]].status == Success
    {
      if i > 0 {
        assert ids[i] == ids[1..][i - 1];
      }
    }
    forall t | t in before && (t !in UpTo(ids, k) || before[t].status == Success)
      ensures after[t] == before[t]
    {
      assert t != ids[0] && middle[t] == before[t];
      assert t !in UpTo(ids[1..], k - 1) || middle[t].status == Success;
    }
  }

  lemma FrontierRunsCommits(before: map<string, Task>, commits: seq<Commit>, mid: Loop, r: Loop, c: string,
                            ids: seq<string>, k: nat)
    requires RanFirst(before, commits, mid, c, ids) && 0 < k
    requires SameIds(before, r, c, ids, k)
    requires mid.memory.campaigns[c].tasks[ids[0]].status == Success
    requires CleanFrontier(mid.memory.campaigns[c].tasks, mid.world.commits, r, c, ids[1..], k - 1)
    ensures PairsCommitted(before, commits, r, c, ids, k)
  {
    hide CommitsRecorded, StopsAt, UntouchedElsewhere, PairsRecorded, Unfinished, CommitPairs, UpTo, NoDuplicates;
    RanFirstRest(before, commits, mid, r, c, ids, k);
    var head, tail := ids[0], UpTo(ids[1..], k - 1);
    var middle := mid.memory.campaigns[c].tasks;
    UnfinishedSame(before, middle, tail);
    PairsOfFirst(before, c, head, tail);
    assert r.world.commits ==
        commits + [Implementation(c, head), Receipt(c, head)] + CommitPairs(c, Unfinished(before, tail));
  }

  lemma PairsOfFirst(before: map<string, Task>, c: string, head: string, tail: seq<string>)
    requires head in before && before[head].status != Success && AllHeld(before, tail) && AllHeld(before, [head] + tail)
    ensures CommitPairs(c, Unfinished(before, [head] + tail))
            == [Implementation(c, head), Receipt(c, head)] + CommitPairs(c, Unfinished(before, tail))
  {
    assert ([head] + tail)[1..] == tail;
    assert ([head] + Unfinished(before, tail))[1..] == Unfinished(before, tail);
  }

  lemma FrontierRunsRecord(before: map<string, Task>, commits: seq<Commit>, mid: Loop, r: Loop, c: string,
                           ids: seq<string>, k: nat)
    requires RanFirst(before, commits, mid, c, ids) && 0 < k
    requires SameIds(before, r, c, ids, k)
    requires mid.memory.campaigns[c].tasks[ids[0]].status == Success
    requires CleanFrontier(mid.memory.campaigns[c].tasks, mid.world.commits, r, c, ids[1..], k - 1)
    ensures PairsRecorded(before, r, c, ids, k)
  {
    hide CommitsRecorded, StopsAt;
    RanFirstRest(before, commits, mid, r, c, ids, k);
    var head, tail := ids[0], UpTo(ids[1..], k - 1);
    var middle, after := mid.memory.campaigns[c].tasks, r.memory.campaigns[c].tasks;
    assert mid.world.commits <= r.world.commits;
    CommitsStayRecorded(middle[head], mid.world.commits, r.world.commits, c, head);
    assert after[head] == middle[head];
    hide UpTo;
    forall t | t in UpTo(ids, k) && t in before && before[t].status != Success
      ensures CommitsRecorded(after[t], r.world.commits, c, t)
    {
      if t != head {
        assert t in tail && middle[t] == before[t];
      }
    }
  }

  lemma FrontierRuns(before: map<string, Task>, commits: seq<Commit>, mid: Loop, r: Loop, c: string, ids: seq<string>,
                     k: nat)
    requires RanFirst(before, commits, mid, c, ids) && 0 < k
    requires mid.memory.campaigns[c].tasks[ids[0]].status == Success
    requires CleanFrontier(mid.memory.campaigns[c].tasks, mid.world.commits, r, c, ids[1..], k - 1)
    ensures CleanFrontier(before, commits, r, c, ids, k)
  {
    hide StopsAt, UntouchedElsewhere, PairsCommitted, PairsRecorded, RanFirst;
    FrontierRunsStop(before, commits, mid, r, c, ids, k);
    FrontierRunsRecord(before, commits, mid, r, c, ids, k);
    FrontierRunsCommits(before, commits, mid, r, c, ids, k);
  }

  // ---------------------------------------------------------------- the whole pass

  /** How the pass result follows from where the loop stopped. */
  ghost predicate EndsAtFrontier(m: State, input: PassInput, worked: Loop, c: string, ids: seq<string>, k: nat,
                                 r: PassResult) {
    && k <= |ids| && c in worked.memory.campaigns && c in r.world.disk.campaigns
    && r.world.disk.campaigns.Keys == m.campaigns.Keys
    && var after := worked.memory.campaigns[c].tasks;
       && r.world.disk.campaigns[c].tasks == after
       && (r.world.disk.campaigns[c].status == Completed <==> k == |ids|)
       && r.world.commits == worked.world.commits + (if input.commitsAtEnd then [RunReceipt(input.runId)] else [])
       && r.end == if k == |ids| then ExecutionComplete
                   else StoppedAtTask(ids[k], if ids[k] in after then after[ids[k]].status else Pending)
  }

  lemma RunSelectedFrontier(w: World, m: State, input: PassInput, previous: StateSha, c: string)
    returns (k: nat, worked: Loop)
    requires c in m.campaigns && m.campaigns[c].tasks != map[] && input.mode.Execute?
    requires RunSelected(w, m, input, previous, c).end != Aborted
    ensures Materialize(m.campaigns[c]).Some?
    ensures var ids := SortedKeys(m.campaigns[c].tasks.Keys);
            && CleanFrontier(m.campaigns[c].tasks, w.commits, worked, c, ids, k)
            && EndsAtFrontier(m, input, worked, c, ids, k, RunSelected(w, m, input, previous, c))
  {
    hide Materialize, RunTasks, StateHash, CleanFrontier, RunSelected, WorkOn, Finish, AllSucceeded, Completing;
    hide SortedKeys, Recorded, Placed;
    NotAbortedMaterializes(w, m, input, previous, c);
    MaterializedTasks(m.campaigns[c]);
    var memory := m.(campaigns := m.campaigns[c := Materialize(m.campaigns[c]).value]);
    var l := Started(w, m, previous, c);
    var ids := SortedKeys(m.campaigns[c].tasks.Keys);
    assert memory.campaigns[c].tasks == m.campaigns[c].tasks;
    worked := RunTasksOn(l, input, c);
    RunSelectedIsFinish(w, m, input, previous, c, worked);
    k := RunTasksFrontier(l, input, c, ids);
    FrontierCompletes(m.campaigns[c].tasks, w.commits, worked, c, ids, k);
    RunTasksKeys(l, input, c, ids);
    CompletingEffect(worked.memory, c);
    FrontierBounds(m.campaigns[c].tasks, w.commits, worked, c, ids, k);
  }

  lemma CompletingEffect(s: State, c: string)
    requires c in s.campaigns
    ensures var next := Completing(s, c);
            && next.campaigns.Keys == s.campaigns.Keys
            && next.campaigns[c].tasks == s.campaigns[c].tasks
            && (next.campaigns[c].status == Completed <==> AllSucceeded(s.campaigns[c]))
  {
    hide AllSucceeded;
  }

  lemma FrontierBounds(before: map<string, Task>, commits: seq<Commit>, r: Loop, c: string, ids: seq<string>, k: nat)
    requires CleanFrontier(before, commits, r, c, ids, k)
    ensures k <= |ids| && c in r.memory.campaigns
    ensures k < |ids| ==> ids[k] in r.memory.campaigns[c].tasks
  {
    hide PairsCommitted, PairsRecorded, UntouchedElsewhere;
  }

  lemma NotAbortedMaterializes(w: World, m: State, input: PassInput, previous: StateSha, c: string)
    requires c in m.campaigns && RunSelected(w, m, input, previous, c).end != Aborted
    ensures Materialize(m.campaigns[c]).Some?
  {
    hide Materialize, WorkOn, Finish, Recorded, Placed;
  }

  lemma RunSelectedIsFinish(w: World, m: State, input: PassInput, previous: StateSha, c: string, worked: Loop)
    requires c in m.campaigns && m.campaigns[c].tasks != map[] && input.mode.Execute?
    requires RunSelected(w, m, input, previous, c).end != Aborted
    requires Materialize(m.campaigns[c]).Some? ==>
               worked == WorkOn(Started(w, m, previous, c), input, c)
    ensures Materialize(m.campaigns[c]).Some? && c in worked.memory.campaigns && !worked.stop.Raised?
    ensures var r := RunSelected(w, m, input, previous, c);
            && r.world.disk == Completing(worked.memory, c)
            && r.world.commits == worked.world.commits + (if input.commitsAtEnd then [RunReceipt(input.runId)] else [])
            && r.end == (if worked.stop.StoppedBy? then StoppedAtTask(worked.stop.task, worked.stop.status)
                         else if AllSucceeded(worked.memory.campaigns[c]) then ExecutionComplete else ExecutionPaused)
  {
    hide Materialize, WorkOn, StateHash, Recorded, Placed;
    if Materialize(m.campaigns[c]).Some? && !worked.stop.Raised? {
      FinishEffect(worked.world, Completing(worked.memory, c), input, worked.previous,
                   WorkTermination(worked, input, c, true));
      hide Finish;
    }
  }

  lemma FinishEffect(w: World, s: State, input: PassInput, previous: StateSha, end: Termination)
    requires !input.mode.Fixtures?
    ensures var r := Finish(w, s, input, previous, end);
            && r.world.disk == s && r.end == end
            && r.world.commits == w.commits + if input.commitsAtEnd then [RunReceipt(input.runId)] else []
  {
    hide StateHash, Recorded, Placed;
  }

  /** With tasks and in execute mode, the work is the task loop over the sorted ids. */
  lemma RunTasksOn(l: Loop, input: PassInput, c: string) returns (worked: Loop)
    requires c in l.memory.campaigns && l.memory.campaigns[c].tasks != map[] && input.mode.Execute?
    ensures var ids := SortedKeys(l.memory.campaigns[c].tasks.Keys);
            && ids != [] && NoDuplicates(ids) && AllHeld(l.memory.campaigns[c].tasks, ids)
            && (forall t :: t in ids <==> t in l.memory.campaigns[c].tasks)
            && (forall i :: 0 <= i < |ids| ==> HoldsTask(l.memory, c, ids[i]))
            && worked == WorkOn(l, input, c) == RunTasks(l, input, c, ids)
  {
    hide RunTasks;
    var tasks := l.memory.campaigns[c].tasks;
    var ids := SortedKeys(tasks.Keys);
    assert tasks.Keys != {};
    SortedDistinct(ids);
    assert forall i :: 0 <= i < |ids| ==> ids[i] in ids;
    worked := WorkOn(l, input, c);
  }

  lemma SortedDistinct(ids: seq<string>)
    requires Sorted(ids)
    ensures NoDuplicates(ids)
  {
    forall i, j | 0 <= i < j < |ids|
      ensures ids[i] != ids[j]
    {
      LessIrreflexive(ids[i]);
    }
  }

  lemma {:induction false} RunTasksKeys(l: Loop, input: PassInput, c: string, ids: seq<string>)
    requires c in l.memory.campaigns && forall i :: 0 <= i < |ids| ==> HoldsTask(l.memory, c, ids[i])
    ensures RunTasks(l, input, c, ids).memory.campaigns.Keys == l.memory.campaigns.Keys
    decreases |ids|
  {
    if ids != [] && l.stop.Running? {
      var rest := ids[1..];
      assert HoldsTask(l.memory, c, ids[0]);
      assert forall i :: 0 <= i < |rest| ==> rest[i] == ids[i + 1] && HoldsTask(l.memory, c, ids[i + 1]);
      RunTaskKeys(l, input, c, ids[0]);
      hide RunTask;
      if l.memory.campaigns[c].tasks[ids[0]].status == Success {
        RunTasksKeys(l, input, c, rest);
      } else {
        RunTasksKeys(RunTask(l, input, c, ids[0]), input, c, rest);
      }
    }
  }

  lemma RunTaskKeys(l: Loop, input: PassInput, c: string, t: string)
    requires HoldsTask(l.memory, c, t)
    ensures RunTask(l, input, c, t).memory.campaigns.Keys == l.memory.campaigns.Keys
  {
    hide StateHash, SaveAndLog, Recorded, Placed;
  }

  /** The campaign is completed exactly when the loop ran to the end. */
  lemma FrontierCompletes(before: map<string, Task>, commits: seq<Commit>, r: Loop, c: string, ids: seq<string>, k: nat)
    requires CleanFrontier(before, commits, r, c, ids, k)
    requires ids != [] && forall t :: t in ids <==> t in before
    ensures c in r.memory.campaigns
    ensures AllSucceeded(r.memory.campaigns[c]) <==> k == |ids|
    ensures k == |ids| ==> r.stop.Running?
    ensures k < |ids| ==> r.stop == StoppedBy(ids[k], r.memory.campaigns[c].tasks[ids[k]].status)
  {
    hide CommitsRecorded, PairsCommitted, PairsRecorded;
    var after := r.memory.campaigns[c].tasks;
    assert ids[0] in ids && ids[0] in after;
    if k == |ids| {
      forall t | t in after
        ensures after[t].status == Success
      {
        assert t in ids;
      }
    } else {
      assert ids[k] in ids && ids[k] in after;
    }
  }

  /**
   An execute pass that selects a campaign with tasks and is not aborted leaves a clean frontier on disk,
   completes the campaign exactly when the frontier is at the end, and commits exactly one implementation
   and one receipt, in that order, for every task it ran.
   */
  lemma PassFrontier(w: World, input: PassInput, m: State, c: string) returns (k: nat, worked: Loop)
    requires WellFormed(w.disk) && PassMerged(w, input, m) && OrderedKeys(m) && Select(m) == Some(c)
    requires c in m.campaigns && m.campaigns[c].tasks != map[] && input.mode.Execute?
    requires RunPass(w, input).end != Aborted
    ensures var ids := SortedKeys(m.campaigns[c].tasks.Keys);
            && CleanFrontier(m.campaigns[c].tasks, w.commits, worked, c, ids, k)
            && EndsAtFrontier(m, input, worked, c, ids, k, RunPass(w, input))
  {
    hide MergeProposal, Select, RunSelected, WellFormed, StateHash, CleanFrontier, EndsAtFrontier, Recorded, Placed;
    k, worked := RunSelectedFrontier(w, m, input, StateHash(w.disk), c);
  }
}
