/** What the input of a pass says, before anything is run, about the attempts at the tasks of its campaign. */
module Attempts {
  import opened Wrappers
  import opened Text
  import opened MappingBlock
  import opened Campaigns
  import opened Runner
  import opened DocumentLaws
  import opened Frontier

  /** The document is absent or can be updated. */
  predicate Fits(docs: Documents, name: string) { name in docs ==> Updatable(docs[name]) }

  /** The document `name` takes the record of `t`: as the agent leaves it, or as it was if it `fits`. */
  predicate Records(input: PassInput, name: string, t: string, fits: bool) {
    var edits := input.agent(t).edits;
    if name in edits then Updatable(edits[name]) else fits
  }

  /** The attempt at `t` gets as far as saving the state. */
  predicate Saves(input: PassInput, name: string, t: string, fits: bool) {
    var outcome := input.agent(t);
    (outcome.FailsAfterSave? || outcome.Finishes?) && outcome.result.status != Pending && Records(input, name, t, fits)
  }

  /** The attempt at `t` lets the loop go on. */
  predicate Succeeds(input: PassInput, name: string, t: string, fits: bool) {
    Saves(input, name, t, fits) && input.agent(t).Finishes? && input.agent(t).result.status == Success
  }

  /** The ids of the tasks that have not succeeded, in order. */
  ghost function UnfinishedOf(x: Campaign): (u: seq<string>)
    ensures AllHeld(x.tasks, u)
  {
    var ids := SortedKeys(x.tasks.Keys);
    assert forall i :: 0 <= i < |ids| ==> ids[i] in ids;
    UnfinishedHeld(x.tasks, ids);
    Unfinished(x.tasks, ids)
  }

  lemma {:induction false} UnfinishedHeld(tasks: map<string, Task>, ids: seq<string>)
    requires AllHeld(tasks, ids)
    ensures AllHeld(tasks, Unfinished(tasks, ids))
    ensures forall t :: t in Unfinished(tasks, ids) ==> t in ids && tasks[t].status != Success
  {
    if ids != [] {
      UnfinishedHeld(tasks, ids[1..]);
    }
  }

  // ---------------------------------------------------------------- one attempt

  lemma RecordedIff(docs: Documents, x: Campaign, t: string, sha: Sha)
    ensures Recorded(docs, x, t, sha).Some? <==> Fits(docs, DocName(x))
    ensures Recorded(docs, x, t, sha).Some? ==> Fits(Recorded(docs, x, t, sha).value, DocName(x))
  {
    hide DocName, UpdateBlock, Updatable, ShaText;
    var text := if DocName(x) in docs then docs[DocName(x)] else "";
    EmptyUpdatable();
    UpdateSucceedsIff(text, t, (ShaText(sha), "SELF"));
    if UpdateBlock(text, t, (ShaText(sha), "SELF")).Ok? {
      UpdatedUpdatable(text, t, (ShaText(sha), "SELF"));
    }
  }

  /** The record of a task as it is saved. */
  function Reported(task: Task, result: AgentResult, implementation: Sha): Task {
    task.(status := result.status, implementationCommit := Some(implementation), result := Some(result))
  }

  /** Whether an attempt saves is decided by its outcome and the documents; this is what it then leaves. */
  lemma AttemptEffect(l: Loop, input: PassInput, c: string, t: string)
    requires l.stop.Running? && HoldsTask(l.memory, c, t)
    ensures var r, x, outcome := RunTask(l, input, c, t), l.memory.campaigns[c], input.agent(t);
            var name := DocName(x);
            if Saves(input, name, t, Fits(l.world.docs, name)) then
              && r.world.disk == SetTask(l.memory, c, t, Reported(x.tasks[t], outcome.result, |l.world.commits|))
              && c in r.memory.campaigns && DocName(r.memory.campaigns[c]) == name && Fits(r.world.docs, name)
              && r.stop == if outcome.FailsAfterSave? then Raised
                           else if outcome.result.status == Success then Running
                           else StoppedBy(t, outcome.result.status)
            else r.stop.Raised? && r.world.disk == l.world.disk
  {
    hide StateHash, Recorded, Updatable, Fits, SetTask;
    var x := l.memory.campaigns[c];
    RecordedIff(l.world.docs + input.agent(t).edits, x, t, |l.world.commits|);
    EditedFits(input, l.world.docs, DocName(x), t);
    if Saves(input, DocName(x), t, Fits(l.world.docs, DocName(x))) {
      var done := Reported(x.tasks[t], input.agent(t).result, |l.world.commits|);
      var received := done.(receiptCommit := Some(|l.world.commits| + 1));
      SetTaskName(l.memory, c, t, done);
      SetTaskName(SetTask(l.memory, c, t, done), c, t, received);
    }
  }

  lemma EditedFits(input: PassInput, docs: Documents, name: string, t: string)
    ensures Fits(docs + input.agent(t).edits, name) <==> Records(input, name, t, Fits(docs, name))
  {
    hide Updatable;
  }

  lemma SetTaskName(s: State, c: string, t: string, task: Task)
    requires c in s.campaigns
    ensures var next := SetTask(s, c, t, task);
            c in next.campaigns && DocName(next.campaigns[c]) == DocName(s.campaigns[c])
  {
    SameName(s.campaigns[c], SetTask(s, c, t, task).campaigns[c]);
  }

  /** Once placed, the document fits exactly when its text can be updated. */
  lemma PlacedFitsIff(docs: Documents, x: Campaign, y: Campaign)
    requires y == x.(materialized := y.materialized)
    ensures Fits(Placed(docs, x), DocName(y)) <==> Updatable(DocumentText(docs, x))
  {
    hide DocName, EnsureBlock, Updatable;
    SameName(x, y);
    EnsuredUpdatableIff(x.markdown);
  }

  lemma MaterializesIff(x: Campaign)
    ensures Materialize(x).Some? <==> !StemsCollide(x)
  {
    hide StemsCollide, Stems, DocName;
  }

  /** Running a task changes no other task of the campaign. */
  lemma RestKept(l: Loop, input: PassInput, c: string, t: string, rest: seq<string>)
    requires HoldsTask(l.memory, c, t) && AllHeld(l.memory.campaigns[c].tasks, rest) && t !in rest
    ensures var r := RunTask(l, input, c, t);
            && c in r.memory.campaigns && AllHeld(r.memory.campaigns[c].tasks, rest)
            && forall i :: 0 <= i < |rest| ==>
                 r.memory.campaigns[c].tasks[rest[i]] == l.memory.campaigns[c].tasks[rest[i]]
  {
    hide StateHash, Recorded;
    assert forall i :: 0 <= i < |rest| ==> rest[i] in rest;
  }
}
