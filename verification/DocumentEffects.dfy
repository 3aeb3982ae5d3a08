/** A pass writes to no document but that of the campaign it selects, and there only into the marked block. */
module DocumentEffects {
  import opened Wrappers
  import opened Text
  import opened Search
  import opened MappingBlock
  import opened MappingLaws
  import opened Tasks
  import opened Campaigns
  import opened Merge
  import opened Selection
  import opened Runner
  import opened DocumentLaws
  import opened RunSafety
  import opened Fallback
  import opened BlockRecords

  /** A document and the text on both sides of its block. */
  datatype Frame = Frame(name: string, before: string, after: string)

  ghost predicate InFrame(docs: Documents, f: Frame) {
    f.name in docs && exists entries :: Managed(docs[f.name], f.before, entries, f.after)
  }

  /** No agent of the pass rewrites the document. */
  ghost predicate LeftAlone(input: PassInput, name: string) { forall t :: name !in input.agent(t).edits }

  predicate SameDocument(docs: Documents, next: Documents, name: string) {
    (name in docs <==> name in next) && (name in docs ==> next[name] == docs[name])
  }

  /** Other documents, except those that agents rewrite, are the same; if it should be, this one is in its frame. */
  ghost predicate Kept(docs: Documents, next: Documents, input: PassInput, f: Frame, framed: bool) {
    && (forall name :: name != f.name && LeftAlone(input, name) ==> SameDocument(docs, next, name))
    && (framed ==> InFrame(next, f) && LeftAlone(input, f.name))
  }

  lemma EditedKept(docs: Documents, next: Documents, input: PassInput, f: Frame, framed: bool, t: string)
    requires Kept(docs, next, input, f, framed)
    ensures Kept(docs, next + input.agent(t).edits, input, f, framed)
  {
    hide Managed;
    var edits := input.agent(t).edits;
    forall name | name != f.name && LeftAlone(input, name)
      ensures SameDocument(docs, next + edits, name)
    {
      assert name !in edits;
      assert SameDocument(docs, next, name);
    }
    if framed {
      var entries :| Managed(next[f.name], f.before, entries, f.after);
      assert f.name !in edits && Managed((next + edits)[f.name], f.before, entries, f.after);
    }
  }

  lemma RecordedKept(docs: Documents, next: Documents, input: PassInput, f: Frame, framed: bool, x: Campaign, t: string,
                     sha: Sha)
    requires Kept(docs, next, input, f, framed) && DocName(x) == f.name && (framed ==> IsTaskId(t))
    requires Recorded(next, x, t, sha).Some?
    ensures Kept(docs, Recorded(next, x, t, sha).value, input, f, framed)
  {
    hide DocName, Managed, UpdateBlock, IsTaskId, CleanHash, ShaText, LeftAlone;
    if framed {
      var entries :| Managed(next[f.name], f.before, entries, f.after);
      PairIsClean(sha);
      UpdateManaged(next[f.name], f.before, entries, f.after, t, PairOf(sha));
    }
  }

  lemma RunTaskKeeps(l: Loop, input: PassInput, c: string, t: string, docs: Documents, f: Frame, framed: bool)
    requires HoldsTask(l.memory, c, t) && DocName(l.memory.campaigns[c]) == f.name && (framed ==> IsTaskId(t))
    requires Kept(docs, l.world.docs, input, f, framed)
    ensures var r := RunTask(l, input, c, t);
            && c in r.memory.campaigns && DocName(r.memory.campaigns[c]) == f.name
            && Kept(docs, r.world.docs, input, f, framed)
  {
    hide DocName, SetTask, StateHash, Recorded, IsTaskId, Kept;
    var outcome, x, p := input.agent(t), l.memory.campaigns[c], |l.world.commits|;
    EditedKept(docs, l.world.docs, input, f, framed, t);
    if !outcome.FailsBeforeCommit? && outcome.result.status != Pending {
      var done := x.tasks[t].(
        status := outcome.result.status, implementationCommit := Some(p), result := Some(outcome.result));
      NameSet(l.memory, c, t, done);
      NameSet(SetTask(l.memory, c, t, done), c, t, done.(receiptCommit := Some(p + 1)));
      if Recorded(l.world.docs + outcome.edits, x, t, p).Some? {
        RecordedKept(docs, l.world.docs + outcome.edits, input, f, framed, x, t, p);
      }
    }
  }

  lemma NameSet(s: State, c: string, t: string, task: Task)
    requires c in s.campaigns
    ensures var next := SetTask(s, c, t, task);
            c in next.campaigns && DocName(next.campaigns[c]) == DocName(s.campaigns[c])
  {
    SameName(s.campaigns[c], SetTask(s, c, t, task).campaigns[c]);
  }

  lemma {:induction false} RunTasksKeep(l: Loop, input: PassInput, c: string, ids: seq<string>, docs: Documents,
                                        f: Frame, framed: bool)
    requires c in l.memory.campaigns && forall i :: 0 <= i < |ids| ==> HoldsTask(l.memory, c, ids[i])
    requires DocName(l.memory.campaigns[c]) == f.name && (framed ==> forall i :: 0 <= i < |ids| ==> IsTaskId(ids[i]))
    requires Kept(docs, l.world.docs, input, f, framed)
    ensures Kept(docs, RunTasks(l, input, c, ids).world.docs, input, f, framed)
    decreases |ids|
  {
    hide DocName, RunTask, IsTaskId, Kept;
    if ids != [] && l.stop.Running? {
      var rest := ids[1..];
      assert HoldsTask(l.memory, c, ids[0]);
      assert forall i :: 0 <= i < |rest| ==> rest[i] == ids[i + 1] && HoldsTask(l.memory, c, ids[i + 1]);
      if l.memory.campaigns[c].tasks[ids[0]].status == Success {
        RunTasksKeep(l, input, c, rest, docs, f, framed);
      } else {
        RunTaskKeeps(l, input, c, ids[0], docs, f, framed);
        RunTasksKeep(RunTask(l, input, c, ids[0]), input, c, rest, docs, f, framed);
      }
    }
  }

  lemma DiscoverKeeps(l: Loop, input: PassInput, c: string, docs: Documents, f: Frame, framed: bool)
    requires c in l.memory.campaigns && DocName(l.memory.campaigns[c]) == f.name && f.name in l.world.docs
    requires framed ==> IsTaskId(DiscoveryId(l.memory.campaigns[c], input.runId))
    requires Kept(docs, l.world.docs, input, f, framed)
    ensures Kept(docs, Discover(l, input, c).world.docs, input, f, framed)
  {
    hide DocName, SetTask, StateHash, Recorded, IsTaskId, Kept, Materialize, AddDiscovery, DiscoveryTask, DiscoveryId;
    hide EnsureBlock;
    var x, p := l.memory.campaigns[c], |l.world.commits|;
    var id := DiscoveryId(x, input.runId);
    assert Placed(l.world.docs, x) == l.world.docs;
    if Recorded(l.world.docs, x, id, p).Some? {
      RecordedKept(docs, l.world.docs, input, f, framed, x, id, p);
    }
  }

  /** The ids of the campaign's tasks, and of the placeholder it may get, are valid. */
  ghost predicate IdsValid(x: Campaign, runId: string) {
    (forall t :: t in x.tasks ==> IsTaskId(t)) && IsTaskId(DiscoveryId(x, runId))
  }

  lemma WorkOnKeeps(l: Loop, input: PassInput, c: string, docs: Documents, f: Frame, framed: bool)
    requires c in l.memory.campaigns && DocName(l.memory.campaigns[c]) == f.name && f.name in l.world.docs
    requires framed ==> IdsValid(l.memory.campaigns[c], input.runId)
    requires Kept(docs, l.world.docs, input, f, framed)
    ensures Kept(docs, WorkOn(l, input, c).world.docs, input, f, framed)
  {
    hide DocName, RunTasks, Discover, Sorted, IsTaskId, Kept, DiscoveryId;
    var ids := SortedKeys(l.memory.campaigns[c].tasks.Keys);
    SortedHeld(l.memory, c);
    DiscoverKeeps(l, input, c, docs, f, framed);
    if framed {
      forall i | 0 <= i < |ids|
        ensures IsTaskId(ids[i])
      {
        assert ids[i] in ids;
      }
    }
    RunTasksKeep(l, input, c, ids, docs, f, framed);
  }

  /** What is on both sides of the block of a document that is there, or is to be written. */
  ghost predicate Frames(docs: Documents, x: Campaign, f: Frame) {
    && f.name == DocName(x)
    && if f.name in docs then InFrame(docs, f)
       else && !Contains(x.markdown, MAPPING_START) && !Contains(x.markdown, MAPPING_END)
            && f.before == RStrip(x.markdown) + "\n\n" && f.after == "\n"
  }

  lemma PlacedKept(docs: Documents, x: Campaign, input: PassInput, f: Frame, framed: bool)
    requires f.name == DocName(x) && (framed ==> Frames(docs, x, f) && LeftAlone(input, f.name))
    ensures Kept(docs, Placed(docs, x), input, f, framed) && f.name in Placed(docs, x)
  {
    hide DocName, Managed, EnsureBlock, Contains, LeftAlone, RStrip;
    if framed && f.name !in docs {
      EnsuredManaged(x.markdown);
      assert Placed(docs, x)[f.name] == EnsureBlock(x.markdown);
    }
  }

  lemma SelectedKeeps(w: World, m: State, input: PassInput, previous: StateSha, c: string, f: Frame, framed: bool)
    requires c in m.campaigns && f.name == DocName(m.campaigns[c])
    requires framed ==>
               Frames(w.docs, m.campaigns[c], f) && LeftAlone(input, f.name) && IdsValid(m.campaigns[c], input.runId)
    ensures Kept(w.docs, RunSelected(w, m, input, previous, c).world.docs, input, f, framed)
  {
    hide DocName, Materialize, WorkOn, WorkTermination, Started, Finish, RunSelected, Placed, Kept, Frames, LeftAlone;
    hide Completing;
    hide IsTaskId;
    var x := m.campaigns[c];
    RunSelectedShape(w, m, input, previous, c);
    PlacedKept(w.docs, x, input, f, framed);
    if Materialize(x).Some? {
      StartedShape(w, m, previous, c);
      var l := Started(w, m, previous, c);
      SameName(x, l.memory.campaigns[c]);
      WorkOnKeeps(l, input, c, w.docs, f, framed);
      var worked := WorkOn(l, input, c);
      FinishDocs(worked.world, Completing(worked.memory, c), input, worked.previous,
                 WorkTermination(worked, input, c, x.tasks != map[]));
    }
  }

  lemma FinishDocs(w: World, s: State, input: PassInput, previous: StateSha, end: Termination)
    ensures Finish(w, s, input, previous, end).world.docs == w.docs
  {
    hide StateHash;
  }

  /** A pass that selects no campaign leaves every document as it was. */
  lemma IdlePassKeepsDocuments(w: World, input: PassInput)
    requires WellFormed(w.disk) && PassSelection(w, input).None?
    ensures RunPass(w, input).world.docs == w.docs
  {
    hide MergeProposal, Select, RunSelected, WellFormed, StateHash, Eligible;
  }

  /** Whatever happens in a pass, the documents of other campaigns are changed by agents only. */
  lemma PassKeepsOthers(w: World, input: PassInput, m: State, c: string, name: string)
    requires WellFormed(w.disk) && PassSelection(w, input) == Some((m, c)) && c in m.campaigns
    requires name != DocName(m.campaigns[c]) && forall t :: name !in input.agent(t).edits
    ensures var docs := RunPass(w, input).world.docs;
            (name in docs <==> name in w.docs) && (name in docs ==> docs[name] == w.docs[name])
  {
    hide MergeProposal, Select, RunSelected, WellFormed, StateHash, Eligible, DocName;
    var f := Frame(DocName(m.campaigns[c]), "", "");
    SelectedKeeps(w, m, input, StateHash(w.disk), c, f, false);
    assert LeftAlone(input, name);
  }

  /**
   A pass, aborted or not, leaves the document of the selected campaign with the same text before and after the
   block; a document it creates has the campaign's markdown, without whitespace at its end, before the block.
   */
  lemma PassKeepsFrame(w: World, input: PassInput, m: State, c: string, f: Frame)
    requires WellFormed(w.disk) && ValidIds(w.disk) && PlainRunId(input.runId)
    requires PassSelection(w, input) == Some((m, c)) && c in m.campaigns
    requires Frames(w.docs, m.campaigns[c], f) && LeftAlone(input, f.name)
    ensures InFrame(RunPass(w, input).world.docs, f)
  {
    hide MergeProposal, Select, RunSelected, WellFormed, StateHash, Eligible, Frames, InFrame, LeftAlone, IsTaskId;
    hide IsSlug;
    hide PlainRunId, DiscoveryId;
    MergeKeepsIds(w.disk, input.proposal, AuditId(input));
    SlugOfHeader(m, c);
    DiscoveryIdValid(m.campaigns[c], input.runId);
    assert f.name == DocName(m.campaigns[c]) by { FrameNamed(w.docs, m.campaigns[c], f); }
    SelectedKeeps(w, m, input, StateHash(w.disk), c, f, true);
  }

  lemma FrameNamed(docs: Documents, x: Campaign, f: Frame)
    requires Frames(docs, x, f)
    ensures f.name == DocName(x)
  {
    hide DocName;
  }
}
