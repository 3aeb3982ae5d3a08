/** A run from a new repository after which a completed campaign holds a task that never ran. */
module LateTask {
  import opened Wrappers
  import opened Text
  import opened Tasks
  import opened Campaigns
  import opened Merge
  import opened Confluence
  import opened IndexLaws
  import opened Selection
  import opened Runner
  import opened DocumentLaws
  import opened RunSafety
  import opened Fallback
  import opened Frontier
  import opened IndexRuns
  import opened Wholeness
  import opened Progress
  import opened Witnesses

  /** One pass with an agent that always succeeds, on a proposal of campaign "a" with this one task. */
  function Proposing(runId: string, id: string): PassInput {
    PassInput(runId, Proposal([Entry(DAY, "a", [PlainTask(id, SlugOf(id))], "", "")]), Execute, false, false,
              Always(Finishes(Report(Success), map[])), false)
  }

  function SlugOf(id: string): string { if id == "x" then "a" else "a_b" }

  /** The state holds one completed campaign, with task "x", indexed and consistent. */
  ghost predicate OneDone(s: State, c: string) {
    && c == IdOf(DAY, "a") && s.campaigns.Keys == {c} && IndexesAgree(s) && Whole(s)
    && var x := s.campaigns[c];
       && x.slug == "a" && x.date == DAY && x.seqNo == "001" && x.dependsOn == [] && x.markdown == ""
          && x.reason == None
       && x.status == Completed && x.tasks.Keys == {"x"} && x.tasks["x"].content == PlainTask("x", "a")
  }

  /** What the pass that completes its only campaign leaves of it. */
  lemma CompletedShape(w: World, input: PassInput, m: State, c: string)
    requires WellFormed(w.disk) && PassMerged(w, input, m) && OrderedKeys(m) && Select(m) == Some(c)
    requires input.mode.Execute? && AgentSucceeds(input) && c in m.campaigns && m.campaigns[c].tasks != map[]
    requires w.disk.campaigns == map[] && m.campaigns.Keys == {c} && CanComplete(w.docs, m.campaigns[c])
    ensures var disk := RunPass(w, input).world.disk;
            && disk.campaigns.Keys == {c} && disk.campaigns[c].status == Completed
            && CampaignGrows(m.campaigns[c], disk.campaigns[c]) && disk.campaigns[c].reason == m.campaigns[c].reason
            && disk.campaigns[c].tasks.Keys == m.campaigns[c].tasks.Keys
  {
    hide WellFormed, MergeProposal, RunSelected, StateHash, CanComplete, Select, AgentSucceeds, LeavesWorked;
    hide Eligible, SortedKeys;
    hide CleanFrontier, CampaignGrows;
    PassRunsSelected(w, input, m, c);
    RunSelectedCompletes(w, m, input, StateHash(w.disk), c);
    var disk := RunPass(w, input).world.disk;
    var k, worked := PassFrontier(w, input, m, c);
    FrontierKeys(m.campaigns[c].tasks, w.commits, worked, c, SortedKeys(m.campaigns[c].tasks.Keys), k);
    MergeWellFormed(w.disk, input.proposal, AuditId(input));
    SelectedEligible(m);
    EligibleOpen(m, c);
    PassSavesIff(w, input);
    assert disk != w.disk;
    var d :| d in m.campaigns && m.campaigns[d].status != Completed && LeavesWorked(m, disk, d);
    LeavesWorkedGrows(m, disk, c);
    WorkedReason(m, disk, c);
  }

  lemma FrontierKeys(before: map<string, Task>, commits: seq<Commit>, r: Loop, c: string, ids: seq<string>, k: nat)
    requires CleanFrontier(before, commits, r, c, ids, k)
    ensures c in r.memory.campaigns && r.memory.campaigns[c].tasks.Keys == before.Keys
  {
    hide StopsAt, UntouchedElsewhere, PairsCommitted, PairsRecorded;
  }

  lemma WorkedReason(m: State, disk: State, c: string)
    requires c in m.campaigns && LeavesWorked(m, disk, c)
    ensures c in disk.campaigns && disk.campaigns[c].reason == m.campaigns[c].reason
  {
    hide SameWork, AllSucceeded;
  }

  lemma FirstCompletes(runId: string)
    ensures WellFormed(NEW_WORLD.disk) && OneDone(RunPass(NEW_WORLD, Proposing(runId, "x")).world.disk, IdOf(DAY, "a"))
  {
    hide MergeProposal, RunPass, WellFormed, Entry, IdOf, PassSelection, Updatable, DocName, PlainTask, IndexesAgree;
    hide Whole;
    hide StemsCollide, AllSucceeded, Select, SpoilsIndexes, AddsLate;
    NothingCompleted();
    NothingIndexed();
    Slugs();
    PlainParts("x", "a");
    var input, c := Proposing(runId, "x"), PlainTask("x", "a");
    MergeOne("a", c, "", AuditOf(runId));
    var h := HeaderOf(DAY, "a", "", "");
    var x := With(h, AuditOf(runId), map["x" := NewTask(c, "a")]);
    AloneSelection(NEW_WORLD, input, h.id, x);
    var m := PassSelection(NEW_WORLD, input).value.0;
    AloneSelected(m, h.id, x);
    EmptyUpdatable();
    OneTaskNoCollision(x, "x");
    CompletedShape(NEW_WORLD, input, m, h.id);
    NotSpoiled(NEW_WORLD, input, m, h.id);
    PassKeepsIndexesIff(NEW_WORLD, input);
    NothingWhole(m);
    NoneLate(NEW_WORLD, input);
    PassWholeIff(NEW_WORLD, input);
  }

  lemma NotSpoiled(w: World, input: PassInput, m: State, c: string)
    requires WellFormed(w.disk) && PassSelection(w, input) == Some((m, c)) && !input.allowDiscovery
    ensures !SpoilsIndexes(w, input)
  {
    hide PassSelection, Updatable, DocName, PlaceholderIsFree;
  }

  lemma NothingWhole(m: State)
    ensures Whole(EMPTY_STATE) && !AddsToCompleted(EMPTY_STATE, m)
  {
  }

  lemma NoneLate(w: World, input: PassInput)
    requires WellFormed(w.disk) && w.disk == EMPTY_STATE
    ensures !AddsLate(w, input)
  {
    hide MergeProposal, PassSaves;
    NothingWhole(MergeProposal(w.disk, input.proposal, AuditId(input)).state);
  }

  // ---------------------------------------------------------------- the second proposal

  lemma BackedById(s: State, t: string)
    requires IndexesAgree(s) && t in s.byId
    ensures exists c :: c in s.campaigns && t in s.campaigns[c].tasks
  {
    assert IdEntryBacked(s, t);
  }

  lemma BackedBySlug(s: State, key: string)
    requires IndexesAgree(s) && key in s.bySlug
    ensures exists c, t :: c in s.campaigns && t in s.campaigns[c].tasks
                        && key == SlugKey(s.campaigns[c].slug, s.campaigns[c].tasks[t].content.slug)
  {
    hide SlugKey;
    assert SlugEntryBacked(s, key);
  }

  /** Neither index knows the second task. */
  lemma UnknownTask(s: State, c: string)
    requires OneDone(s, c)
    ensures "y" !in s.byId && SlugKey("a", "a_b") !in s.bySlug && "y" !in s.campaigns[c].tasks
  {
    hide SlugKey, Whole, IdOf, IndexesAgree;
    Slugs();
    SlugsDiffer();
    PlainParts("x", "a");
    KeysDiffer("a", "a", "a_b");
    if "y" in s.byId {
      BackedById(s, "y");
    }
    if SlugKey("a", "a_b") in s.bySlug {
      BackedBySlug(s, SlugKey("a", "a_b"));
    }
  }

  lemma RepeatAdmitted(s: State, c: string, audit: string)
    requires OneDone(s, c)
    ensures var h := HeaderOf(DAY, "a", "", "");
            && Admit(s, h, audit).Ok?
            && var next := Admit(s, h, audit).value;
               && next.byId == s.byId && next.bySlug == s.bySlug && next.order == s.order && next.campaigns.Keys == {c}
               && next.campaigns[c].tasks == s.campaigns[c].tasks && next.campaigns[c].status == Completed
  {
    hide IdOf, IndexesAgree, Whole;
  }

  lemma RepeatMerges(acc: Merged, c: string, tasks: seq<Content>, audit: string)
    requires OneDone(acc.state, c) && tasks != []
    ensures var h := HeaderOf(DAY, "a", "", "");
            && Admit(acc.state, h, audit).Ok?
            && MergeEntry(acc, Entry(DAY, "a", tasks, "", ""), audit) ==
               MergeTasks(acc.(state := Admit(acc.state, h, audit).value), h, Raws(tasks), {}, {})
  {
    hide DecodeHeader, MergeTasks, IdOf, IsDate, IndexesAgree, Whole, Admit;
    DaysAreDates();
    Slugs();
    EntryDecodes(DAY, "a", tasks, "", "");
    RepeatAdmitted(acc.state, c, audit);
    assert acc.campaigns + 0 == acc.campaigns;
  }

  /** Proposed again with a second task, the completed campaign takes it and stays completed. */
  lemma SecondMerges(s: State, c: string, runId: string)
    requires OneDone(s, c)
    ensures var m := MergeProposal(s, Proposing(runId, "y").proposal, AuditOf(runId));
            && m.error.None? && m.state.campaigns.Keys == {c} && m.state.campaigns[c].status == Completed
            && AddsTask(s, m.state, c, "y")
  {
    hide Entry, IdOf, IsDate, PlainTask, Reproposed, NewTask, AddTask, SlugKey, Admit, MergeTasks, IndexesAgree, Whole;
    Slugs();
    SlugsDiffer();
    PlainParts("y", "a_b");
    UnknownTask(s, c);
    var audit, acc, t := AuditOf(runId), Merged(s, 0, 0, None), PlainTask("y", "a_b");
    var h, raw := HeaderOf(DAY, "a", "", ""), Entry(DAY, "a", [t], "", "");
    RepeatMerges(acc, c, [t], audit);
    RepeatAdmitted(s, c, audit);
    hide MergeEntry;
    var admitted := acc.(state := Admit(s, h, audit).value);
    assert Raws([t]) == [Reproposed(t)] + [];
    TaskMerges(admitted, h, t, [], {}, {});
    AddedTask(admitted.state, h, t);
    var last := admitted.(state := AddTask(admitted.state, h, t).value, tasks := 1);
    NoMoreTasks(last, h, {} + {t.id}, {} + {t.slug});
    OneEntry(acc, raw, [], audit);
    assert [raw] + [] == [raw];
  }

  /** Nothing is open after the second merge, so the pass saves it. */
  lemma SecondAddsLate(w: World, c: string, runId: string)
    requires WellFormed(w.disk) && OneDone(w.disk, c)
    ensures AddsLate(w, Proposing(runId, "y"))
  {
    hide MergeProposal, WellFormed, Select, CampaignSaves, AddsTask, IdOf, IndexesAgree, Whole, Entry;
    var input := Proposing(runId, "y");
    SecondMerges(w.disk, c, runId);
    var m := MergeProposal(w.disk, input.proposal, AuditId(input)).state;
    MergeWellFormed(w.disk, input.proposal, AuditId(input));
    SelectedEligible(m);
    assert !Eligible(m, c);
    assert PassSelection(w, input).None?;
    assert AddsTask(w.disk, m, c, "y");
  }

  /**
   One pass completes a campaign with task "x"; the next proposes it again with a task "y". The campaign is
   then completed although "y" has not run, and no later pass of any run changes that.
   */
  lemma CompletedWithUnfinished(runId: string, later: string, inputs: seq<PassInput>)
    ensures WellFormed(NEW_WORLD.disk) && Whole(NEW_WORLD.disk)
    ensures !Whole(RunAll(NEW_WORLD, [Proposing(runId, "x"), Proposing(later, "y")] + inputs).disk)
  {
    hide RunPass, WellFormed, RunAll, OneDone, AddsLate, Proposing, IdOf, Whole;
    NothingCompleted();
    NothingWhole(EMPTY_STATE);
    var first, second := Proposing(runId, "x"), Proposing(later, "y");
    PassKeepsWellFormed(NEW_WORLD, first);
    FirstCompletes(runId);
    var w := RunPass(NEW_WORLD, first).world;
    DoneIsWhole(w.disk, IdOf(DAY, "a"));
    SecondAddsLate(w, IdOf(DAY, "a"), later);
    PassWholeIff(w, second);
    PassKeepsWellFormed(w, second);
    NotWholeStays(RunPass(w, second).world, inputs);
    TwoPassesAnd(NEW_WORLD, first, second, inputs);
  }

  lemma DoneIsWhole(s: State, c: string)
    requires OneDone(s, c)
    ensures Whole(s)
  {
    hide Whole, IndexesAgree;
  }

  lemma TwoPassesAnd(w: World, a: PassInput, b: PassInput, rest: seq<PassInput>)
    requires WellFormed(w.disk) && WellFormed(RunPass(w, a).world.disk)
    requires WellFormed(RunPass(RunPass(w, a).world, b).world.disk)
    ensures RunAll(w, [a, b] + rest) == RunAll(RunPass(RunPass(w, a).world, b).world, rest)
  {
    hide RunPass, WellFormed;
    assert ([a, b] + rest)[1..] == [b] + rest && ([b] + rest)[1..] == rest;
    assert RunAll(RunPass(w, a).world, [b] + rest) == RunAll(RunPass(RunPass(w, a).world, b).world, rest);
  }
}
