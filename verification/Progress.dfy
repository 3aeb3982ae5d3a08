/** When the scheduler makes progress, and how many passes it needs. */
module Progress {
  import opened Wrappers
  import opened Collections
  import opened Text
  import opened Campaigns
  import opened MappingBlock
  import opened Merge
  import opened Confluence
  import opened IndexLaws
  import opened Selection
  import opened Runner
  import opened DocumentLaws
  import opened RunSafety
  import opened Fallback
  import opened Frontier
  import opened Attempts

  /** Dependencies are present and acyclic. */
  ghost predicate Acyclic(s: State, rank: map<string, nat>) {
    forall c :: c in s.campaigns ==> Ranked(s, rank, c)
  }

  ghost predicate Ranked(s: State, rank: map<string, nat>, c: string)
    requires c in s.campaigns
  {
    c in rank && forall d :: d in s.campaigns[c].dependsOn ==> d in s.campaigns && d in rank && rank[d] < rank[c]
  }

  /** Every open campaign has tasks. */
  ghost predicate OpenHaveTasks(s: State) {
    forall c :: c in OpenCampaigns(s) ==> s.campaigns[c].tasks != map[]
  }

  /** Open campaigns of one document agree on whether its text, present or still to be written, can be updated. */
  ghost predicate DocumentsAgree(docs: Documents, s: State) {
    forall c, d :: c in OpenCampaigns(s) && d in OpenCampaigns(s) ==> AgreeOnText(docs, s.campaigns[c], s.campaigns[d])
  }

  ghost predicate AgreeOnText(docs: Documents, x: Campaign, y: Campaign) {
    DocName(x) == DocName(y) ==> (Updatable(DocumentText(docs, x)) <==> Updatable(DocumentText(docs, y)))
  }

  ghost predicate Schedulable(w: World, rank: map<string, nat>) {
    Acyclic(w.disk, rank) && OpenHaveTasks(w.disk) && DocumentsAgree(w.docs, w.disk)
  }

  ghost function OpenCampaigns(s: State): set<string> {
    set c | c in s.campaigns && s.campaigns[c].status != Completed
  }

  lemma {:induction false} EligibleBelow(s: State, rank: map<string, nat>, c: string) returns (e: string)
    requires Acyclic(s, rank) && c in OpenCampaigns(s) && c in rank
    ensures Eligible(s, e)
    decreases rank[c]
  {
    assert Ranked(s, rank, c);
    if Eligible(s, c) {
      e := c;
    } else {
      var d :| d in s.campaigns[c].dependsOn && !(d in s.campaigns && s.campaigns[d].status == Completed);
      e := EligibleBelow(s, rank, d);
    }
  }

  /** With present, acyclic dependencies nothing is selected exactly when no campaign is open. */
  lemma SelectNoneIff(s: State, rank: map<string, nat>)
    requires WellFormed(s) && Acyclic(s, rank)
    ensures OrderedKeys(s)
    ensures Select(s).None? <==> OpenCampaigns(s) == {}
    ensures Select(s).Some? ==> Select(s).value in OpenCampaigns(s)
  {
    hide Select, Ranked, WellFormed;
    SelectedEligible(s);
    if Select(s).Some? {
      assert Select(s).value in OpenCampaigns(s);
    }
    if OpenCampaigns(s) != {} {
      var c :| c in OpenCampaigns(s);
      assert c in rank by { RankCovers(s, rank, c); }
      var e := EligibleBelow(s, rank, c);
    }
  }

  lemma RankCovers(s: State, rank: map<string, nat>, c: string)
    requires Acyclic(s, rank) && c in s.campaigns
    ensures c in rank
  {
    assert Ranked(s, rank, c);
  }

  // ---------------------------------------------------------------- quiet, successful passes

  /** The pass runs, merges without adding anything, executes, and its agent always succeeds. */
  ghost predicate Productive(w: World, input: PassInput) {
    && !input.stagesFail && input.mode.Execute? && AgentSucceeds(input)
    && var m := MergeProposal(w.disk, input.proposal, AuditId(input));
       m.error.None? && m.campaigns == 0 && m.tasks == 0
  }

  /** Every run of the agent succeeds, leaves the campaign documents alone, and nothing outside the runner fails. */
  ghost predicate AgentSucceeds(input: PassInput) {
    forall t :: input.agent(t).Finishes? && input.agent(t).result.status == Success && input.agent(t).edits == map[]
  }

  /** What dependencies depend on. */
  ghost predicate SameSchedule(a: State, b: State) {
    && a.campaigns.Keys == b.campaigns.Keys
    && forall c :: c in a.campaigns ==> b.campaigns[c].dependsOn == a.campaigns[c].dependsOn
  }

  /** What completing a campaign depends on, apart from its document. */
  ghost predicate Alike(x: Campaign, y: Campaign) {
    && y.slug == x.slug && y.date == x.date && y.seqNo == x.seqNo && y.markdown == x.markdown
    && y.tasks == x.tasks && y.status == x.status
  }

  /** All campaigns but those of `except` are as they were. */
  ghost predicate AlikeBut(a: State, b: State, except: set<string>) {
    a.campaigns.Keys == b.campaigns.Keys && forall c :: c in a.campaigns && c !in except ==>
                                              Alike(a.campaigns[c], b.campaigns[c])
  }

  lemma AcyclicKept(a: State, b: State, rank: map<string, nat>)
    requires Acyclic(a, rank) && SameSchedule(a, b)
    ensures Acyclic(b, rank)
  {
    forall c | c in b.campaigns
      ensures Ranked(b, rank, c)
    {
      assert Ranked(a, rank, c);
    }
  }

  lemma AlikeCompletes(docs: Documents, x: Campaign, y: Campaign)
    requires Alike(x, y)
    ensures CanComplete(docs, y) <==> CanComplete(docs, x)
    ensures DocName(y) == DocName(x) && DocumentText(docs, y) == DocumentText(docs, x)
  {
    hide Updatable, LowerSnake, DashesToUnderscores;
    SameName(x, y);
    CollideAlike(x, y);
  }

  lemma CollideAlike(x: Campaign, y: Campaign)
    requires y.tasks == x.tasks && y.date == x.date
    ensures StemsCollide(y) <==> StemsCollide(x)
  {
    hide LowerSnake, DashesToUnderscores;
    if StemsCollide(y) {
      CollisionMoves(x, y);
    }
    if StemsCollide(x) {
      CollisionMoves(y, x);
    }
  }

  lemma CollisionMoves(x: Campaign, y: Campaign)
    requires y.tasks == x.tasks && y.date == x.date && StemsCollide(y)
    ensures StemsCollide(x)
  {
    hide LowerSnake, DashesToUnderscores;
    var t, u :| t in y.tasks && u in y.tasks && t != u
             && Stem(y, y.tasks[t].content.slug) == Stem(y, y.tasks[u].content.slug);
    assert Stem(x, x.tasks[t].content.slug) == Stem(x, x.tasks[u].content.slug);
  }

  // ---------------------------------------------------------------- documents along a pass

  /** No document but the named one appears, and each one can be updated exactly if it could. */
  ghost predicate DocsStep(docs: Documents, next: Documents, name: string) {
    && docs.Keys <= next.Keys <= docs.Keys + {name}
    && forall n :: n in docs && n in next ==> (Updatable(next[n]) <==> Updatable(docs[n]))
  }

  lemma DocsStepTransitive(a: Documents, b: Documents, c: Documents, name: string)
    requires DocsStep(a, b, name) && DocsStep(b, c, name)
    ensures DocsStep(a, c, name)
  {
    hide Updatable;
  }

  lemma DocsStay(docs: Documents, name: string)
    ensures DocsStep(docs, docs, name)
  {
  }

  /** Working on a campaign leaves its document, which can be updated exactly if the text could, and the others. */
  ghost predicate DocsFrom(docs: Documents, next: Documents, x: Campaign) {
    && DocsStep(docs, next, DocName(x))
    && DocName(x) in next && (Updatable(next[DocName(x)]) <==> Updatable(DocumentText(docs, x)))
  }

  lemma PlacedFrom(docs: Documents, x: Campaign)
    ensures DocsFrom(docs, Placed(docs, x), x)
  {
    hide Updatable, DocName, EnsureBlock;
    EnsuredUpdatableIff(x.markdown);
  }

  lemma FromStep(docs: Documents, placed: Documents, next: Documents, x: Campaign)
    requires DocsFrom(docs, placed, x) && DocsStep(placed, next, DocName(x))
    ensures DocsFrom(docs, next, x)
  {
    hide Updatable, DocName, DocumentText;
    DocsStepTransitive(docs, placed, next, DocName(x));
  }

  /** Whether a campaign's text can be updated does not depend on work on another one it agrees with. */
  lemma TextKept(docs: Documents, next: Documents, x: Campaign, y: Campaign)
    requires DocsFrom(docs, next, x) && AgreeOnText(docs, x, y)
    ensures Updatable(DocumentText(next, y)) <==> Updatable(DocumentText(docs, y))
  {
    hide Updatable, DocName;
  }

  lemma RecordedStep(docs: Documents, x: Campaign, t: string, sha: Sha)
    requires Ready(docs, x)
    ensures Recorded(docs, x, t, sha).Some? && DocsStep(docs, Recorded(docs, x, t, sha).value, DocName(x))
    ensures Ready(Recorded(docs, x, t, sha).value, x)
  {
    hide Updatable, DocName, UpdateBlock, ShaText;
    RecordedReady(docs, x, t, sha);
  }

  /** A merge that adds nothing leaves the schedule and the open campaigns as they were. */
  lemma QuietMergeKeeps(s: State, p: Proposal, audit: string)
    requires var m := MergeProposal(s, p, audit); m.error.None? && m.campaigns == 0 && m.tasks == 0
    ensures var m := MergeProposal(s, p, audit).state;
            SameSchedule(s, m) && AlikeBut(s, m, {}) && OpenCampaigns(m) == OpenCampaigns(s)
  {
    hide MergeProposal;
    MergeExtends(s, p, audit);
    MergeCountsExact(s, p, audit);
    QuietExtension(s, MergeProposal(s, p, audit).state);
  }

  lemma QuietExtension(s: State, m: State)
    requires Extends(s, m) && |m.campaigns| == |s.campaigns| && |Held(m)| == |Held(s)|
    ensures SameSchedule(s, m) && AlikeBut(s, m, {}) && OpenCampaigns(m) == OpenCampaigns(s)
  {
    assert s.campaigns.Keys <= m.campaigns.Keys;
    assert |s.campaigns.Keys| == |s.campaigns| && |m.campaigns.Keys| == |m.campaigns|;
    SubsetSize(s.campaigns.Keys, m.campaigns.Keys);
    HeldGrows(s, m);
    SubsetSize(Held(s), Held(m));
    hide KeepsCampaign, Held, Alike;
    forall c | c in s.campaigns
      ensures Alike(s.campaigns[c], m.campaigns[c]) && m.campaigns[c].dependsOn == s.campaigns[c].dependsOn
      ensures m.campaigns[c].status == s.campaigns[c].status
    {
      KeptAlike(s, m, c);
    }
  }

  lemma HeldGrows(s: State, m: State)
    requires Extends(s, m)
    ensures Held(s) <= Held(m)
  {
    forall c, t | (c, t) in Held(s)
      ensures (c, t) in Held(m)
    {
      assert KeepsCampaign(s.campaigns[c], m.campaigns[c]);
    }
  }

  lemma KeptAlike(s: State, m: State, c: string)
    requires Extends(s, m) && Held(s) == Held(m) && c in s.campaigns
    ensures c in m.campaigns && Alike(s.campaigns[c], m.campaigns[c])
    ensures m.campaigns[c].dependsOn == s.campaigns[c].dependsOn && m.campaigns[c].status == s.campaigns[c].status
  {
    assert KeepsCampaign(s.campaigns[c], m.campaigns[c]);
    forall t
      ensures t in s.campaigns[c].tasks <==> t in m.campaigns[c].tasks
    {
      assert (c, t) in Held(s) <==> (c, t) in Held(m);
    }
    assert m.campaigns[c].tasks == s.campaigns[c].tasks;
  }

  /** Every task has succeeded already, or commits can be recorded. */
  ghost predicate CanGoOn(l: Loop, c: string, ids: seq<string>)
    requires c in l.memory.campaigns && forall i :: 0 <= i < |ids| ==> HoldsTask(l.memory, c, ids[i])
  {
    || Ready(l.world.docs, l.memory.campaigns[c])
    || forall i :: 0 <= i < |ids| ==>
         HoldsTask(l.memory, c, ids[i]) && l.memory.campaigns[c].tasks[ids[i]].status == Success
  }

  lemma {:induction false} RunTasksSucceeds(l: Loop, input: PassInput, c: string, ids: seq<string>)
    requires AgentSucceeds(input) && l.stop.Running?
    requires c in l.memory.campaigns && forall i :: 0 <= i < |ids| ==> HoldsTask(l.memory, c, ids[i])
    requires CanGoOn(l, c, ids)
    ensures RunTasks(l, input, c, ids).stop.Running?
    ensures DocsStep(l.world.docs, RunTasks(l, input, c, ids).world.docs, DocName(l.memory.campaigns[c]))
    decreases |ids|
  {
    hide Ready, DocsStep, DocName;
    if ids == [] {
      DocsStay(l.world.docs, DocName(l.memory.campaigns[c]));
    } else {
      var rest := ids[1..];
      assert HoldsTask(l.memory, c, ids[0]);
      assert forall i :: 0 <= i < |rest| ==> rest[i] == ids[i + 1] && HoldsTask(l.memory, c, ids[i + 1]);
      hide RunTask;
      if l.memory.campaigns[c].tasks[ids[0]].status == Success {
        RunTasksSucceeds(l, input, c, rest);
      } else {
        RunTaskSucceeds(l, input, c, ids[0]);
        var next := RunTask(l, input, c, ids[0]);
        RunTasksSucceeds(next, input, c, rest);
        DocsStepTransitive(l.world.docs, next.world.docs, RunTasks(next, input, c, rest).world.docs,
                           DocName(l.memory.campaigns[c]));
      }
    }
  }

  lemma RunTaskSucceeds(l: Loop, input: PassInput, c: string, t: string)
    requires AgentSucceeds(input) && l.stop.Running? && HoldsTask(l.memory, c, t)
    requires Ready(l.world.docs, l.memory.campaigns[c])
    ensures var r := RunTask(l, input, c, t);
            && r.stop.Running? && c in r.memory.campaigns
            && DocName(r.memory.campaigns[c]) == DocName(l.memory.campaigns[c])
            && DocsStep(l.world.docs, r.world.docs, DocName(l.memory.campaigns[c]))
               && Ready(r.world.docs, r.memory.campaigns[c])
  {
    hide StateHash, Recorded, Ready, DocsStep, DocName;
    var x := l.memory.campaigns[c];
    RecordedStep(l.world.docs, x, t, |l.world.commits|);
    assert l.world.docs + map[] == l.world.docs;
    assert input.agent(t).edits == map[];
    var r := RunTask(l, input, c, t);
    ReadyByName(r.world.docs, x, r.memory.campaigns[c]);
    SameName(x, r.memory.campaigns[c]);
  }

  lemma ReadyByName(docs: Documents, x: Campaign, y: Campaign)
    requires x.slug == y.slug && x.date == y.date && x.seqNo == y.seqNo
    ensures Ready(docs, x) == Ready(docs, y)
  {
    SameName(x, y);
  }

  /** The first task that has not succeeded is committed and then refused by the document. */
  lemma {:induction false} RunTasksRefused(l: Loop, input: PassInput, c: string, ids: seq<string>)
    requires AgentSucceeds(input) && l.stop.Running?
    requires c in l.memory.campaigns && forall i :: 0 <= i < |ids| ==> HoldsTask(l.memory, c, ids[i])
    requires forall t :: Recorded(l.world.docs, l.memory.campaigns[c], t, |l.world.commits|).None?
    requires AllHeld(l.memory.campaigns[c].tasks, ids) && Unfinished(l.memory.campaigns[c].tasks, ids) != []
    ensures var r := RunTasks(l, input, c, ids);
            && r.stop.Raised? && r.world.disk == l.world.disk && r.world.log == l.world.log
               && r.world.docs == l.world.docs
            && r.world.commits == l.world.commits + [Implementation(c, Unfinished(l.memory.campaigns[c].tasks, ids)[0])]
    decreases |ids|
  {
    hide Recorded;
    var rest := ids[1..];
    assert HoldsTask(l.memory, c, ids[0]);
    assert forall i :: 0 <= i < |rest| ==> rest[i] == ids[i + 1] && HoldsTask(l.memory, c, ids[i + 1]);
    hide RunTask;
    if l.memory.campaigns[c].tasks[ids[0]].status == Success {
      assert [] + Unfinished(l.memory.campaigns[c].tasks, rest) == Unfinished(l.memory.campaigns[c].tasks, rest);
      RunTasksRefused(l, input, c, rest);
    } else {
      RunTaskRefused(l, input, c, ids[0]);
      var next := RunTask(l, input, c, ids[0]);
      assert RunTasks(next, input, c, rest) == next;
    }
  }

  lemma RunTaskRefused(l: Loop, input: PassInput, c: string, t: string)
    requires AgentSucceeds(input) && l.stop.Running? && HoldsTask(l.memory, c, t)
    requires Recorded(l.world.docs, l.memory.campaigns[c], t, |l.world.commits|).None?
    ensures var r := RunTask(l, input, c, t);
            && r.stop.Raised? && r.world.disk == l.world.disk && r.world.log == l.world.log
               && r.world.docs == l.world.docs
            && r.world.commits == l.world.commits + [Implementation(c, t)]
  {
    hide StateHash, Recorded, SetTask;
    assert input.agent(t).edits == map[];
    assert l.world.docs + map[] == l.world.docs;
  }

  /** The first task in id order that has not succeeded. */
  ghost function FirstUnfinished(x: Campaign): Option<string> {
    var u := UnfinishedOf(x);
    if u == [] then None else Some(u[0])
  }

  /** The selected campaign has no two tasks for one file, and its document is not needed or can be recorded in. */
  ghost predicate CanComplete(docs: Documents, x: Campaign) {
    !StemsCollide(x) && (AllSucceeded(x) || Updatable(DocumentText(docs, x)))
  }

  /** With tasks and a succeeding agent, working on a campaign that can complete completes it. */
  lemma RunSelectedCompletes(w: World, m: State, input: PassInput, previous: StateSha, c: string)
    requires AgentSucceeds(input) && input.mode.Execute?
    requires c in m.campaigns && m.campaigns[c].tasks != map[] && CanComplete(w.docs, m.campaigns[c])
    ensures var r := RunSelected(w, m, input, previous, c);
            && r.end == ExecutionComplete && c in r.world.disk.campaigns
               && r.world.disk.campaigns[c].status == Completed
            && r.world.disk.campaigns.Keys == m.campaigns.Keys
  {
    hide RunTasks, StateHash, RunSelected, WorkOn, Finish, SortedKeys, Materialize, Completing, CleanFrontier, Started;
    hide StemsCollide, Updatable, DocumentText, Ready, DocsFrom;
    var worked := WorkSucceeds(w, m, input, previous, c);
    RunSelectedNotAborted(w, m, input, previous, c, worked);
    RunSelectedIsFinish(w, m, input, previous, c, worked);
    var k, _ := RunSelectedFrontier(w, m, input, previous, c);
  }

  /** The work on such a campaign runs to its end. */
  lemma WorkSucceeds(w: World, m: State, input: PassInput, previous: StateSha, c: string) returns (worked: Loop)
    requires AgentSucceeds(input) && input.mode.Execute?
    requires c in m.campaigns && m.campaigns[c].tasks != map[] && CanComplete(w.docs, m.campaigns[c])
    ensures Materialize(m.campaigns[c]).Some?
    ensures worked == WorkOn(Started(w, m, previous, c), input, c) && worked.stop.Running?
    ensures DocsFrom(w.docs, worked.world.docs, m.campaigns[c])
  {
    hide RunTasks, WorkOn, SortedKeys, Materialize, Started, StemsCollide, Updatable, DocumentText, Ready, DocsStep;
    hide DocsFrom, Placed, DocName;
    NoCollisionMaterializes(m.campaigns[c]);
    StartedShape(w, m, previous, c);
    var l := Started(w, m, previous, c);
    worked := RunTasksOn(l, input, c);
    var ids := SortedKeys(l.memory.campaigns[c].tasks.Keys);
    if Updatable(DocumentText(w.docs, m.campaigns[c])) {
      PlacedReady(w.docs, m.campaigns[c]);
      ReadyByName(l.world.docs, m.campaigns[c], l.memory.campaigns[c]);
    }
    RunTasksSucceeds(l, input, c, ids);
    PlacedFrom(w.docs, m.campaigns[c]);
    SameName(m.campaigns[c], l.memory.campaigns[c]);
    FromStep(w.docs, l.world.docs, worked.world.docs, m.campaigns[c]);
  }

  lemma NoCollisionMaterializes(x: Campaign)
    requires !StemsCollide(x)
    ensures Materialize(x).Some? && Materialize(x).value.tasks == x.tasks
  {
    hide StemsCollide, DocName, Stems;
  }

  lemma RunSelectedNotAborted(w: World, m: State, input: PassInput, previous: StateSha, c: string, worked: Loop)
    requires input.mode.Execute? && c in m.campaigns && m.campaigns[c].tasks != map[]
    requires Materialize(m.campaigns[c]).Some? && worked.stop.Running?
    requires worked == WorkOn(Started(w, m, previous, c), input, c)
    ensures RunSelected(w, m, input, previous, c).end != Aborted
    ensures RunSelected(w, m, input, previous, c).world.docs == worked.world.docs
  {
    hide Materialize, WorkOn, StateHash, Started, Completing;
    RunSelectedShape(w, m, input, previous, c);
  }

  /** What completing the selected campaign leaves for the next pass. */
  lemma CompletedSchedule(w: World, m: State, input: PassInput, previous: StateSha, c: string)
    requires AgentSucceeds(input) && input.mode.Execute?
    requires c in OpenCampaigns(m) && m.campaigns[c].tasks != map[] && CanComplete(w.docs, m.campaigns[c])
    ensures var next := RunSelected(w, m, input, previous, c).world;
            && SameSchedule(m, next.disk) && AlikeBut(m, next.disk, {c})
            && OpenCampaigns(next.disk) == OpenCampaigns(m) - {c} && DocsFrom(w.docs, next.docs, m.campaigns[c])
  {
    hide RunTasks, StateHash, RunSelected, WorkOn, Finish, AllSucceeded, SortedKeys, Materialize, Touches;
    hide CleanFrontier, Started;
    hide Completing, StemsCollide, Updatable, DocumentText, DocsFrom, Placed, Alike;
    NoCollisionMaterializes(m.campaigns[c]);
    StartedShape(w, m, previous, c);
    var l := Started(w, m, previous, c);
    var worked := WorkSucceeds(w, m, input, previous, c);
    RunSelectedNotAborted(w, m, input, previous, c, worked);
    RunSelectedIsFinish(w, m, input, previous, c, worked);
    RunSelectedCompletes(w, m, input, previous, c);
    MaterializeTouches(m, c, l.memory.campaigns[c]);
    WorkOnTouches(l, input, c, w.disk, m);
    CompletingSchedule(m, worked.memory, c);
  }

  lemma CompletingSchedule(m: State, s: State, c: string)
    requires Touches(m, s, c) && Completing(s, c).campaigns[c].status == Completed
    ensures var next := Completing(s, c);
            SameSchedule(m, next) && AlikeBut(m, next, {c}) && OpenCampaigns(next) == OpenCampaigns(m) - {c}
  {
    hide AllSucceeded, SameWork;
    var next := Completing(s, c);
    forall d | d in m.campaigns && d != c
      ensures next.campaigns[d] == m.campaigns[d]
    {
    }
  }

  // ---------------------------------------------------------------- productive passes

  /** Every open campaign could be completed. */
  ghost predicate AllCanComplete(w: World) {
    forall c :: c in OpenCampaigns(w.disk) ==> CanComplete(w.docs, w.disk.campaigns[c])
  }

  /** The open campaigns of `b` can be completed exactly if they could in `a`. */
  ghost predicate SameChances(a: World, b: World) {
    forall c :: c in OpenCampaigns(b.disk) ==>
      && c in OpenCampaigns(a.disk)
      && (CanComplete(b.docs, b.disk.campaigns[c]) <==> CanComplete(a.docs, a.disk.campaigns[c]))
  }

  /** Work on one campaign keeps the chances of all others, and what makes the state schedulable. */
  lemma OthersKeep(a: World, b: World, c: string, except: set<string>)
    requires OpenHaveTasks(a.disk) && DocumentsAgree(a.docs, a.disk)
    requires AlikeBut(a.disk, b.disk, except) && OpenCampaigns(b.disk) == OpenCampaigns(a.disk) - except
    requires c in OpenCampaigns(a.disk) && DocsFrom(a.docs, b.docs, a.disk.campaigns[c])
    ensures OpenHaveTasks(b.disk) && DocumentsAgree(b.docs, b.disk) && SameChances(a, b)
  {
    hide Updatable, DocName, DocsFrom, CanComplete, DocumentText;
    var x := a.disk.campaigns[c];
    forall d | d in OpenCampaigns(b.disk)
      ensures b.disk.campaigns[d].tasks != map[] && d in OpenCampaigns(a.disk)
      ensures CanComplete(b.docs, b.disk.campaigns[d]) <==> CanComplete(a.docs, a.disk.campaigns[d])
      ensures DocName(b.disk.campaigns[d]) == DocName(a.disk.campaigns[d])
      ensures Updatable(DocumentText(b.docs, b.disk.campaigns[d]))
              <==> Updatable(DocumentText(a.docs, a.disk.campaigns[d]))
    {
      OtherKeeps(a, b, x, a.disk.campaigns[d], b.disk.campaigns[d]);
    }
    forall d, e | d in OpenCampaigns(b.disk) && e in OpenCampaigns(b.disk)
      ensures AgreeOnText(b.docs, b.disk.campaigns[d], b.disk.campaigns[e])
    {
      assert AgreeOnText(a.docs, a.disk.campaigns[d], a.disk.campaigns[e]);
    }
  }

  lemma OtherKeeps(a: World, b: World, x: Campaign, y: Campaign, z: Campaign)
    requires DocsFrom(a.docs, b.docs, x) && AgreeOnText(a.docs, x, y) && Alike(y, z)
    ensures DocName(z) == DocName(y)
    ensures Updatable(DocumentText(b.docs, z)) <==> Updatable(DocumentText(a.docs, y))
    ensures CanComplete(b.docs, z) <==> CanComplete(a.docs, y)
  {
    hide Updatable, DocName, DocsFrom, DocumentText, StemsCollide, AgreeOnText;
    TextKept(a.docs, b.docs, x, y);
    AlikeCompletes(b.docs, y, z);
  }

  /** A merge that adds nothing keeps all chances. */
  lemma MergeKeepsChances(w: World, m: State)
    requires OpenHaveTasks(w.disk) && DocumentsAgree(w.docs, w.disk)
    requires AlikeBut(w.disk, m, {}) && OpenCampaigns(m) == OpenCampaigns(w.disk)
    ensures OpenHaveTasks(m) && DocumentsAgree(w.docs, m) && SameChances(w, w.(disk := m))
  {
    hide Updatable, DocName, CanComplete, DocumentText;
    forall d | d in OpenCampaigns(m)
      ensures m.campaigns[d].tasks != map[] && d in OpenCampaigns(w.disk)
      ensures CanComplete(w.docs, m.campaigns[d]) <==> CanComplete(w.docs, w.disk.campaigns[d])
      ensures DocName(m.campaigns[d]) == DocName(w.disk.campaigns[d])
      ensures DocumentText(w.docs, m.campaigns[d]) == DocumentText(w.docs, w.disk.campaigns[d])
    {
      AlikeCompletes(w.docs, w.disk.campaigns[d], m.campaigns[d]);
    }
    forall d, e | d in OpenCampaigns(m) && e in OpenCampaigns(m)
      ensures AgreeOnText(w.docs, m.campaigns[d], m.campaigns[e])
    {
      assert AgreeOnText(w.docs, w.disk.campaigns[d], w.disk.campaigns[e]);
    }
  }

  lemma ChancesTransitive(a: World, b: World, c: World)
    requires SameChances(a, b) && SameChances(b, c)
    ensures SameChances(a, c)
  {
    hide CanComplete, OpenCampaigns;
  }

  /** The pass completes the open campaign it selects, if that can be completed, and changes nobody's chances. */
  ghost predicate Advances(a: World, b: World, c: string)
    requires c in OpenCampaigns(a.disk)
  {
    && SameChances(a, b)
    && OpenCampaigns(b.disk) ==
       if CanComplete(a.docs, a.disk.campaigns[c]) then OpenCampaigns(a.disk) - {c} else OpenCampaigns(a.disk)
  }

  lemma SelectedAdvances(w: World, input: PassInput, m: State, c: string, rank: map<string, nat>)
    requires WellFormed(w.disk) && PassMerged(w, input, m) && OrderedKeys(m) && Select(m) == Some(c)
    requires AgentSucceeds(input) && input.mode.Execute? && c in OpenCampaigns(m)
    requires Schedulable(w, rank) && SameSchedule(w.disk, m) && AlikeBut(w.disk, m, {})
             && OpenCampaigns(m) == OpenCampaigns(w.disk)
    ensures var next := RunPass(w, input).world;
            Schedulable(next, rank) && c in OpenCampaigns(w.disk) && Advances(w, next, c)
  {
    hide MergeProposal, Select, RunSelected, WellFormed, StateHash, Acyclic, OpenCampaigns, SameSchedule;
    hide OpenHaveTasks, DocumentsAgree;
    hide CanComplete, DocsFrom, AlikeBut, SameChances, Placed, AgentSucceeds, StemsCollide, FirstUnfinished;
    MergeKeepsChances(w, m);
    OpenHasTasks(m, c);
    OpenHasTasks(w.disk, c);
    var x, merged, next := m.campaigns[c], w.(disk := m), RunPass(w, input).world;
    AcyclicKept(w.disk, m, rank);
    ChanceOf(w, merged, c);
    if CanComplete(w.docs, x) {
      CompletedSchedule(w, m, input, StateHash(w.disk), c);
      OthersKeep(merged, next, c, {c});
      AcyclicKept(m, next.disk, rank);
      ChancesTransitive(w, merged, next);
    } else {
      StuckPass(w, input, m, c);
      PlacedFrom(w.docs, x);
      AlikeItself(w.disk);
      AlikeFrom(w, merged, next, c);
      OthersKeep(w, next, c, {});
    }
  }

  lemma OpenHasTasks(s: State, c: string)
    requires OpenHaveTasks(s) && c in OpenCampaigns(s)
    ensures c in s.campaigns && s.campaigns[c].tasks != map[]
  {
  }

  lemma ChanceOf(a: World, b: World, c: string)
    requires SameChances(a, b) && c in OpenCampaigns(b.disk)
    ensures c in OpenCampaigns(a.disk)
    ensures CanComplete(b.docs, b.disk.campaigns[c]) <==> CanComplete(a.docs, a.disk.campaigns[c])
  {
    hide CanComplete;
  }

  lemma AlikeItself(s: State)
    ensures AlikeBut(s, s, {})
  {
  }

  /** The document placed is the same whether the campaign is taken before or after the merge. */
  lemma AlikeFrom(w: World, merged: World, next: World, c: string)
    requires AlikeBut(w.disk, merged.disk, {}) && c in w.disk.campaigns && c in merged.disk.campaigns
    requires DocsFrom(w.docs, next.docs, merged.disk.campaigns[c])
    ensures DocsFrom(w.docs, next.docs, w.disk.campaigns[c])
  {
    hide Updatable, DocName, DocsStep, DocumentText;
    AlikeCompletes(w.docs, w.disk.campaigns[c], merged.disk.campaigns[c]);
  }

  lemma StuckPass(w: World, input: PassInput, m: State, c: string)
    requires WellFormed(w.disk) && PassMerged(w, input, m) && OrderedKeys(m) && Select(m) == Some(c)
    requires input.mode.Execute? && AgentSucceeds(input) && c in m.campaigns && m.campaigns[c].tasks != map[]
    requires !CanComplete(w.docs, m.campaigns[c])
    ensures var next := RunPass(w, input).world; next.disk == w.disk && next.docs == Placed(w.docs, m.campaigns[c])
  {
    hide MergeProposal, Select, RunSelected, WellFormed, StateHash, StemsCollide, Placed, CanComplete;
    hide FirstUnfinished, AgentSucceeds;
    if StemsCollide(m.campaigns[c]) {
      CollisionAborts(w, m, input, StateHash(w.disk), c);
    } else {
      RefusedAborts(w, m, input, StateHash(w.disk), c);
    }
  }

  /**
   A productive pass completes one open campaign, which could be completed, or selects one that cannot be and
   leaves all open ones open. No campaign's chances change.
   */
  lemma ProductivePass(w: World, input: PassInput, rank: map<string, nat>)
    requires WellFormed(w.disk) && Schedulable(w, rank) && Productive(w, input)
    ensures var next := RunPass(w, input).world;
            && Schedulable(next, rank)
            && (OpenCampaigns(w.disk) == {} ==> OpenCampaigns(next.disk) == {})
            && (OpenCampaigns(w.disk) != {} ==> exists c :: c in OpenCampaigns(w.disk) && Advances(w, next, c))
  {
    hide MergeProposal, Select, RunPass, WellFormed, Acyclic, OpenCampaigns, SameSchedule, OpenHaveTasks;
    hide DocumentsAgree;
    hide AlikeBut, Advances, AgentSucceeds;
    var m := MergeProposal(w.disk, input.proposal, AuditId(input)).state;
    MergeWellFormed(w.disk, input.proposal, AuditId(input));
    QuietMergeKeeps(w.disk, input.proposal, AuditId(input));
    AcyclicKept(w.disk, m, rank);
    SelectNoneIff(m, rank);
    if Select(m).Some? {
      SelectedAdvances(w, input, m, Select(m).value, rank);
    } else {
      NothingSelected(w, input, m);
      MergeKeepsChances(w, m);
    }
  }

  lemma NothingSelected(w: World, input: PassInput, m: State)
    requires WellFormed(w.disk) && PassMerged(w, input, m) && OrderedKeys(m) && Select(m).None?
    ensures RunPass(w, input).world.disk == m && RunPass(w, input).world.docs == w.docs
  {
    hide MergeProposal, Select, WellFormed, StateHash;
  }

  ghost predicate ProductiveRun(w: World, inputs: seq<PassInput>)
    requires WellFormed(w.disk)
    decreases |inputs|
  {
    hide RunPass, WellFormed;
    if inputs == [] then true
    else
      PassKeepsWellFormed(w, inputs[0]);
      Productive(w, inputs[0]) && ProductiveRun(RunPass(w, inputs[0]).world, inputs[1..])
  }

  /**
   From a schedulable state, productive passes never complete a campaign that cannot be completed at the
   start. If there is none, each pass completes one until no campaign is open.
   */
  lemma {:induction false} PassesComplete(w: World, inputs: seq<PassInput>, rank: map<string, nat>)
    requires WellFormed(w.disk) && Schedulable(w, rank) && ProductiveRun(w, inputs)
    ensures var left := OpenCampaigns(RunAll(w, inputs).disk);
            && left <= OpenCampaigns(w.disk)
            && (forall c :: c in OpenCampaigns(w.disk) && !CanComplete(w.docs, w.disk.campaigns[c]) ==> c in left)
            && (AllCanComplete(w) ==>
                  |left| == if |inputs| <= |OpenCampaigns(w.disk)| then |OpenCampaigns(w.disk)| - |inputs| else 0)
    decreases |inputs|
  {
    hide RunPass, WellFormed, Schedulable, OpenCampaigns, Productive, CanComplete;
    if inputs != [] {
      var next := RunPass(w, inputs[0]).world;
      PassKeepsWellFormed(w, inputs[0]);
      ProductivePass(w, inputs[0], rank);
      PassesComplete(next, inputs[1..], rank);
      if OpenCampaigns(w.disk) != {} {
        var c :| c in OpenCampaigns(w.disk) && Advances(w, next, c);
      }
    }
  }

  /** Given enough productive passes, all campaigns are completed exactly when each open one could be. */
  lemma PassesCompleteIff(w: World, inputs: seq<PassInput>, rank: map<string, nat>)
    requires WellFormed(w.disk) && Schedulable(w, rank) && ProductiveRun(w, inputs)
             && |inputs| >= |OpenCampaigns(w.disk)|
    ensures OpenCampaigns(RunAll(w, inputs).disk) == {} <==> AllCanComplete(w)
  {
    hide RunAll, WellFormed, Schedulable, OpenCampaigns, ProductiveRun, CanComplete;
    PassesComplete(w, inputs, rank);
  }

  // ---------------------------------------------------------------- campaigns that cannot be completed

  /**
   A pass whose agent always succeeds completes the campaign it selects exactly when no two of its tasks
   would be written to one file and, unless they all have succeeded already, its document can be recorded
   in. When two would share a file nothing but the document is written. When the document cannot be
   recorded in, the first unfinished task is committed, and state and log stay as they were.
   */
  lemma SelectedCompletesIff(w: World, input: PassInput, m: State, c: string)
    requires WellFormed(w.disk) && PassMerged(w, input, m) && OrderedKeys(m) && Select(m) == Some(c)
    requires input.mode.Execute? && AgentSucceeds(input) && c in m.campaigns && m.campaigns[c].tasks != map[]
    ensures var r, x := RunPass(w, input), m.campaigns[c];
            && (c in r.world.disk.campaigns && r.world.disk.campaigns[c].status == Completed
                <==> CanComplete(w.docs, x))
            && (StemsCollide(x) ==> r == PassResult(w.(docs := Placed(w.docs, x)), Aborted))
            && (!StemsCollide(x) && !CanComplete(w.docs, x) ==>
                  && r.end == Aborted && r.world.disk == w.disk && r.world.log == w.log && FirstUnfinished(x).Some?
                  && r.world.commits == w.commits + [Implementation(c, FirstUnfinished(x).value)])
  {
    hide MergeProposal, Select, RunSelected, WellFormed, StateHash, StemsCollide, Extends, Placed, CanComplete;
    hide FirstUnfinished;
    var x := m.campaigns[c];
    SelectedStillOpen(w, input, m, c);
    CollidingCannot(w.docs, x);
    if StemsCollide(x) {
      CollisionAborts(w, m, input, StateHash(w.disk), c);
    } else if CanComplete(w.docs, x) {
      RunSelectedCompletes(w, m, input, StateHash(w.disk), c);
    } else {
      RefusedAborts(w, m, input, StateHash(w.disk), c);
    }
  }

  lemma CollidingCannot(docs: Documents, x: Campaign)
    ensures StemsCollide(x) ==> !CanComplete(docs, x)
  {
  }

  lemma CollisionAborts(w: World, m: State, input: PassInput, previous: StateSha, c: string)
    requires c in m.campaigns && StemsCollide(m.campaigns[c])
    ensures RunSelected(w, m, input, previous, c) == PassResult(w.(docs := Placed(w.docs, m.campaigns[c])), Aborted)
  {
    hide StemsCollide, DocName, Stems, WorkOn, Finish, Placed;
  }

  /** Some task has not succeeded and the document refuses to record it. */
  lemma RefusedAborts(w: World, m: State, input: PassInput, previous: StateSha, c: string)
    requires AgentSucceeds(input) && input.mode.Execute? && c in m.campaigns && m.campaigns[c].tasks != map[]
    requires !StemsCollide(m.campaigns[c]) && !CanComplete(w.docs, m.campaigns[c])
    ensures var r, x := RunSelected(w, m, input, previous, c), m.campaigns[c];
            && r.end == Aborted && r.world.disk == w.disk && r.world.log == w.log && FirstUnfinished(x).Some?
            && r.world.commits == w.commits + [Implementation(c, FirstUnfinished(x).value)]
            && r.world.docs == Placed(w.docs, x)
  {
    hide RunTasks, WorkOn, RunSelected, Started, Materialize, StemsCollide, Updatable, DocumentText, SortedKeys;
    hide Completing, Finish;
    hide Placed, Recorded, Unfinished, StateHash;
    var x := m.campaigns[c];
    NoCollisionMaterializes(x);
    RunSelectedShape(w, m, input, previous, c);
    StartedShape(w, m, previous, c);
    var l := Started(w, m, previous, c);
    var worked := RunTasksOn(l, input, c);
    forall t
      ensures Recorded(l.world.docs, l.memory.campaigns[c], t, |l.world.commits|).None?
    {
      PlacedRecordsIff(w.docs, x, t, |w.commits|);
      SameName(x, l.memory.campaigns[c]);
      SameRecorded(l.world.docs, x, l.memory.campaigns[c], t, |w.commits|);
    }
    SomeLeft(x.tasks, SortedKeys(x.tasks.Keys));
    RunTasksRefused(l, input, c, SortedKeys(x.tasks.Keys));
  }

  lemma {:induction false} NoneLeft(tasks: map<string, Task>, ids: seq<string>, t: string)
    requires AllHeld(tasks, ids) && Unfinished(tasks, ids) == [] && t in ids
    ensures tasks[t].status == Success
  {
    assert forall i :: 0 <= i < |ids[1..]| ==> ids[1..][i] == ids[i + 1];
    if t != ids[0] {
      assert ids == [ids[0]] + ids[1..];
      NoneLeft(tasks, ids[1..], t);
    }
  }

  lemma SomeLeft(tasks: map<string, Task>, ids: seq<string>)
    requires AllHeld(tasks, ids) && forall t :: t in ids <==> t in tasks
    requires exists t :: t in tasks && tasks[t].status != Success
    ensures Unfinished(tasks, ids) != []
  {
    var t :| t in tasks && tasks[t].status != Success;
    if Unfinished(tasks, ids) == [] {
      NoneLeft(tasks, ids, t);
    }
  }

  lemma SelectedStillOpen(w: World, input: PassInput, m: State, c: string)
    requires WellFormed(w.disk) && PassMerged(w, input, m) && OrderedKeys(m) && Select(m) == Some(c)
    ensures c in w.disk.campaigns ==> w.disk.campaigns[c].status != Completed
  {
    hide MergeProposal, Select, WellFormed;
    MergeWellFormed(w.disk, input.proposal, AuditId(input));
    MergeExtends(w.disk, input.proposal, AuditId(input));
    SelectedEligible(m);
  }

  /** The pass fails early, fails to merge, or selects a campaign of which it cannot complete a task. */
  ghost predicate Stalls(w: World, input: PassInput)
    requires WellFormed(w.disk)
  {
    var selected := PassSelection(w, input);
    || input.stagesFail
    || MergeProposal(w.disk, input.proposal, AuditId(input)).error.Some?
    || (selected.Some?
        && var x := selected.value.0.campaigns[selected.value.1];
           || StemsCollide(x)
           || (input.mode.Execute? && AgentSucceeds(input) && x.tasks != map[] && !CanComplete(w.docs, x)))
  }

  /** Each pass of the run stalls where it finds the world. */
  ghost predicate AlwaysStalls(w: World, inputs: seq<PassInput>)
    requires WellFormed(w.disk)
    decreases |inputs|
  {
    hide RunPass, WellFormed, Stalls;
    if inputs == [] then true
    else
      PassKeepsWellFormed(w, inputs[0]);
      Stalls(w, inputs[0]) && AlwaysStalls(RunPass(w, inputs[0]).world, inputs[1..])
  }

  /** Such a campaign is never got past: as long as it is the one selected, state and log never change. */
  lemma {:induction false} StalledRun(w: World, inputs: seq<PassInput>)
    requires WellFormed(w.disk) && AlwaysStalls(w, inputs)
    ensures RunAll(w, inputs).disk == w.disk && RunAll(w, inputs).log == w.log
    decreases |inputs|
  {
    hide WellFormed, RunPass, Stalls;
    if inputs != [] {
      PassKeepsWellFormed(w, inputs[0]);
      StalledPass(w, inputs[0]);
      StalledRun(RunPass(w, inputs[0]).world, inputs[1..]);
    }
  }

  function Repeat(input: PassInput, n: nat): seq<PassInput> {
    if n == 0 then [] else [input] + Repeat(input, n - 1)
  }

  /** Once the document is placed, the campaign can be completed exactly if it could before. */
  lemma PlacedChances(docs: Documents, x: Campaign)
    ensures CanComplete(Placed(docs, x), x) <==> CanComplete(docs, x)
  {
    hide Updatable, DocName, EnsureBlock, StemsCollide, AllSucceeded;
    EnsuredUpdatableIff(x.markdown);
  }

  /** An input that stalls stalls again in the world it leaves. */
  lemma StallsAgain(w: World, input: PassInput)
    requires WellFormed(w.disk) && Stalls(w, input)
    ensures var next := RunPass(w, input).world; next.disk == w.disk && next.log == w.log && Stalls(next, input)
  {
    hide MergeProposal, Select, RunSelected, WellFormed, StateHash, StemsCollide, CanComplete, AgentSucceeds;
    hide Eligible, Placed;
    hide FirstUnfinished;
    StalledPass(w, input);
    var selected := PassSelection(w, input);
    if selected.Some? {
      var m, c := selected.value.0, selected.value.1;
      PlacedChances(w.docs, m.campaigns[c]);
      if StemsCollide(m.campaigns[c]) {
        CollisionAborts(w, m, input, StateHash(w.disk), c);
      } else {
        RefusedAborts(w, m, input, StateHash(w.disk), c);
      }
    }
  }

  /** So it stalls forever: repeating it any number of times never changes state or log, and every pass is aborted. */
  lemma {:induction false} StallsForever(w: World, input: PassInput, n: nat)
    requires WellFormed(w.disk) && Stalls(w, input)
    ensures var after := RunAll(w, Repeat(input, n));
            && after.disk == w.disk && after.log == w.log && Stalls(after, input)
               && RunPass(after, input).end == Aborted
    decreases n
  {
    hide WellFormed, RunPass, Stalls;
    if n == 0 {
      StalledPass(w, input);
    } else {
      var next := RunPass(w, input).world;
      StallsAgain(w, input);
      StallsForever(next, input, n - 1);
      assert ([input] + Repeat(input, n - 1))[1..] == Repeat(input, n - 1);
      PassKeepsWellFormed(w, input);
    }
  }

  lemma StalledPass(w: World, input: PassInput)
    requires WellFormed(w.disk) && Stalls(w, input)
    ensures var r := RunPass(w, input); r.end == Aborted && r.world.disk == w.disk && r.world.log == w.log
  {
    hide MergeProposal, Select, RunSelected, WellFormed, StateHash, StemsCollide, CanComplete, AgentSucceeds, Eligible;
    var selected := PassSelection(w, input);
    if selected.Some? {
      var m, c := selected.value.0, selected.value.1;
      if StemsCollide(m.campaigns[c]) {
        CollisionAborts(w, m, input, StateHash(w.disk), c);
      } else {
        RefusedAborts(w, m, input, StateHash(w.disk), c);
      }
    }
  }
}
