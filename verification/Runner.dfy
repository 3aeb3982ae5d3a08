/**
 One pass of the runner over the world it persists: the state file, the transition log, the commit list
 and the campaign documents (codex_runner/runner.py, run_pass and run_fixture_materialization).
 */
module Runner {
  import opened Wrappers
  import opened Text
  import opened Decimal
  import opened MappingBlock
  import opened Tasks
  import opened Campaigns
  import opened Merge
  import opened Confluence
  import opened Selection

  // ---------------------------------------------------------------- the world

  /** `state_hash`: a free constructor over everything but dictionary order. */
  datatype StateSha = StateSha(campaigns: map<string, Campaign>, byId: map<string, IdEntry>, bySlug: map<string,
                               SlugEntry>)

  function StateHash(s: State): StateSha {
    StateSha(s.campaigns, s.byId, s.bySlug)
  }

  datatype Reason = TaskReceipt(task: string) | DiscoveryBlocked | PassComplete | FixtureComplete

  datatype Transition = Transition(runId: string, reason: Reason, previous: StateSha, post: StateSha)

  datatype Commit =
    | Implementation(campaign: string, task: string)
    | Receipt(campaign: string, task: string)
    | RunReceipt(runId: string)

  /** The campaign documents, by file name. */
  type Documents = map<string, string>

  datatype World = World(disk: State, log: seq<Transition>, commits: seq<Commit>, docs: Documents)

  /** No state file, no log, no commits, no documents. */
  const NEW_WORLD := World(EMPTY_STATE, [], [], map[])

  // ---------------------------------------------------------------- what a pass is given

  /** In fixture mode the audit is the one the fixture files name. */
  datatype Mode = Execute | DryRun | Fixtures(auditId: string)

  /**
   What the agent, git and the file system do when one task is run: where they fail first, if they do, and
   the campaign documents the agent rewrites. The runner's own errors are not among these outcomes.
   */
  datatype TaskOutcome =
    | FailsBeforeCommit(edits: Documents)
    | FailsAfterCommit(result: AgentResult, edits: Documents)
    | FailsAfterSave(result: AgentResult, edits: Documents)
    | Finishes(result: AgentResult, edits: Documents)

  datatype PassInput = PassInput(
    runId: string,
    proposal: Proposal,
    mode: Mode,
    allowDiscovery: bool,
    stagesFail: bool,
    agent: string -> TaskOutcome,
    commitsAtEnd: bool)

  const AUDIT_PREFIX: string := "AUDIT_"

  function AuditOf(runId: string): string { AUDIT_PREFIX + runId }

  function AuditId(input: PassInput): string {
    if input.mode.Fixtures? then input.mode.auditId else AuditOf(input.runId)
  }

  /** `audit_id.removeprefix("AUDIT_")` in fixture mode, the given id otherwise. */
  function RunId(input: PassInput): string {
    if !input.mode.Fixtures? then input.runId
    else if AUDIT_PREFIX <= input.mode.auditId then input.mode.auditId[|AUDIT_PREFIX|..]
    else input.mode.auditId
  }

  // ---------------------------------------------------------------- document names

  predicate IsAlnum(c: char) { IsDigit(c) || IsLower(c) || IsUpper(c) }

  /** Every run of characters that are not kept becomes one underscore. */
  function Underscored(s: string, after: bool): string {
    if s == "" then ""
    else if IsAlnum(s[0]) then [s[0]] + Underscored(s[1..], false)
    else (if after then "" else "_") + Underscored(s[1..], true)
  }

  function TrimUnderscores(s: string): string
    decreases |s|
  {
    if s != "" && s[0] == '_' then TrimUnderscores(s[1..])
    else if s != "" && s[|s| - 1] == '_' then TrimUnderscores(s[..|s| - 1])
    else s
  }

  /** `to_lower_snake`. */
  function LowerSnake(s: string): string {
    var name := TrimUnderscores(Underscored(ToLower(Strip(s)), false));
    if name == "" then "task" else name
  }

  /** `to_upper_snake`. */
  function UpperSnake(s: string): string {
    var name := ToUpper(TrimUnderscores(Underscored(Strip(s), false)));
    if name == "" then "CAMPAIGN" else name
  }

  function DashesToUnderscores(s: string): string {
    if s == "" then "" else [if s[0] == '-' then '_' else s[0]] + DashesToUnderscores(s[1..])
  }

  function DocName(c: Campaign): string {
    "CAMPAIGN_" + DashesToUnderscores(c.date) + "_" + UpperSnake(c.slug) + "_" + c.seqNo + ".md"
  }

  function Stem(c: Campaign, slug: string): string {
    LowerSnake(slug) + "_" + DashesToUnderscores(c.date)
  }

  /** Two tasks of the campaign would be written to one file. */
  predicate StemsCollide(c: Campaign) {
    exists t, u :: t in c.tasks && u in c.tasks && t != u
                && Stem(c, c.tasks[t].content.slug) == Stem(c, c.tasks[u].content.slug)
  }

  function Stems(c: Campaign): map<string, string> {
    c.materialized.taskStems + map t | t in c.tasks :: Stem(c, c.tasks[t].content.slug)
  }

  /** `materialize_campaign_artifacts` on the record; `None` is the path-collision error. */
  function Materialize(c: Campaign): Option<Campaign> {
    if StemsCollide(c) then None else Some(c.(materialized := Materialized(Some(DocName(c)), Stems(c))))
  }

  /** The campaign's document is written once, with its mapping block, whether or not task files collide. */
  function Placed(docs: Documents, c: Campaign): Documents {
    if DocName(c) in docs then docs else docs[DocName(c) := EnsureBlock(c.markdown)]
  }

  /** The text standing for a commit's hash. */
  function ShaText(sha: Sha): string { ToDecimal(sha) }

  /** `update_mapping_block` on the campaign's document; `None` is the invalid-block error. */
  function Recorded(docs: Documents, c: Campaign, t: string, implementation: Sha): Option<Documents> {
    var text := if DocName(c) in docs then docs[DocName(c)] else "";
    match UpdateBlock(text, t, (ShaText(implementation), "SELF"))
    case Err(_) => None
    case Ok(updated) => Some(docs[DocName(c) := updated])
  }

  // ---------------------------------------------------------------- the task loop

  datatype Stop = Running | StoppedBy(task: string, status: TaskStatus) | Raised

  /** `previous` is the hash the next transition will name as its predecessor. */
  datatype Loop = Loop(world: World, memory: State, previous: StateSha, stop: Stop)

  /** The campaign is still there and still holds the same task ids. */
  ghost predicate SameTaskIds(before: State, after: State, c: string) {
    c in before.campaigns && c in after.campaigns
    && after.campaigns[c].tasks.Keys == before.campaigns[c].tasks.Keys
  }

  predicate HoldsTask(s: State, c: string, t: string) { c in s.campaigns && t in s.campaigns[c].tasks }

  function SetTask(s: State, c: string, t: string, task: Task): State
    requires c in s.campaigns
  {
    s.(campaigns := s.campaigns[c := s.campaigns[c].(tasks := s.campaigns[c].tasks[t := task])])
  }

  /** `save_state` followed by `append_transition`. */
  function SaveAndLog(w: World, s: State, runId: string, reason: Reason, previous: StateSha): World {
    w.(disk := s, log := w.log + [Transition(runId, reason, previous, StateHash(s))])
  }

  /** One iteration for a task that has not succeeded yet. */
  function RunTask(l: Loop, input: PassInput, c: string, t: string): (r: Loop)
    requires HoldsTask(l.memory, c, t)
    ensures SameTaskIds(l.memory, r.memory, c)
  {
    hide Recorded, StateHash;
    var outcome := input.agent(t);
    var edited := l.world.(docs := l.world.docs + outcome.edits);
    if outcome.FailsBeforeCommit? || outcome.result.status == Pending then l.(world := edited, stop := Raised)
    else
      var implementation := |l.world.commits|;
      var done := l.memory.campaigns[c].tasks[t].(
        status := outcome.result.status, implementationCommit := Some(implementation), result := Some(outcome.result));
      var committed := edited.(commits := l.world.commits + [Implementation(c, t)]);
      var memory := SetTask(l.memory, c, t, done);
      var recorded := Recorded(committed.docs, l.memory.campaigns[c], t, implementation);
      if outcome.FailsAfterCommit? || recorded.None? then Loop(committed, memory, l.previous, Raised)
      else
        var saved := SaveAndLog(committed.(docs := recorded.value), memory, input.runId, TaskReceipt(t), l.previous);
        if outcome.FailsAfterSave? then Loop(saved, memory, StateHash(memory), Raised)
        else
          var receipt := |saved.commits|;
          Loop(saved.(commits := saved.commits + [Receipt(c, t)]),
               SetTask(memory, c, t, done.(receiptCommit := Some(receipt))),
               StateHash(memory),
               if outcome.result.status == Success then Running else StoppedBy(t, outcome.result.status))
  }

  function RunTasks(l: Loop, input: PassInput, c: string, ids: seq<string>): (r: Loop)
    requires c in l.memory.campaigns
    requires forall i :: 0 <= i < |ids| ==> HoldsTask(l.memory, c, ids[i])
    ensures SameTaskIds(l.memory, r.memory, c)
    decreases |ids|
  {
    if ids == [] || !l.stop.Running? then l
    else
      assert HoldsTask(l.memory, c, ids[0]);
      assert forall i :: 0 <= i < |ids[1..]| ==> ids[1..][i] == ids[i + 1] && HoldsTask(l.memory, c, ids[i + 1]);
      if l.memory.campaigns[c].tasks[ids[0]].status == Success then RunTasks(l, input, c, ids[1..])
      else RunTasks(RunTask(l, input, c, ids[0]), input, c, ids[1..])
  }

  // ---------------------------------------------------------------- the discovery fallback

  function DiscoveryId(c: Campaign, runId: string): string { "discovery::" + c.slug + "::" + runId }

  function DiscoveryTask(c: Campaign, runId: string): Task {
    Task(
      Content(DiscoveryId(c, runId), "discovery", "docs", Low, [], [], "runner: discovery placeholder " + c.slug,
              "# Discovery Task", "Discovery fallback task. Do not execute code changes.", [], Some(Discovery)),
      None, DiscoveryDigest(runId), Pending, None, None, None)
  }

  /** Store the placeholder and overwrite both index entries. */
  function AddDiscovery(s: State, c: string, runId: string): State
    requires c in s.campaigns
  {
    var campaign := s.campaigns[c];
    var id, hash := DiscoveryId(campaign, runId), DiscoveryDigest(runId);
    State(
      s.campaigns[c := campaign.(tasks := campaign.tasks[id := DiscoveryTask(campaign, runId)])],
      s.order,
      s.byId[id := IdEntry(c, hash)],
      s.bySlug[SlugKey(campaign.slug, "discovery") := SlugEntry(c, id, hash)])
  }

  /**
   The whole fallback; `previous` is not refreshed after its transition is logged. No agent is run: of the
   outcome for the placeholder only where git or the file system fails first matters.
   */
  function Discover(l: Loop, input: PassInput, c: string): (r: Loop)
    requires c in l.memory.campaigns
    ensures c in r.memory.campaigns
  {
    hide Recorded, StateHash, Placed, Materialize;
    var added := AddDiscovery(l.memory, c, input.runId);
    var materialized := Materialize(added.campaigns[c]);
    var placed := l.world.(docs := Placed(l.world.docs, l.memory.campaigns[c]));
    if materialized.None? then l.(world := placed, stop := Raised)
    else
      var id := DiscoveryId(l.memory.campaigns[c], input.runId);
      var stored := added.(campaigns := added.campaigns[c := materialized.value]);
      var outcome := input.agent(id);
      if outcome.FailsBeforeCommit? then l.(world := placed, memory := stored, stop := Raised)
      else
        var implementation := |l.world.commits|;
        var committed := placed.(commits := l.world.commits + [Implementation(c, id)]);
        var blocked := DiscoveryTask(l.memory.campaigns[c], input.runId).(
          status := Blocked, implementationCommit := Some(implementation));
        var memory := SetTask(stored, c, id, blocked);
        var recorded := Recorded(committed.docs, l.memory.campaigns[c], id, implementation);
        if outcome.FailsAfterCommit? || recorded.None? then Loop(committed, memory, l.previous, Raised)
        else
          var saved := SaveAndLog(committed.(docs := recorded.value), memory, input.runId, DiscoveryBlocked,
                                  l.previous);
          if outcome.FailsAfterSave? then Loop(saved, memory, l.previous, Raised)
          else
            Loop(saved.(commits := saved.commits + [Receipt(c, id)]),
                 SetTask(memory, c, id, blocked.(receiptCommit := Some(|saved.commits|))),
                 l.previous, Running)
  }

  // ---------------------------------------------------------------- the pass

  datatype Termination =
    | Aborted
    | NoCampaignsProduced
    | NoEligibleCampaigns
    | DiscoveryBlockedForReview
    | StoppedAtTask(task: string, status: TaskStatus)
    | ExecutionComplete
    | ExecutionPaused
    | SelectedMaterialized

  datatype PassResult = PassResult(world: World, end: Termination)

  /** `update_campaign_completion`. */
  function UpdateCompletion(c: Campaign): Campaign {
    c.(status := if AllSucceeded(c) then Completed else Open)
  }

  function FinishReason(mode: Mode): Reason { if mode.Fixtures? then FixtureComplete else PassComplete }

  /** Save the state, log the end of the pass and commit the run documents. */
  function Finish(w: World, s: State, input: PassInput, previous: StateSha, end: Termination): PassResult {
    var saved := SaveAndLog(w, s, RunId(input), FinishReason(input.mode), previous);
    PassResult(
      if input.commitsAtEnd && !input.mode.Fixtures?
      then saved.(commits := saved.commits + [RunReceipt(input.runId)]) else saved,
      end)
  }

  lemma SortedHeld(s: State, c: string)
    requires c in s.campaigns
    ensures var ids := SortedKeys(s.campaigns[c].tasks.Keys);
            forall i :: 0 <= i < |ids| ==> HoldsTask(s, c, ids[i])
  {
    hide Sorted;
    var ids := SortedKeys(s.campaigns[c].tasks.Keys);
    assert forall i :: 0 <= i < |ids| ==> ids[i] in ids;
  }

  /** The selected campaign after materialisation: fallback, execution, or nothing more. */
  function WorkOn(l: Loop, input: PassInput, c: string): (r: Loop)
    requires c in l.memory.campaigns
    ensures c in r.memory.campaigns
  {
    var ids := SortedKeys(l.memory.campaigns[c].tasks.Keys);
    if input.mode.Fixtures? then l
    else if ids == [] then if input.allowDiscovery then Discover(l, input, c) else l.(stop := Raised)
    else if input.mode.Execute? then RunTasks(l, input, c, ids)
    else l
  }

  function WorkTermination(l: Loop, input: PassInput, c: string, hadTasks: bool): Termination
    requires c in l.memory.campaigns
  {
    if l.stop.Raised? then Aborted
    else if input.mode.Fixtures? then SelectedMaterialized
    else if !hadTasks then DiscoveryBlockedForReview
    else if !input.mode.Execute? then SelectedMaterialized
    else if l.stop.StoppedBy? then StoppedAtTask(l.stop.task, l.stop.status)
    else if AllSucceeded(l.memory.campaigns[c]) then ExecutionComplete
    else ExecutionPaused
  }

  /** Where the work on a materialised campaign starts from. */
  function Started(w: World, s: State, previous: StateSha, c: string): (l: Loop)
    requires c in s.campaigns && Materialize(s.campaigns[c]).Some?
    ensures c in l.memory.campaigns
  {
    Loop(w.(docs := Placed(w.docs, s.campaigns[c])),
         s.(campaigns := s.campaigns[c := Materialize(s.campaigns[c]).value]), previous, Running)
  }

  function RunSelected(w: World, s: State, input: PassInput, previous: StateSha, c: string): PassResult
    requires c in s.campaigns
  {
    var materialized := Materialize(s.campaigns[c]);
    var placed := w.(docs := Placed(w.docs, s.campaigns[c]));
    if materialized.None? then PassResult(placed, Aborted)
    else
      var hadTasks := s.campaigns[c].tasks != map[];
      var l := WorkOn(Started(w, s, previous, c), input, c);
      if l.stop.Raised? then PassResult(l.world, Aborted)
      else
        var final := l.memory.(campaigns := l.memory.campaigns[c := UpdateCompletion(l.memory.campaigns[c])]);
        Finish(l.world, final, input, l.previous, WorkTermination(l, input, c, hadTasks))
  }

  function RunPass(w: World, input: PassInput): PassResult
    requires WellFormed(w.disk)
  {
    if input.stagesFail then PassResult(w, Aborted)
    else
      var m := MergeProposal(w.disk, input.proposal, AuditId(input));
      if m.error.Some? then PassResult(w, Aborted)
      else
        MergeWellFormed(w.disk, input.proposal, AuditId(input));
        SelectedEligible(m.state);
        match Select(m.state)
        case None =>
          Finish(w, m.state, input, StateHash(w.disk),
                 if m.campaigns == 0 && m.tasks == 0 then NoCampaignsProduced else NoEligibleCampaigns)
        case Some(c) => RunSelected(w, m.state, input, StateHash(w.disk), c)
  }
}
