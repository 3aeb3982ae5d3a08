/** Runs from a new repository, with explicit proposals, that show what the exact conditions rule out. */
module Witnesses {
  import opened Wrappers
  import opened Text
  import opened Json
  import opened Search
  import opened MappingBlock
  import opened Tasks
  import opened Campaigns
  import opened Merge
  import opened IndexLaws
  import opened Selection
  import opened Runner
  import opened DocumentLaws
  import opened RunSafety
  import opened Fallback
  import opened Frontier
  import opened Attempts
  import opened CommitRecords
  import opened Receipts
  import opened IndexRuns
  import opened TransitionLog
  import opened Progress

  // ---------------------------------------------------------------- proposals

  const DAY: string := "2024-01-01"
  const NEXT_DAY: string := "2024-01-02"

  function PlainTask(id: string, slug: string): Content {
    Content(id, slug, "docs", Low, [], [], "m", "", "", [], None)
  }

  function IdOf(date: string, slug: string): string { FormatCampaignId(CampaignId(date, slug, "001")) }

  function Raws(tasks: seq<Content>): seq<RawTask> {
    if tasks == [] then [] else [Reproposed(tasks[0])] + Raws(tasks[1..])
  }

  /** A campaign entry without dependencies; the discovery reason is absent when it is empty. */
  function Entry(date: string, slug: string, tasks: seq<Content>, markdown: string, reason: string): RawCampaign {
    RawCampaign(Some(String(IdOf(date, slug))), Some(String(slug)), None, Some(String(markdown)),
                TaskList(Raws(tasks)), if reason == "" then None else Some(String(reason)))
  }

  function HeaderOf(date: string, slug: string, markdown: string, reason: string): Header {
    Header(IdOf(date, slug), slug, date, "001", [], markdown, if reason == "" then None else Some(reason))
  }

  lemma DateParts(year: string, month: string, day: string)
    requires |year| == 4 && |month| == 2 && |day| == 2 && AllDigits(year) && AllDigits(month) && AllDigits(day)
    ensures IsDate(year + "-" + month + "-" + day)
  {
    var s := year + "-" + month + "-" + day;
    assert s[..4] == year && s[5..7] == month && s[8..] == day;
  }

  lemma Digits()
    ensures AllDigits("2024") && AllDigits("01") && AllDigits("02")
  {
  }

  lemma DaysAreDates()
    ensures IsDate(DAY) && IsDate(NEXT_DAY)
  {
    hide IsDate, AllDigits;
    Digits();
    DateParts("2024", "01", "01");
    DateParts("2024", "01", "02");
    assert "2024" + "-" + "01" + "-" + "01" == DAY && "2024" + "-" + "01" + "-" + "02" == NEXT_DAY;
  }

  lemma DaysInOrder()
    ensures Less(DAY, NEXT_DAY)
  {
    hide Less;
    assert Less("1", "2") by { OneBeforeTwo(); }
    LessAfter("2024-01-0", "1", "2");
    assert DAY == "2024-01-0" + "1" && NEXT_DAY == "2024-01-0" + "2";
  }

  lemma OneBeforeTwo()
    ensures Less("1", "2")
  {
  }

  lemma {:induction false} LessAfter(head: string, a: string, b: string)
    requires Less(a, b)
    ensures Less(head + a, head + b)
  {
    if head == "" {
      assert head + a == a && head + b == b;
    } else {
      LessAfter(head[1..], a, b);
      assert (head + a)[1..] == head[1..] + a && (head + b)[1..] == head[1..] + b;
    }
  }

  lemma PlainNormalizes(id: string, slug: string)
    requires IsTaskId(id) && IsSlug(slug)
    ensures NormalizeTask(Reproposed(PlainTask(id, slug))) == Ok(PlainTask(id, slug))
  {
    hide NormalizeTask, NormalizeLists, Reproposed;
    var c := PlainTask(id, slug);
    ReproposalHeader(c);
    ReproposalLists(c);
  }

  lemma IdIsTrimmed(date: string, slug: string)
    requires IsDate(date) && IsSlug(slug)
    ensures Strip(IdOf(date, slug)) == IdOf(date, slug) != ""
    ensures ParseCampaignId(IdOf(date, slug)) == Some(CampaignId(date, slug, "001"))
  {
    hide Strip, ParseCampaignId;
    var id := IdOf(date, slug);
    assert |id| >= 10 && id[0] == date[0] && id[|id| - 1] == '1';
    assert date[0] == date[..4][0] && date[..4][0] in date[..4];
    StripTrimmed(id);
    SeqIsDigits();
    CampaignIdRoundTrip(CampaignId(date, slug, "001"), id);
  }

  lemma SeqIsDigits()
    ensures |"001"| == 3 && AllDigits("001")
  {
  }

  /** Such an entry decodes to its header. */
  lemma EntryDecodes(date: string, slug: string, tasks: seq<Content>, markdown: string, reason: string)
    requires IsDate(date) && IsSlug(slug) && (tasks != [] || Strip(reason) != "")
    ensures DecodeHeader(Entry(date, slug, tasks, markdown, reason)) == Ok(HeaderOf(date, slug, markdown, reason))
  {
    hide Strip, ParseCampaignId, IdOf, IsSlug, IsDate;
    IdIsTrimmed(date, slug);
    NamesTrimmed(slug);
    SlugNotEmpty(slug);
    StripOfNothing();
    assert DependencyIds([]) == [];
  }

  lemma SlugNotEmpty(slug: string)
    requires IsSlug(slug)
    ensures slug != ""
  {
  }

  lemma StripOfNothing()
    ensures Strip("") == ""
  {
  }

  // ---------------------------------------------------------------- what they merge to

  /** What adding a task to a state that does not know it leaves. */
  lemma AddedTask(s: State, h: Header, c: Content)
    requires h.id in s.campaigns && c.id !in s.byId && SlugKey(h.slug, c.slug) !in s.bySlug
             && c.id !in s.campaigns[h.id].tasks
    ensures AddTask(s, h, c).Ok?
    ensures var next := AddTask(s, h, c).value;
            && next.campaigns ==
                 s.campaigns[h.id := s.campaigns[h.id].(tasks := s.campaigns[h.id].tasks[c.id := NewTask(c, h.slug)])]
            && next.order == s.order && next.byId.Keys == s.byId.Keys + {c.id}
            && next.bySlug.Keys == s.bySlug.Keys + {SlugKey(h.slug, c.slug)}
  {
    hide SlugKey;
  }

  /** An accepted step for a task, and what it leaves. */
  lemma TaskMerges(acc: Merged, h: Header, c: Content, rest: seq<RawTask>, ids: set<string>, slugs: set<string>)
    requires h.id in acc.state.campaigns && acc.error.None? && IsTaskId(c.id) && IsSlug(c.slug)
             && c == PlainTask(c.id, c.slug)
    requires c.id !in ids && c.slug !in slugs && c.id !in acc.state.byId && SlugKey(h.slug, c.slug) !in acc.state.bySlug
    requires c.id !in acc.state.campaigns[h.id].tasks
    ensures AddTask(acc.state, h, c).Ok?
    ensures MergeTasks(acc, h, [Reproposed(c)] + rest, ids, slugs) ==
            MergeTasks(acc.(state := AddTask(acc.state, h, c).value, tasks := acc.tasks + 1), h, rest, ids + {c.id},
                       slugs + {c.slug})
  {
    hide NormalizeTask, Reproposed, PlainTask, AddTask, SlugKey, IsTaskId, IsSlug, NewTask;
    PlainNormalizes(c.id, c.slug);
    NotNotAnObject(c);
    AddedTask(acc.state, h, c);
    assert ([Reproposed(c)] + rest)[1..] == rest;
  }

  lemma NotNotAnObject(c: Content)
    ensures Reproposed(c).RawTask?
  {
  }

  lemma EntryMerges(acc: Merged, date: string, slug: string, tasks: seq<Content>, markdown: string, reason: string,
                    audit: string)
    requires IsDate(date) && IsSlug(slug) && (tasks != [] || Strip(reason) != "")
    requires IdOf(date, slug) !in acc.state.campaigns
    ensures var h := HeaderOf(date, slug, markdown, reason);
            && Admit(acc.state, h, audit).Ok?
            && MergeEntry(acc, Entry(date, slug, tasks, markdown, reason), audit) ==
               MergeTasks(acc.(state := Admit(acc.state, h, audit).value, campaigns := acc.campaigns + 1), h,
                          Raws(tasks), {}, {})
  {
    hide DecodeHeader, MergeTasks, IdOf;
    EntryDecodes(date, slug, tasks, markdown, reason);
  }

  lemma OneEntry(acc: Merged, raw: RawCampaign, rest: seq<RawCampaign>, audit: string)
    requires MergeEntry(acc, raw, audit).error.None?
    ensures MergeEntries(acc, [raw] + rest, audit) == MergeEntries(MergeEntry(acc, raw, audit), rest, audit)
  {
    hide MergeEntry;
    assert ([raw] + rest)[1..] == rest;
  }

  /** The only campaign of a state, open and without dependencies. */
  ghost predicate Alone(s: State, c: string, x: Campaign) {
    s.order == [c] && s.campaigns == map[c := x] && x.status == Open && x.dependsOn == []
  }

  lemma AloneSelected(s: State, c: string, x: Campaign)
    requires Alone(s, c, x)
    ensures OrderedKeys(s) && Select(s) == Some(c)
  {
    assert [c][1..] == [];
  }

  /** A campaign with no tasks. */
  lemma MergeNone(slug: string, markdown: string, reason: string, audit: string)
    requires IsSlug(slug) && Strip(reason) != ""
    ensures var h := HeaderOf(DAY, slug, markdown, reason);
            var m := MergeProposal(EMPTY_STATE, Proposal([Entry(DAY, slug, [], markdown, reason)]), audit);
            m.error.None? && Alone(m.state, h.id, NewCampaign(h, audit))
  {
    hide Entry, DecodeHeader, IdOf, IsDate, Strip, IsSlug;
    DaysAreDates();
    var acc, raw := Merged(EMPTY_STATE, 0, 0, None), Entry(DAY, slug, [], markdown, reason);
    EntryMerges(acc, DAY, slug, [], markdown, reason, audit);
    hide MergeEntry;
    OneEntry(acc, raw, [], audit);
    assert [raw] + [] == [raw];
  }

  /** The campaign with its new tasks. */
  function With(h: Header, audit: string, tasks: map<string, Task>): Campaign { NewCampaign(h, audit).(tasks := tasks) }

  /** A campaign with one task. */
  lemma MergeOne(slug: string, c: Content, markdown: string, audit: string)
    requires IsSlug(slug) && IsTaskId(c.id) && IsSlug(c.slug) && c == PlainTask(c.id, c.slug)
    ensures var h := HeaderOf(DAY, slug, markdown, "");
            var m := MergeProposal(EMPTY_STATE, Proposal([Entry(DAY, slug, [c], markdown, "")]), audit);
            m.error.None? && Alone(m.state, h.id, With(h, audit, map[c.id := NewTask(c, slug)]))
  {
    hide Entry, DecodeHeader, IdOf, IsDate, IsSlug, IsTaskId, PlainTask, Reproposed, SlugKey, NormalizeTask;
    DaysAreDates();
    var acc, raw, h := Merged(EMPTY_STATE, 0, 0, None), Entry(DAY, slug, [c], markdown, ""),
        HeaderOf(DAY, slug, markdown, "");
    EntryMerges(acc, DAY, slug, [c], markdown, "", audit);
    hide MergeEntry;
    var admitted := acc.(state := Admit(EMPTY_STATE, h, audit).value, campaigns := 1);
    assert Raws([c]) == [Reproposed(c)] + [];
    TaskMerges(admitted, h, c, [], {}, {});
    OneEntry(acc, raw, [], audit);
    assert [raw] + [] == [raw];
  }

  lemma TwoTasksMerge(acc: Merged, h: Header, c: Content, d: Content)
    requires h.id in acc.state.campaigns && acc.error.None? && acc.state.byId == map[] && acc.state.bySlug == map[]
    requires acc.state.campaigns[h.id].tasks == map[] && IsSlug(h.slug)
    requires IsTaskId(c.id) && IsSlug(c.slug) && c == PlainTask(c.id, c.slug)
    requires IsTaskId(d.id) && IsSlug(d.slug) && d == PlainTask(d.id, d.slug) && c.id != d.id && c.slug != d.slug
    ensures var m := MergeTasks(acc, h, Raws([c, d]), {}, {});
            && m.error.None? && m.state.order == acc.state.order
            && m.state.campaigns == acc.state.campaigns[h.id := acc.state.campaigns[h.id].(
                 tasks := map[c.id := NewTask(c, h.slug), d.id := NewTask(d, h.slug)])]
  {
    hide IsSlug, IsTaskId, PlainTask, Reproposed, SlugKey, NormalizeTask, AddTask, NewTask;
    RawsTwo(c, d);
    TaskMerges(acc, h, c, [Reproposed(d)] + [], {}, {});
    AddedTask(acc.state, h, c);
    var once := acc.(state := AddTask(acc.state, h, c).value, tasks := acc.tasks + 1);
    KeysDiffer(h.slug, c.slug, d.slug);
    AddedTask(once.state, h, d);
    TaskMerges(once, h, d, [], {c.id}, {c.slug});
  }

  /** A campaign with two tasks. */
  lemma MergeTwo(slug: string, c: Content, d: Content, markdown: string, audit: string)
    requires IsSlug(slug) && IsTaskId(c.id) && IsSlug(c.slug) && c == PlainTask(c.id, c.slug)
    requires IsTaskId(d.id) && IsSlug(d.slug) && d == PlainTask(d.id, d.slug) && c.id != d.id && c.slug != d.slug
    ensures var h := HeaderOf(DAY, slug, markdown, "");
            var m := MergeProposal(EMPTY_STATE, Proposal([Entry(DAY, slug, [c, d], markdown, "")]), audit);
            m.error.None?
                && Alone(m.state, h.id, With(h, audit, map[c.id := NewTask(c, slug), d.id := NewTask(d, slug)]))
  {
    hide Entry, DecodeHeader, IdOf, IsDate, IsSlug, IsTaskId, PlainTask, MergeTasks, NewTask;
    DaysAreDates();
    var acc, raw, h := Merged(EMPTY_STATE, 0, 0, None), Entry(DAY, slug, [c, d], markdown, ""),
        HeaderOf(DAY, slug, markdown, "");
    EntryMerges(acc, DAY, slug, [c, d], markdown, "", audit);
    hide MergeEntry;
    TwoTasksMerge(acc.(state := Admit(EMPTY_STATE, h, audit).value, campaigns := 1), h, c, d);
    OneEntry(acc, raw, [], audit);
    assert [raw] + [] == [raw];
  }

  lemma RawsTwo(c: Content, d: Content)
    ensures Raws([c, d]) == [Reproposed(c)] + ([Reproposed(d)] + [])
  {
    hide Reproposed;
    assert [c, d][1..] == [d] && [d][1..] == [];
    assert Raws([d]) == [Reproposed(d)] + Raws([]);
  }

  lemma KeysDiffer(campaign: string, a: string, b: string)
    requires IsSlug(campaign) && IsSlug(a) && IsSlug(b) && a != b
    ensures SlugKey(campaign, a) != SlugKey(campaign, b)
  {
    hide IsSlug;
    if SlugKey(campaign, a) == SlugKey(campaign, b) {
      SlugKeyInjective(campaign, a, campaign, b);
    }
  }

  // ---------------------------------------------------------------- a campaign whose files collide

  lemma AloneSelection(w: World, input: PassInput, c: string, x: Campaign)
    requires WellFormed(w.disk) && !input.stagesFail
    requires var m := MergeProposal(w.disk, input.proposal, AuditId(input)); m.error.None? && Alone(m.state, c, x)
    ensures PassSelection(w, input) == Some((MergeProposal(w.disk, input.proposal, AuditId(input)).state, c))
  {
    hide MergeProposal, WellFormed, Select;
    AloneSelected(MergeProposal(w.disk, input.proposal, AuditId(input)).state, c, x);
  }

  lemma Slugs()
    ensures IsSlug("a") && IsSlug("a_b") && IsSlug("a__b") && IsSlug("discovery")
    ensures IsTaskId("x") && IsTaskId("y")
  {
  }

  /** Once a run of other characters has become an underscore, another underscore adds nothing. */
  lemma SameFileName()
    ensures LowerSnake("a_b") == LowerSnake("a__b")
  {
    hide Strip, TrimUnderscores;
    Slugs();
    NamesTrimmed("a_b");
    NamesTrimmed("a__b");
    LowerAlready();
    assert Underscored("a_b", false) == Underscored("a__b", false) by { UnderscoredAlike(); }
  }

  lemma LowerAlready()
    ensures ToLower("a_b") == "a_b" && ToLower("a__b") == "a__b"
  {
  }

  lemma UnderscoredAlike()
    ensures Underscored("a_b", false) == Underscored("a__b", false)
  {
    assert "a_b"[1..] == "_b" && "a__b"[1..] == "__b" && "__b"[1..] == "_b" && "_b"[1..] == "b";
    assert Underscored("_b", false) == "_" + Underscored("b", true);
    assert Underscored("__b", false) == "_" + Underscored("_b", true);
    assert Underscored("_b", true) == "" + Underscored("b", true) == Underscored("b", true);
  }

  function Always(outcome: TaskOutcome): string -> TaskOutcome { t => outcome }

  function Report(status: TaskStatus): AgentResult { AgentResult(status, "", [], "") }

  /** Valid task slugs can lead to one file: then even a succeeding agent gets nowhere, in any number of passes. */
  lemma FilesCollide(runId: string, n: nat)
    ensures var proposal := Proposal([Entry(DAY, "a", [PlainTask("x", "a_b"), PlainTask("y", "a__b")], "", "")]);
            var input := PassInput(runId, proposal, Execute, false, false, Always(Finishes(Report(Success), map[])),
                                   false);
            && WellFormed(NEW_WORLD.disk) && MergeProposal(EMPTY_STATE, proposal, AuditOf(runId)).error.None?
            && AgentSucceeds(input) && Stalls(NEW_WORLD, input)
            && var after := RunAll(NEW_WORLD, Repeat(input, n));
               after.disk == EMPTY_STATE && after.log == [] && RunPass(after, input).end == Aborted
  {
    hide MergeProposal, RunPass, RunAll, WellFormed, LowerSnake, Entry, IdOf, PassSelection, DashesToUnderscores;
    NothingCompleted();
    Slugs();
    var c, d := PlainTask("x", "a_b"), PlainTask("y", "a__b");
    var proposal := Proposal([Entry(DAY, "a", [c, d], "", "")]);
    var input := PassInput(runId, proposal, Execute, false, false, Always(Finishes(Report(Success), map[])), false);
    SlugsDiffer();
    MergeTwo("a", c, d, "", AuditOf(runId));
    var h := HeaderOf(DAY, "a", "", "");
    var x := With(h, AuditOf(runId), map["x" := NewTask(c, "a"), "y" := NewTask(d, "a")]);
    AloneSelection(NEW_WORLD, input, h.id, x);
    SameFileName();
    assert Stem(x, x.tasks["x"].content.slug) == Stem(x, x.tasks["y"].content.slug);
    assert StemsCollide(x);
    hide Stalls;
    StallsForever(NEW_WORLD, input, n);
  }

  lemma SlugsDiffer()
    ensures "x" != "y" && "a_b" != "a__b"
  {
  }

  // ---------------------------------------------------------------- a document that refuses its commits

  lemma EndMarkerRefuses()
    ensures !Updatable(MAPPING_END)
  {
    hide Contains, Find, OccursAt;
    var s := MAPPING_END;
    FindFirst(s, MAPPING_END);
    FindFirst(s, MAPPING_START);
    WholeOccurs(s);
    FindIs(s, MAPPING_END, 0);
  }

  lemma WholeOccurs(s: string)
    ensures OccursAt(s, s, 0)
  {
    assert s[0..|s|] == s;
  }

  /** A campaign whose markdown holds an end marker alone cannot be completed by a succeeding agent, ever. */
  lemma DocumentRefuses(runId: string, n: nat)
    ensures var proposal := Proposal([Entry(DAY, "a", [PlainTask("x", "a")], MAPPING_END, "")]);
            var input := PassInput(runId, proposal, Execute, false, false, Always(Finishes(Report(Success), map[])),
                                   false);
            && WellFormed(NEW_WORLD.disk) && AgentSucceeds(input) && Stalls(NEW_WORLD, input)
            && RunPass(NEW_WORLD, input).world.commits == [Implementation(IdOf(DAY, "a"), "x")]
            && var after := RunAll(NEW_WORLD, Repeat(input, n));
               after.disk == EMPTY_STATE && after.log == [] && RunPass(after, input).end == Aborted
  {
    hide MergeProposal, RunPass, RunAll, WellFormed, Entry, IdOf, PassSelection, Updatable, DocName, StemsCollide;
    hide PlainTask;
    NothingCompleted();
    Slugs();
    var c := PlainTask("x", "a");
    PlainParts("x", "a");
    var proposal := Proposal([Entry(DAY, "a", [c], MAPPING_END, "")]);
    var input := PassInput(runId, proposal, Execute, false, false, Always(Finishes(Report(Success), map[])), false);
    MergeOne("a", c, MAPPING_END, AuditOf(runId));
    var h := HeaderOf(DAY, "a", MAPPING_END, "");
    var x := With(h, AuditOf(runId), map["x" := NewTask(c, "a")]);
    AloneSelection(NEW_WORLD, input, h.id, x);
    EndMarkerRefuses();
    OneTaskNoCollision(x, "x");
    assert x.tasks["x"].status == Pending;
    assert !CanComplete(map[], x);
    StallsForever(NEW_WORLD, input, n);
    var m := PassSelection(NEW_WORLD, input).value.0;
    AloneSelected(m, h.id, x);
    SelectedCompletesIff(NEW_WORLD, input, m, h.id);
    OneUnfinished(x, "x");
  }

  lemma PlainParts(id: string, slug: string)
    ensures PlainTask(id, slug).id == id && PlainTask(id, slug).slug == slug
  {
  }

  lemma OneTaskNoCollision(x: Campaign, t: string)
    requires x.tasks.Keys == {t}
    ensures !StemsCollide(x)
  {
    hide Stem;
  }

  lemma OneUnfinished(x: Campaign, t: string)
    requires x.tasks.Keys == {t} && x.tasks[t].status != Success && FirstUnfinished(x).Some?
    ensures FirstUnfinished(x) == Some(t)
  {
    var ids := SortedKeys(x.tasks.Keys);
    assert ids == [t] by {
      assert |ids| == 1 && ids[0] in ids;
    }
    assert [t][1..] == [];
  }

  // ---------------------------------------------------------------- two campaigns of one document

  lemma SameDocument()
    ensures UpperSnake("a_b") == UpperSnake("a__b")
  {
    hide Strip, TrimUnderscores, ToUpper;
    Slugs();
    NamesTrimmed("a_b");
    NamesTrimmed("a__b");
    UnderscoredAlike();
  }

  /** A pending campaign of this slug and markdown, with one task. */
  function PendingOne(slug: string, markdown: string, audit: string): Campaign {
    With(HeaderOf(DAY, slug, markdown, ""), audit, map["x" := NewTask(PlainTask("x", "a"), slug)])
  }

  /**
   Campaigns with different ids can have one document. If only the first one's text can be updated, the second
   cannot be completed, until the first one's document is there: whichever is worked on first decides for both.
   */
  lemma SharedDocument(audit: string)
    ensures var x, y := PendingOne("a_b", "", audit), PendingOne("a__b", MAPPING_END, audit);
            && IdOf(DAY, "a_b") != IdOf(DAY, "a__b") && !AgreeOnText(map[], x, y)
            && CanComplete(map[], x) && !CanComplete(map[], y) && CanComplete(Placed(map[], x), y)
  {
    hide Updatable, UpperSnake, StemsCollide, EnsureBlock, PlainTask, DashesToUnderscores;
    var x, y := PendingOne("a_b", "", audit), PendingOne("a__b", MAPPING_END, audit);
    SlugsDiffer();
    SlugOfId("a_b");
    SlugOfId("a__b");
    SameDocument();
    assert DocName(x) == DocName(y);
    OneTaskNoCollision(x, "x");
    OneTaskNoCollision(y, "x");
    EmptyUpdatable();
    EnsuredUpdatableIff("");
    EndMarkerRefuses();
    assert y.tasks["x"].status == Pending;
  }

  lemma SlugOfId(slug: string)
    requires slug == "a_b" || slug == "a__b"
    ensures ParseCampaignId(IdOf(DAY, slug)) == Some(CampaignId(DAY, slug, "001"))
  {
    hide IdOf, ParseCampaignId;
    DaysAreDates();
    Slugs();
    IdIsTrimmed(DAY, slug);
  }

  // ---------------------------------------------------------------- a fallback that breaks the chain

  lemma ReasonGiven()
    ensures Strip("r") == "r" != ""
  {
    StripTrimmed("r");
  }

  /** A campaign without tasks is enough: the fallback completes, and the log is no chain any more. */
  lemma FallbackBreaksChain(runId: string)
    ensures var proposal := Proposal([Entry(DAY, "a", [], "", "r")]);
            var input := PassInput(runId, proposal, Execute, true, false, Always(Finishes(Report(Success), map[])),
                                   false);
            && WellFormed(NEW_WORLD.disk) && WorldLinked(NEW_WORLD) && LastPostOnDisk(NEW_WORLD)
            && RunPass(NEW_WORLD, input).end == DiscoveryBlockedForReview
               && !WorldLinked(RunPass(NEW_WORLD, input).world)
  {
    hide MergeProposal, RunPass, WellFormed, Entry, IdOf, PassSelection, Updatable, DocName;
    NothingCompleted();
    Slugs();
    ReasonGiven();
    var proposal := Proposal([Entry(DAY, "a", [], "", "r")]);
    var input := PassInput(runId, proposal, Execute, true, false, Always(Finishes(Report(Success), map[])), false);
    MergeNone("a", "", "r", AuditOf(runId));
    var h := HeaderOf(DAY, "a", "", "r");
    var x := NewCampaign(h, AuditOf(runId));
    AloneSelection(NEW_WORLD, input, h.id, x);
    EmptyUpdatable();
    assert EntersFallback(map[], input, x);
    assert CompletesFallback(NEW_WORLD, input);
    PassEndsIff(NEW_WORLD, input);
    PassLinksIff(NEW_WORLD, input);
  }

  // ---------------------------------------------------------------- a fallback that breaks the indexes

  /** Two campaigns of one slug: the earlier without tasks, the later with a task "discovery". */
  function TwoCampaigns(): Proposal {
    Proposal([Entry(DAY, "a", [], "", "r"), Entry(NEXT_DAY, "a", [PlainTask("x", "discovery")], "", "")])
  }

  ghost predicate Both(s: State, audit: string) {
    var h, g := HeaderOf(DAY, "a", "", "r"), HeaderOf(NEXT_DAY, "a", "", "");
    && h.id != g.id && s.order == [h.id, g.id]
    && s.campaigns == map[h.id := NewCampaign(h, audit),
                          g.id := With(g, audit, map["x" := NewTask(PlainTask("x", "discovery"), "a")])]
  }

  lemma IdsDiffer()
    ensures IdOf(DAY, "a") != IdOf(NEXT_DAY, "a")
  {
    hide IdOf, ParseCampaignId;
    DaysAreDates();
    Slugs();
    IdIsTrimmed(DAY, "a");
    IdIsTrimmed(NEXT_DAY, "a");
    DaysInOrder();
    LessIrreflexive(DAY);
  }

  lemma FirstOfTwo(audit: string)
    ensures var h := HeaderOf(DAY, "a", "", "r");
            var once := MergeEntry(Merged(EMPTY_STATE, 0, 0, None), Entry(DAY, "a", [], "", "r"), audit);
            once.error.None? && once.state == State(map[h.id := NewCampaign(h, audit)], [h.id], map[], map[])
  {
    hide Entry, IdOf, IsDate, Strip;
    DaysAreDates();
    Slugs();
    ReasonGiven();
    EntryMerges(Merged(EMPTY_STATE, 0, 0, None), DAY, "a", [], "", "r", audit);
    hide MergeEntry;
  }

  lemma SecondOfTwo(acc: Merged, audit: string)
    requires acc.error.None?
    requires var h := HeaderOf(DAY, "a", "", "r");
             acc.state == State(map[h.id := NewCampaign(h, audit)], [h.id], map[], map[])
    ensures var r := MergeEntry(acc, Entry(NEXT_DAY, "a", [PlainTask("x", "discovery")], "", ""), audit);
            r.error.None? && Both(r.state, audit)
  {
    hide Entry, IdOf, IsDate, PlainTask, Reproposed, NewTask, AddTask, SlugKey, Admit, MergeTasks;
    DaysAreDates();
    Slugs();
    IdsDiffer();
    PlainParts("x", "discovery");
    var c, g := PlainTask("x", "discovery"), HeaderOf(NEXT_DAY, "a", "", "");
    EntryMerges(acc, NEXT_DAY, "a", [c], "", "", audit);
    hide MergeEntry;
    AdmitNew(acc.state, g, audit);
    var admitted := acc.(state := Admit(acc.state, g, audit).value, campaigns := acc.campaigns + 1);
    assert Raws([c]) == [Reproposed(c)] + [];
    TaskMerges(admitted, g, c, [], {}, {});
    AddedTask(admitted.state, g, c);
    NoMoreTasks(admitted.(state := AddTask(admitted.state, g, c).value, tasks := admitted.tasks + 1), g, {} + {c.id},
                {} + {c.slug});
  }

  lemma AdmitNew(s: State, h: Header, audit: string)
    requires h.id !in s.campaigns
    ensures Admit(s, h, audit) ==
              Ok(s.(campaigns := s.campaigns[h.id := NewCampaign(h, audit)], order := s.order + [h.id]))
  {
  }

  lemma NoMoreTasks(acc: Merged, h: Header, ids: set<string>, slugs: set<string>)
    requires h.id in acc.state.campaigns
    ensures MergeTasks(acc, h, [], ids, slugs) == acc
  {
  }

  lemma TwoMerge(audit: string)
    ensures var m := MergeProposal(EMPTY_STATE, TwoCampaigns(), audit); m.error.None? && Both(m.state, audit)
  {
    hide MergeEntry, Entry, Both, HeaderOf;
    var acc := Merged(EMPTY_STATE, 0, 0, None);
    var first, second := Entry(DAY, "a", [], "", "r"), Entry(NEXT_DAY, "a", [PlainTask("x", "discovery")], "", "");
    FirstOfTwo(audit);
    var once := MergeEntry(acc, first, audit);
    SecondOfTwo(once, audit);
    OneEntry(acc, first, [second], audit);
    OneEntry(once, second, [], audit);
    assert [second] + [] == [second] && [first] + [second] == [first, second];
  }

  lemma EarlierSelected(s: State, audit: string)
    requires Both(s, audit)
    ensures OrderedKeys(s) && Select(s) == Some(IdOf(DAY, "a"))
  {
    hide IdOf, Less, PlainTask;
    DaysInOrder();
    LessAsymmetric(DAY, NEXT_DAY);
    var b, a := IdOf(DAY, "a"), IdOf(NEXT_DAY, "a");
    NoRisk(s.campaigns[b]);
    PlainRisk();
    NoRisk(s.campaigns[a]);
    assert [b, a][1..] == [a] && [a][1..] == [];
  }

  lemma PlainRisk()
    ensures PlainTask("x", "discovery").risk == Low
  {
  }

  lemma NoRisk(x: Campaign)
    requires forall t :: t in x.tasks ==> x.tasks[t].content.risk != High
    ensures HighRiskCount(x) == 0
  {
    assert (set t | t in x.tasks && x.tasks[t].status != Success && x.tasks[t].content.risk == High) == {};
  }

  /** The fallback takes the index entry of the later campaign's task: a reached case of `DiscoveryCanBreakIndexes`. */
  lemma FallbackBreaksIndexes(runId: string)
    ensures var input :=
              PassInput(runId, TwoCampaigns(), Execute, true, false, Always(Finishes(Report(Success), map[])), false);
            && WellFormed(NEW_WORLD.disk) && IndexesAgree(NEW_WORLD.disk)
               && !IndexesAgree(RunPass(NEW_WORLD, input).world.disk)
  {
    hide MergeProposal, RunPass, WellFormed, IdOf, TwoCampaigns, Updatable, DocName, PlainTask, SlugKey, IndexesAgree;
    hide Select;
    NothingCompleted();
    NothingIndexed();
    var input := PassInput(runId, TwoCampaigns(), Execute, true, false, Always(Finishes(Report(Success), map[])),
                           false);
    TwoMerge(AuditOf(runId));
    var m := MergeProposal(EMPTY_STATE, TwoCampaigns(), AuditOf(runId)).state;
    EarlierSelected(m, AuditOf(runId));
    var b, a := IdOf(DAY, "a"), IdOf(NEXT_DAY, "a");
    EmptyUpdatable();
    PlainParts("x", "discovery");
    assert PassSelection(NEW_WORLD, input) == Some((m, b));
    assert EntersFallback(map[], input, m.campaigns[b]);
    MergeKeepsIndexes(EMPTY_STATE, TwoCampaigns(), AuditOf(runId));
    DiscoveryCanBreakIndexes(m, b, runId, a, "x");
    DiscoveryKeepsIndexesIff(m, b, runId);
    assert SpoilsIndexes(NEW_WORLD, input);
    PassKeepsIndexesIff(NEW_WORLD, input);
  }

  lemma NothingIndexed()
    ensures IndexesAgree(EMPTY_STATE)
  {
  }

  // ---------------------------------------------------------------- a success beside a stale receipt

  /** One campaign, open, whose first task failed and has its receipt, with a document that can be recorded in. */
  ghost predicate FailedOnce(w: World, c: string) {
    && c in w.disk.campaigns && Alone(w.disk, c, w.disk.campaigns[c])
    && var x := w.disk.campaigns[c];
       && x.tasks.Keys == {"x", "y"} && x.tasks["x"].status == Failed && x.tasks["x"].receiptCommit.Some?
       && x.tasks["y"].status != Success && !StemsCollide(x) && Ready(w.docs, x)
  }

  lemma TwoIds(x: Campaign)
    requires x.tasks.Keys == {"x", "y"}
    ensures SortedKeys(x.tasks.Keys) == ["x", "y"]
  {
    hide Less;
    var ids := SortedKeys(x.tasks.Keys);
    TwoKeys();
    LessAsymmetric("x", "y");
    assert |ids| == 2 && ids[0] in ids && ids[1] in ids && Less(ids[0], ids[1]);
    LessIrreflexive(ids[0]);
  }

  lemma TwoKeys()
    ensures "x" != "y" && Less("x", "y") && |{"x", "y"}| == 2
  {
  }

  /** The slugs "a" and "b" lead to different files. */
  lemma TwoTasksNoCollision(x: Campaign)
    requires x.tasks.Keys == {"x", "y"} && x.tasks["x"].content.slug == "a" && x.tasks["y"].content.slug == "b"
    ensures !StemsCollide(x)
  {
    hide LowerSnake, DashesToUnderscores;
    var suffix := "_" + DashesToUnderscores(x.date);
    OneLetter("a");
    OneLetter("b");
    assert Stem(x, "a") == "a" + suffix && Stem(x, "b") == "b" + suffix;
    assert Stem(x, "a")[0] == 'a' && Stem(x, "b")[0] == 'b';
  }

  lemma OneLetter(s: string)
    requires s == "a" || s == "b"
    ensures LowerSnake(s) == s
  {
    hide Strip;
    StripTrimmed(s);
    assert s[1..] == "";
    assert ToLower(s) == s by { LowerLetter(s); }
    assert Underscored("", false) == "";
    assert Underscored(s, false) == [s[0]] + "";
    assert TrimUnderscores(s) == s;
  }

  lemma LowerLetter(s: string)
    requires s == "a" || s == "b"
    ensures ToLower(s) == s
  {
    assert s[1..] == "" && ToLower("") == "";
  }

  lemma StemsKept(x: Campaign, y: Campaign, t: string)
    requires t in x.tasks && t in y.tasks && y.tasks == x.tasks[t := y.tasks[t]] && y.date == x.date
    requires y.tasks[t].content == x.tasks[t].content && StemsCollide(y)
    ensures StemsCollide(x)
  {
    hide LowerSnake, DashesToUnderscores;
    var u, v :| u in y.tasks && v in y.tasks && u != v
             && Stem(y, y.tasks[u].content.slug) == Stem(y, y.tasks[v].content.slug);
    assert Stem(x, x.tasks[u].content.slug) == Stem(x, x.tasks[v].content.slug);
  }

  lemma FailingRun(l: Loop, input: PassInput, c: string)
    requires l.stop.Running? && HoldsTask(l.memory, c, "x") && l.memory.campaigns[c].tasks["x"].status != Success
    requires input.agent("x") == Finishes(Report(Failed), map[]) && Ready(l.world.docs, l.memory.campaigns[c])
    ensures var r := RunTask(l, input, c, "x");
            && r.stop == StoppedBy("x", Failed)
            && c in r.memory.campaigns && r.memory.campaigns.Keys == l.memory.campaigns.Keys
            && r.memory.order == l.memory.order
            && (forall d :: d in l.memory.campaigns && d != c ==> r.memory.campaigns[d] == l.memory.campaigns[d])
            && r.memory.campaigns[c] == l.memory.campaigns[c].(tasks := r.memory.campaigns[c].tasks)
            && "x" in r.memory.campaigns[c].tasks
            && r.memory.campaigns[c].tasks == l.memory.campaigns[c].tasks["x" := r.memory.campaigns[c].tasks["x"]]
            && r.memory.campaigns[c].tasks["x"].content == l.memory.campaigns[c].tasks["x"].content
            && r.memory.campaigns[c].tasks["x"].status == Failed && r.memory.campaigns[c].tasks["x"].receiptCommit.Some?
            && Ready(r.world.docs, r.memory.campaigns[c])
  {
    hide Recorded, Ready, StateHash, DocsStep, SetTask;
    assert l.world.docs + map[] == l.world.docs;
    var x, p := l.memory.campaigns[c], |l.world.commits|;
    RecordedStep(l.world.docs, x, "x", p);
    var done := Reported(x.tasks["x"], Report(Failed), p);
    var received := done.(receiptCommit := Some(p + 1));
    SetTwice(l.memory, c, "x", done, received);
    assert RunTask(l, input, c, "x").memory == SetTask(l.memory, c, "x", received);
    SetTaskShape(l.memory, c, "x", received);
    ReadyByName(RunTask(l, input, c, "x").world.docs, x, SetTask(l.memory, c, "x", received).campaigns[c]);
  }

  lemma SetTaskShape(s: State, c: string, t: string, task: Task)
    requires HoldsTask(s, c, t)
    ensures var next := SetTask(s, c, t, task);
            && c in next.campaigns && next.campaigns.Keys == s.campaigns.Keys && next.order == s.order
            && (forall d :: d in s.campaigns && d != c ==> next.campaigns[d] == s.campaigns[d])
            && next.campaigns[c] == s.campaigns[c].(tasks := next.campaigns[c].tasks)
            && next.campaigns[c].tasks == s.campaigns[c].tasks[t := task]
  {
  }

  /** The loop ends with the task that stops it. */
  lemma StopsAtFirst(l: Loop, input: PassInput, c: string)
    requires l.stop.Running? && HoldsTask(l.memory, c, "x") && HoldsTask(l.memory, c, "y")
    requires l.memory.campaigns[c].tasks["x"].status != Success && !RunTask(l, input, c, "x").stop.Running?
    ensures RunTasks(l, input, c, ["x", "y"]) == RunTask(l, input, c, "x")
  {
    hide RunTask;
    assert ["x", "y"][1..] == ["y"];
    StoppedStays(RunTask(l, input, c, "x"), input, c, ["y"]);
  }

  /** The campaign as it is merged for the first time. */
  function FirstCampaign(runId: string): Campaign {
    With(HeaderOf(DAY, "a", "", ""), AuditOf(runId),
         map["x" := NewTask(PlainTask("x", "a"), "a"), "y" := NewTask(PlainTask("y", "b"), "a")])
  }

  lemma FirstMerged(runId: string) returns (m: State)
    ensures WellFormed(NEW_WORLD.disk) && PassMerged(NEW_WORLD, FirstInput(runId), m)
    ensures Alone(m, IdOf(DAY, "a"), FirstCampaign(runId))
  {
    hide MergeProposal, WellFormed, Entry, IdOf, PlainTask;
    NothingCompleted();
    Slugs();
    PlainParts("x", "a");
    PlainParts("y", "b");
    TwoKeys();
    OneLetterSlugs();
    MergeTwo("a", PlainTask("x", "a"), PlainTask("y", "b"), "", AuditOf(runId));
    m := MergeProposal(EMPTY_STATE, FirstInput(runId).proposal, AuditOf(runId)).state;
  }

  lemma FirstCampaignParts(runId: string)
    ensures var x := FirstCampaign(runId);
            && x.tasks.Keys == {"x", "y"} && x.tasks["x"].status == Pending && x.tasks["y"].status == Pending
            && !StemsCollide(x) && x.markdown == "" && x.status == Open && x.dependsOn == []
  {
    hide IdOf, StemsCollide, PlainTask;
    PlainParts("x", "a");
    PlainParts("y", "b");
    TwoKeys();
    TwoTasksNoCollision(FirstCampaign(runId));
  }

  /** What the failing loop leaves, once the pass has finished. */
  lemma FailedLeaves(l: Loop, input: PassInput, c: string, x: Campaign)
    requires l.stop.Running? && c in l.memory.campaigns && Alone(l.memory, c, l.memory.campaigns[c])
    requires l.memory.campaigns[c] == x.(materialized := l.memory.campaigns[c].materialized) && !StemsCollide(x)
    requires x.tasks.Keys == {"x", "y"} && x.tasks["x"].status == Pending && x.tasks["y"].status == Pending
    requires input.agent("x") == Finishes(Report(Failed), map[]) && Ready(l.world.docs, l.memory.campaigns[c])
    ensures var r := RunTasks(l, input, c, ["x", "y"]);
            && c in r.memory.campaigns && !r.stop.Raised?
            && FailedOnce(r.world.(disk := Completing(r.memory, c)), c)
  {
    hide RunTask, RunTasks, StemsCollide, Ready;
    TwoKeys();
    FailingRun(l, input, c);
    StopsAtFirst(l, input, c);
    var r := RunTasks(l, input, c, ["x", "y"]);
    var y := r.memory.campaigns[c];
    if StemsCollide(UpdateCompletion(y)) {
      StemsKept(x, UpdateCompletion(y), "x");
    }
    NotSucceeded(y);
    ReadyByName(r.world.docs, y, UpdateCompletion(y));
  }

  lemma FirstAttempt(runId: string)
    ensures WellFormed(NEW_WORLD.disk) && FailedOnce(RunPass(NEW_WORLD, FirstInput(runId)).world, IdOf(DAY, "a"))
  {
    hide MergeProposal, RunPass, WellFormed, IdOf, Updatable, DocName, Materialize, StemsCollide, FirstCampaign;
    hide Completing;
    hide Finish, WorkOn, RunTasks, Ready, Started, AllSucceeded, Placed, SortedKeys, StateHash, Select;
    var input, x, c := FirstInput(runId), FirstCampaign(runId), IdOf(DAY, "a");
    var m := FirstMerged(runId);
    FirstCampaignParts(runId);
    AloneSelected(m, c, x);
    PassRunsSelected(NEW_WORLD, input, m, c);
    NoCollisionMaterializes(x);
    var previous := StateHash(NEW_WORLD.disk);
    RunSelectedShape(NEW_WORLD, m, input, previous, c);
    StartedShape(NEW_WORLD, m, previous, c);
    var l := Started(NEW_WORLD, m, previous, c);
    EmptyUpdatable();
    PlacedReady(NEW_WORLD.docs, x);
    ReadyByName(l.world.docs, x, l.memory.campaigns[c]);
    TwoIds(x);
    var worked := RunTasksOn(l, input, c);
    FailedLeaves(l, input, c, x);
    var end := WorkTermination(worked, input, c, true);
    FinishEnd(worked.world, Completing(worked.memory, c), input, worked.previous, end);
    FinishKeepsDocs(worked.world, Completing(worked.memory, c), input, worked.previous, end);
  }

  lemma OneLetterSlugs()
    ensures IsSlug("a") && IsSlug("b") && "a" != "b"
  {
  }

  lemma NotSucceeded(x: Campaign)
    requires "x" in x.tasks && x.tasks["x"].status == Failed
    ensures !AllSucceeded(x) && UpdateCompletion(x) == x.(status := Open)
  {
  }

  lemma FinishKeepsDocs(w: World, s: State, input: PassInput, previous: StateSha, end: Termination)
    ensures Finish(w, s, input, previous, end).world.docs == w.docs
  {
    hide StateHash;
  }

  lemma PassRunsSelected(w: World, input: PassInput, m: State, c: string)
    requires WellFormed(w.disk) && PassMerged(w, input, m) && OrderedKeys(m) && Select(m) == Some(c) && c in m.campaigns
    ensures RunPass(w, input) == RunSelected(w, m, input, StateHash(w.disk), c)
  {
    hide MergeProposal, Select, RunSelected, WellFormed, StateHash;
  }

  function FirstInput(runId: string): PassInput {
    PassInput(runId, Proposal([Entry(DAY, "a", [PlainTask("x", "a"), PlainTask("y", "b")], "", "")]), Execute, false,
              false,
              Always(Finishes(Report(Failed), map[])), false)
  }

  /** Nothing new is proposed; the first task succeeds, and what follows is given. */
  function Retry(runId: string, first: TaskOutcome, second: TaskOutcome): PassInput {
    PassInput(runId, Proposal([]), Execute, false, false, t => if t == "x" then first else second, false)
  }

  /** The receipt of the success cannot be committed. */
  function ReceiptFails(runId: string): PassInput {
    Retry(runId, FailsAfterSave(Report(Success), map[]), FailsBeforeCommit(map[]))
  }

  /** The receipt is committed, and the next task fails before the state is saved again. */
  function NextFails(runId: string): PassInput {
    Retry(runId, Finishes(Report(Success), map[]), FailsBeforeCommit(map[]))
  }

  lemma SecondAttempt(runId: string, w: World, c: string, input: PassInput)
    requires WellFormed(w.disk) && FailedOnce(w, c) && (input == ReceiptFails(runId) || input == NextFails(runId))
    ensures PassLeavesStale(w, input)
  {
    hide WellFormed, PassSelection, Updatable, DocName, StemsCollide, StaleSomewhere, SortedKeys;
    var x := w.disk.campaigns[c];
    assert MergeProposal(w.disk, input.proposal, AuditOf(runId)).state == w.disk;
    AloneSelection(w, input, c, x);
    TwoIds(x);
    BothLeft(x.tasks);
    StaleRetry(runId, input, DocName(x), x.tasks);
  }

  lemma BothLeft(tasks: map<string, Task>)
    requires "x" in tasks && "y" in tasks && tasks["x"].status == Failed && tasks["y"].status != Success
    ensures Unfinished(tasks, ["x", "y"]) == ["x", "y"]
  {
    var none: seq<string> := [];
    assert ["x", "y"][1..] == ["y"] && ["y"][1..] == none;
    assert Unfinished(tasks, none) == none;
    assert Unfinished(tasks, ["y"]) == ["y"] + none;
  }

  lemma StaleRetry(runId: string, input: PassInput, name: string, tasks: map<string, Task>)
    requires HasReceipt(tasks, "x") && (input == ReceiptFails(runId) || input == NextFails(runId))
    ensures StaleSomewhere(input, name, tasks, ["x", "y"], true, false)
  {
    TwoKeys();
    if input == ReceiptFails(runId) {
      assert StaleAt(input, name, tasks, ["x", "y"], true, false, 0);
    } else {
      assert Succeeds(input, name, "x", true) && !Saves(input, name, "y", true);
      assert StaleAt(input, name, tasks, ["x", "y"], true, false, 1);
    }
  }

  /**
   A task fails and gets its receipt; in the next pass it succeeds. Its new receipt cannot be committed, or is
   committed and never saved because the task after it fails early: either way the state file names the new
   implementation and the old receipt.
   */
  lemma ReceiptGoesStale(runId: string, input: PassInput)
    requires input == ReceiptFails(runId) || input == NextFails(runId)
    ensures WellFormed(NEW_WORLD.disk) && AllPaired(NEW_WORLD.disk)
    ensures !AllPaired(RunAll(NEW_WORLD, [FirstInput(runId), input]).disk)
  {
    hide RunPass, WellFormed, AllPaired, RunAll, FailedOnce, PassLeavesStale, FirstInput, ReceiptFails, NextFails, IdOf;
    NothingCompleted();
    NothingPaired();
    NewWorldSound();
    var fails := FirstInput(runId);
    PassKeepsWellFormed(NEW_WORLD, fails);
    PassSound(NEW_WORLD, fails);
    var w := RunPass(NEW_WORLD, fails).world;
    FirstAttempt(runId);
    SecondAttempt(runId, w, IdOf(DAY, "a"), input);
    PassPairedIff(w, input);
    TwoPasses(NEW_WORLD, fails, input);
  }

  lemma NothingPaired()
    ensures AllPaired(EMPTY_STATE)
  {
  }

  lemma TwoPasses(w: World, a: PassInput, b: PassInput)
    requires WellFormed(w.disk) && WellFormed(RunPass(w, a).world.disk)
    ensures RunAll(w, [a, b]) == RunPass(RunPass(w, a).world, b).world
  {
    hide RunPass, WellFormed;
    assert [a, b][1..] == [b] && [b][1..] == [];
    PassKeepsWellFormed(RunPass(w, a).world, b);
    assert RunAll(RunPass(w, a).world, [b]) == RunAll(RunPass(RunPass(w, a).world, b).world, []);
  }
}
