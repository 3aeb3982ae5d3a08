/** Proposals from a new repository in which the campaign with the later date comes first. */
module OrderWitness {
  import opened Wrappers
  import opened Text
  import opened Json
  import opened Tasks
  import opened Campaigns
  import opened Merge
  import opened Confluence
  import opened Selection
  import opened RunSafety
  import opened Witnesses

  function RiskTask(id: string, slug: string, risk: Risk): Content { PlainTask(id, slug).(risk := risk) }

  /** A campaign entry with these dependencies and one task. */
  function EntryOn(date: string, slug: string, depends: seq<string>, task: Content): RawCampaign {
    RawCampaign(Some(String(IdOf(date, slug))), Some(String(slug)), Some(Array(Strings(depends))), Some(String("")),
                TaskList(Raws([task])), None)
  }

  function HeaderOn(date: string, slug: string, depends: seq<string>): Header {
    HeaderOf(date, slug, "", "").(dependsOn := depends)
  }

  lemma RiskNormalizes(id: string, slug: string, risk: Risk)
    requires IsTaskId(id) && IsSlug(slug)
    ensures NormalizeTask(Reproposed(RiskTask(id, slug, risk))) == Ok(RiskTask(id, slug, risk))
  {
    hide NormalizeTask, NormalizeLists, Reproposed;
    var c := RiskTask(id, slug, risk);
    ReproposalHeader(c);
    ReproposalLists(c);
  }

  /** What an entry on no campaign, or on one with a blank before its id, is decoded to. */
  lemma OnDecodes(date: string, slug: string, depends: seq<string>, id: string, task: Content)
    requires IsDate(date) && IsSlug(slug)
    requires depends == [] || (depends == [" " + id] && Strip(id) == id != "" && ParseCampaignId(id).Some?)
    ensures DecodeHeader(EntryOn(date, slug, depends, task)) ==
              Ok(HeaderOn(date, slug, if depends == [] then [] else [id]))
  {
    hide Strip, ParseCampaignId, IdOf, IsSlug, IsDate, DependencyIds, Strings;
    IdIsTrimmed(date, slug);
    NamesTrimmed(slug);
    SlugNotEmpty(slug);
    StripOfNothing();
    Depends(depends, id);
  }

  lemma Depends(depends: seq<string>, id: string)
    requires depends == [] || (depends == [" " + id] && Strip(id) == id != "")
    ensures DependencyIds(Strings(depends)) == if depends == [] then [] else [id]
  {
    hide Strip;
    if depends != [] {
      var text := " " + id;
      StripBlank(id);
      assert [text][1..] == [] && Strings([text]) == [String(text)] && [String(text)][1..] == [];
      assert Str(String(text)) == text;
    }
  }

  lemma StripBlank(id: string)
    ensures Strip(" " + id) == Strip(id)
  {
    assert (" " + id)[1..] == id;
  }

  /** The state once a further campaign with one task has been merged. */
  ghost predicate Gained(s: State, next: State, h: Header, audit: string, c: Content) {
    && next.campaigns == s.campaigns[h.id := With(h, audit, map[c.id := NewTask(c, h.slug)])]
    && next.order == s.order + [h.id] && next.byId.Keys == s.byId.Keys + {c.id}
    && next.bySlug.Keys == s.bySlug.Keys + {SlugKey(h.slug, c.slug)}
  }

  lemma OnMerges(acc: Merged, date: string, slug: string, depends: seq<string>, id: string, c: Content, audit: string)
    requires IsDate(date) && IsSlug(slug) && acc.error.None? && IdOf(date, slug) !in acc.state.campaigns
    requires depends == [] || (depends == [" " + id] && Strip(id) == id != "" && ParseCampaignId(id).Some?)
    requires NormalizeTask(Reproposed(c)) == Ok(c) && c.id !in acc.state.byId
             && SlugKey(slug, c.slug) !in acc.state.bySlug
    ensures var m := MergeEntry(acc, EntryOn(date, slug, depends, c), audit);
            && m.error.None?
            && Gained(acc.state, m.state, HeaderOn(date, slug, if depends == [] then [] else [id]), audit, c)
  {
    hide DecodeHeader, NormalizeTask, AddTask, Reproposed, IdOf, IsDate, IsSlug, SlugKey, Strip, ParseCampaignId;
    hide Admit, Strings;
    OnDecodes(date, slug, depends, id, c);
    var h := HeaderOn(date, slug, if depends == [] then [] else [id]);
    AdmitNew(acc.state, h, audit);
    var admitted := acc.(state := Admit(acc.state, h, audit).value, campaigns := acc.campaigns + 1);
    AddedTask(admitted.state, h, c);
    OneTaskMerges(admitted, h, c);
    assert Raws([c]) == [Reproposed(c)] by { assert [c][1..] == []; }
  }

  lemma OneTaskMerges(acc: Merged, h: Header, c: Content)
    requires h.id in acc.state.campaigns && acc.error.None? && NormalizeTask(Reproposed(c)) == Ok(c)
    requires AddTask(acc.state, h, c).Ok?
    ensures var m := MergeTasks(acc, h, [Reproposed(c)], {}, {});
            m.error.None? && m.state == AddTask(acc.state, h, c).value
  {
    hide NormalizeTask, AddTask, Reproposed;
    NotNotAnObject(c);
    assert [Reproposed(c)][1..] == [];
  }

  // ---------------------------------------------------------------- the two proposals

  /** Two campaigns, the earlier of which has these dependencies and the later this risk. */
  function TwoInOrder(depends: seq<string>, risk: Risk): Proposal {
    Proposal([EntryOn(DAY, "a", depends, RiskTask("x", "a", Low)),
              EntryOn(NEXT_DAY, "b", [], RiskTask("y", "b", risk))])
  }

  /** What they merge to. */
  ghost predicate InOrder(s: State, depends: seq<string>, risk: Risk, audit: string) {
    var h, g := HeaderOn(DAY, "a", depends), HeaderOn(NEXT_DAY, "b", []);
    && h.id != g.id && s.order == [h.id, g.id]
    && s.campaigns == map[h.id := With(h, audit, map["x" := NewTask(RiskTask("x", "a", Low), "a")]),
                          g.id := With(g, audit, map["y" := NewTask(RiskTask("y", "b", risk), "b")])]
  }

  lemma KeysApart()
    ensures SlugKey("a", "a") != SlugKey("b", "b") && "x" != "y" && IdOf(DAY, "a") != IdOf(NEXT_DAY, "b")
  {
    hide IdOf, ParseCampaignId, SlugKey;
    Slugs();
    OneLetterSlugs();
    if SlugKey("a", "a") == SlugKey("b", "b") {
      SlugKeyInjective("a", "a", "b", "b");
    }
    TwoKeys();
    DaysAreDates();
    IdIsTrimmed(DAY, "a");
    IdIsTrimmed(NEXT_DAY, "b");
  }

  lemma GainedInOrder(once: State, twice: State, depends: seq<string>, risk: Risk, audit: string)
    requires Gained(EMPTY_STATE, once, HeaderOn(DAY, "a", depends), audit, RiskTask("x", "a", Low))
    requires Gained(once, twice, HeaderOn(NEXT_DAY, "b", []), audit, RiskTask("y", "b", risk))
    ensures InOrder(twice, depends, risk, audit)
  {
    hide RiskTask, NewTask, With, SlugKey;
    KeysApart();
    TaskNames();
  }

  lemma InOrderMerges(blank: bool, risk: Risk, audit: string)
    ensures var id := IdOf(NEXT_DAY, "b");
            var m := MergeProposal(EMPTY_STATE, TwoInOrder(if blank then [" " + id] else [], risk), audit);
            m.error.None? && InOrder(m.state, if blank then [id] else [], risk, audit)
  {
    hide MergeEntry, EntryOn, IdOf, IsDate, ParseCampaignId, Strip, RiskTask, SlugKey, NewTask, NormalizeTask;
    hide Reproposed;
    hide InOrder, With;
    DaysAreDates();
    Slugs();
    OneLetterSlugs();
    KeysApart();
    TaskNames();
    IdIsTrimmed(NEXT_DAY, "b");
    RiskNormalizes("x", "a", Low);
    RiskNormalizes("y", "b", risk);
    var id, acc := IdOf(NEXT_DAY, "b"), Merged(EMPTY_STATE, 0, 0, None);
    var depends: seq<string> := if blank then [" " + id] else [];
    var c, d := RiskTask("x", "a", Low), RiskTask("y", "b", risk);
    OnMerges(acc, DAY, "a", depends, id, c, audit);
    var first, second := EntryOn(DAY, "a", depends, c), EntryOn(NEXT_DAY, "b", [], d);
    var once := MergeEntry(acc, first, audit);
    OnMerges(once, NEXT_DAY, "b", [], id, d, audit);
    GainedInOrder(once.state, MergeEntry(once, second, audit).state, if blank then [id] else [], risk, audit);
    OneEntry(acc, first, [second], audit);
    OneEntry(once, second, [], audit);
    assert [second] + [] == [second] && [first] + [second] == [first, second];
  }

  lemma TaskNames()
    ensures forall id, slug, risk :: RiskTask(id, slug, risk).id == id && RiskTask(id, slug, risk).slug == slug
  {
  }

  /** A dependency is kept, and keeps the earlier campaign back: the later one is selected. */
  lemma DependencyKeepsBack(audit: string)
    ensures var id := IdOf(NEXT_DAY, "b");
            var m := MergeProposal(EMPTY_STATE, TwoInOrder([" " + id], Low), audit);
            && m.error.None? && IdOf(DAY, "a") in m.state.campaigns
            && m.state.campaigns[IdOf(DAY, "a")].dependsOn == [id]
            && OrderedKeys(m.state) && !CanRun(m.state, IdOf(DAY, "a")) && Select(m.state) == Some(id)
  {
    hide IdOf, MergeProposal, Select, RiskTask;
    KeysApart();
    InOrderMerges(true, Low, audit);
    var id := IdOf(NEXT_DAY, "b");
    var s := MergeProposal(EMPTY_STATE, TwoInOrder([" " + id], Low), audit).state;
    NothingCompleted();
    MergeWellFormed(EMPTY_STATE, TwoInOrder([" " + id], Low), audit);
    assert CanRun(s, id) && !CanRun(s, IdOf(DAY, "a"));
    SelectedRanksFirst(s, id);
  }

  /** How many unfinished tasks of high risk there are among these. */
  function HighAmong(tasks: map<string, Task>): nat {
    |set t | t in tasks && tasks[t].status != Success && tasks[t].content.risk == High|
  }

  lemma HighOfOne(id: string, task: Task)
    requires task.status == Pending
    ensures HighAmong(map[id := task]) == if task.content.risk == High then 1 else 0
  {
    var tasks := map[id := task];
    var high := set t | t in tasks && tasks[t].status != Success && tasks[t].content.risk == High;
    assert high == if task.content.risk == High then {id} else {};
  }

  lemma HighCounts(s: State, audit: string)
    requires InOrder(s, [], High, audit)
    ensures HighAmong(s.campaigns[IdOf(DAY, "a")].tasks) == 0 && HighAmong(s.campaigns[IdOf(NEXT_DAY, "b")].tasks) == 1
  {
    hide IdOf, HighAmong;
    HighOfOne("x", NewTask(RiskTask("x", "a", Low), "a"));
    HighOfOne("y", NewTask(RiskTask("y", "b", High), "b"));
  }

  lemma BothCanRun(s: State, audit: string)
    requires InOrder(s, [], High, audit)
    ensures CanRun(s, IdOf(DAY, "a")) && CanRun(s, IdOf(NEXT_DAY, "b"))
    ensures forall c :: CanRun(s, c) ==> c == IdOf(DAY, "a") || c == IdOf(NEXT_DAY, "b")
  {
    hide IdOf, RiskTask;
  }

  /** A high-risk task decides before the date does. */
  lemma RiskComesFirst(audit: string)
    ensures var m := MergeProposal(EMPTY_STATE, TwoInOrder([], High), audit);
            && m.error.None? && OrderedKeys(m.state)
            && CanRun(m.state, IdOf(DAY, "a")) && CanRun(m.state, IdOf(NEXT_DAY, "b")) && Less(DAY, NEXT_DAY)
            && Select(m.state) == Some(IdOf(NEXT_DAY, "b"))
  {
    hide IdOf, MergeProposal, Select, InOrder, CanRun, Precedes, Less, WellFormed, TwoInOrder;
    InOrderMerges(false, High, audit);
    var s := MergeProposal(EMPTY_STATE, TwoInOrder([], High), audit).state;
    NothingCompleted();
    MergeWellFormed(EMPTY_STATE, TwoInOrder([], High), audit);
    DaysInOrder();
    BothCanRun(s, audit);
    HighCounts(s, audit);
    SelectedRanksFirst(s, IdOf(NEXT_DAY, "b"));
  }
}
