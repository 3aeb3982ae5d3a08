/** A merge stores exactly what the entries of the proposal say, field by field. */
module Readings {
  import opened Wrappers
  import opened Collections
  import opened Text
  import opened Json
  import opened Paths
  import opened Tasks
  import opened Campaigns
  import opened Merge
  import opened MergeLaws
  import opened Confluence
  import opened IndexLaws

  // ---------------------------------------------------------------- what a raw value says

  /** The text Python takes an optional value for, where anything false counts as empty. */
  ghost predicate Reads(value: Option<Json>, text: string) {
    match value
    case None => text == ""
    case Some(String(t)) => text == t
    case Some(j) => text == if Truthy(j) then Str(j) else ""
  }

  /** The ids are the items that are not blank, stripped, in their order; `at` gives their positions. */
  ghost predicate KeptAt(items: seq<Json>, ids: seq<string>, at: seq<nat>) {
    && |at| == |ids|
    && (forall k :: 0 <= k < |at| ==> IsItem(items, at[k], ids[k]))
    && Increasing(at)
    && (forall i, d :: IsItem(items, i, d) ==> i in at)
  }

  ghost predicate IsItem(items: seq<Json>, i: int, d: string) {
    0 <= i < |items| && Strip(Str(items[i])) == d != ""
  }

  ghost predicate Dependencies(value: Option<Json>, ids: seq<string>) {
    match value
    case None => ids == []
    case Some(j) => j.Array? && exists at :: KeptAt(j.items, ids, at)
  }

  ghost predicate IsCampaignId(text: string) {
    exists parts :: ValidCampaignId(parts) && text == parts.date + "::" + parts.slug + "::" + parts.seqNo
  }

  lemma CampaignIdIff(text: string)
    ensures IsCampaignId(text) <==> ParseCampaignId(text).Some?
  {
    hide ValidCampaignId, ParseCampaignId;
    if ParseCampaignId(text).Some? {
      CampaignIdRoundTrip(ParseCampaignId(text).value, text);
    }
    if parts :| ValidCampaignId(parts) && text == parts.date + "::" + parts.slug + "::" + parts.seqNo {
      CampaignIdRoundTrip(parts, text);
    }
  }

  lemma ItemLater(items: seq<Json>, i: int, d: string)
    requires items != []
    ensures IsItem(items[1..], i - 1, d) <==> i > 0 && IsItem(items, i, d)
  {
    hide Strip, Str;
  }

  lemma KeptSkips(items: seq<Json>, ids: seq<string>, at: seq<nat>)
    requires items != [] && KeptAt(items[1..], ids, at) && Strip(Str(items[0])) == ""
    ensures KeptAt(items, ids, Later(at))
  {
    var all := Later(at);
    assert forall d :: !IsItem(items, 0, d);
    LaterIncreasing(at);
    hide IsItem, Increasing;
    forall k | 0 <= k < |at|
      ensures IsItem(items, all[k], ids[k])
    {
      ItemLater(items, all[k], ids[k]);
    }
    forall i, d | IsItem(items, i, d)
      ensures i in all
    {
      ItemBound(items, i, d);
      ItemLater(items, i, d);
      var k :| 0 <= k < |at| && at[k] == i - 1;
      assert all[k] == i;
    }
  }

  lemma ItemBound(items: seq<Json>, i: int, d: string)
    requires IsItem(items, i, d)
    ensures 0 <= i < |items| && d == Strip(Str(items[i]))
  {
  }

  /** The first item at position 0, the others one place later. */
  ghost predicate FirstAnd(items: seq<Json>, ids: seq<string>, at: seq<nat>, more: seq<string>, all: seq<nat>) {
    && items != [] && |at| == |ids| && |all| == |more| == |at| + 1 && all[0] == 0
    && IsItem(items, 0, more[0])
    && forall k :: 0 < k < |all| ==> all[k] == at[k - 1] + 1 && more[k] == ids[k - 1]
  }

  lemma TakenItem(items: seq<Json>, ids: seq<string>, at: seq<nat>, more: seq<string>, all: seq<nat>, k: nat)
    requires FirstAnd(items, ids, at, more, all) && KeptAt(items[1..], ids, at) && k < |all|
    ensures IsItem(items, all[k], more[k])
  {
    hide IsItem, Increasing;
    if k > 0 {
      assert IsItem(items[1..], at[k - 1], ids[k - 1]);
      ItemLater(items, all[k], more[k]);
    }
  }

  lemma TakenAll(items: seq<Json>, ids: seq<string>, at: seq<nat>, more: seq<string>, all: seq<nat>, i: int, d: string)
    requires FirstAnd(items, ids, at, more, all) && KeptAt(items[1..], ids, at) && IsItem(items, i, d)
    ensures i in all
  {
    hide IsItem, Increasing;
    ItemBound(items, i, d);
    if i > 0 {
      ItemLater(items, i, d);
      var k :| 0 <= k < |at| && at[k] == i - 1;
      assert all[k + 1] == i;
    }
  }

  lemma KeptTakes(items: seq<Json>, ids: seq<string>, at: seq<nat>)
    requires items != [] && KeptAt(items[1..], ids, at) && Strip(Str(items[0])) != ""
    ensures KeptAt(items, [Strip(Str(items[0]))] + ids, [0] + Later(at))
  {
    var all, more := [0] + Later(at), [Strip(Str(items[0]))] + ids;
    assert IsItem(items, 0, more[0]);
    LaterIncreasing(at);
    hide IsItem, Strip, Str, Increasing;
    assert FirstAnd(items, ids, at, more, all);
    forall k | 0 <= k < |all|
      ensures IsItem(items, all[k], more[k])
    {
      hide FirstAnd;
      TakenItem(items, ids, at, more, all, k);
    }
    forall i, d | IsItem(items, i, d)
      ensures i in all
    {
      hide FirstAnd;
      TakenAll(items, ids, at, more, all, i, d);
    }
  }

  lemma {:induction false} DependencyIdsKept(items: seq<Json>) returns (at: seq<nat>)
    ensures KeptAt(items, DependencyIds(items), at)
  {
    hide Strip, Str, KeptAt;
    if items == [] {
      at := [];
      NothingKept();
    } else {
      at := DependencyIdsKept(items[1..]);
      if Strip(Str(items[0])) == "" {
        KeptSkips(items, DependencyIds(items[1..]), at);
        assert [] + DependencyIds(items[1..]) == DependencyIds(items[1..]);
        at := Later(at);
      } else {
        KeptTakes(items, DependencyIds(items[1..]), at);
        at := [0] + Later(at);
      }
    }
  }

  lemma NothingKept()
    ensures KeptAt([], DependencyIds([]), [])
  {
  }

  lemma KeptMembers(items: seq<Json>, d: string)
    ensures d in DependencyIds(items) <==> d != "" && exists i :: 0 <= i < |items| && Strip(Str(items[i])) == d
  {
    hide DependencyIds, Strip, Str;
    var at := DependencyIdsKept(items);
    var ids := DependencyIds(items);
    if d != "" {
      if i :| 0 <= i < |items| && Strip(Str(items[i])) == d {
        assert IsItem(items, i, d);
        var k :| 0 <= k < |at| && at[k] == i;
        assert IsItem(items, at[k], ids[k]);
      }
    }
    if d in ids {
      var k :| 0 <= k < |ids| && ids[k] == d;
      assert IsItem(items, at[k], ids[k]);
    }
  }

  // ---------------------------------------------------------------- which headers are accepted

  /** Every item that is not blank is, once stripped, a campaign id. */
  ghost predicate AllCampaignIds(items: seq<Json>) {
    forall i :: 0 <= i < |items| && Strip(Str(items[i])) != "" ==> IsCampaignId(Strip(Str(items[i])))
  }

  /** The campaign entry can be taken: what it must say, without its tasks. */
  ghost predicate Acceptable(raw: RawCampaign) {
    && raw.RawCampaign?
    && (exists idText, slugText, parts ::
          && Reads(raw.campaignId, idText) && Reads(raw.campaignSlug, slugText) && ValidCampaignId(parts)
          && Strip(idText) == parts.date + "::" + parts.slug + "::" + parts.seqNo && Strip(slugText) == parts.slug)
    && (raw.dependsOn.Some? ==> raw.dependsOn.value.Array? && AllCampaignIds(raw.dependsOn.value.items))
    && raw.tasks.TaskList?
    && (raw.tasks.items == [] ==> exists t :: raw.reason == Some(String(t)) && Strip(t) != "")
  }

  lemma ReadsIff(value: Option<Json>, text: string)
    ensures Reads(value, text) <==> text == TextOrEmpty(value)
  {
  }

  lemma DependenciesRead(raw: RawCampaign)
    requires raw.RawCampaign? && (raw.dependsOn.Some? ==> raw.dependsOn.value.Array?)
    ensures var ids := DependencyIds(if raw.dependsOn.None? then [] else raw.dependsOn.value.items);
            && Dependencies(raw.dependsOn, ids)
            && ((exists d :: d in ids && ParseCampaignId(d).None?) <==>
                  raw.dependsOn.Some? && !AllCampaignIds(raw.dependsOn.value.items))
  {
    hide Strip, Str, ParseCampaignId, IsCampaignId, DependencyIds;
    if raw.dependsOn.Some? {
      var items := raw.dependsOn.value.items;
      var at := DependencyIdsKept(items);
      forall d
        ensures d in DependencyIds(items) <==> d != "" && exists i :: 0 <= i < |items| && Strip(Str(items[i])) == d
        ensures IsCampaignId(d) <==> ParseCampaignId(d).Some?
      {
        KeptMembers(items, d);
        CampaignIdIff(d);
      }
    } else {
      assert DependencyIds([]) == [] by { NoDependencies(); }
    }
  }

  lemma NoDependencies()
    ensures DependencyIds([]) == []
  {
  }

  /** What an accepted entry says about its campaign. */
  ghost predicate Says(raw: RawCampaign, id: string, x: Campaign) {
    && raw.RawCampaign?
    && (exists idText, slugText ::
          && Reads(raw.campaignId, idText) && Reads(raw.campaignSlug, slugText)
          && id == Strip(idText) && x.slug == Strip(slugText))
    && ValidCampaignId(CampaignId(x.date, x.slug, x.seqNo)) && id == x.date + "::" + x.slug + "::" + x.seqNo
    && Dependencies(raw.dependsOn, x.dependsOn) && Reads(raw.markdown, x.markdown)
    && (forall t :: raw.reason == Some(String(t)) ==> x.reason == Some(t))
  }

  lemma AcceptedTexts(raw: RawCampaign)
    requires raw.RawCampaign?
    ensures var id, slug := Strip(TextOrEmpty(raw.campaignId)), Strip(TextOrEmpty(raw.campaignSlug));
            (exists idText, slugText, parts ::
               && Reads(raw.campaignId, idText) && Reads(raw.campaignSlug, slugText) && ValidCampaignId(parts)
               && Strip(idText) == parts.date + "::" + parts.slug + "::" + parts.seqNo && Strip(slugText) == parts.slug)
            <==> ParseCampaignId(id).Some? && ParseCampaignId(id).value.slug == slug
  {
    hide Strip, ParseCampaignId, ValidCampaignId, TextOrEmpty, Reads;
    var idText, slugText := TextOrEmpty(raw.campaignId), TextOrEmpty(raw.campaignSlug);
    ReadsIff(raw.campaignId, idText);
    ReadsIff(raw.campaignSlug, slugText);
    if ParseCampaignId(Strip(idText)).Some? {
      CampaignIdRoundTrip(ParseCampaignId(Strip(idText)).value, Strip(idText));
    }
    if a, b, parts :|
      && Reads(raw.campaignId, a) && Reads(raw.campaignSlug, b) && ValidCampaignId(parts)
      && Strip(a) == parts.date + "::" + parts.slug + "::" + parts.seqNo && Strip(b) == parts.slug
    {
      ReadsIff(raw.campaignId, a);
      ReadsIff(raw.campaignSlug, b);
      CampaignIdRoundTrip(parts, Strip(a));
    }
  }

  lemma IdNotEmpty(id: CampaignId, text: string)
    requires ParseCampaignId(text) == Some(id)
    ensures text != "" && id.slug != ""
  {
  }

  /** A header is decoded exactly when the entry is acceptable. */
  lemma AcceptedIff(raw: RawCampaign)
    ensures DecodeHeader(raw).Ok? <==> Acceptable(raw)
  {
    hide Strip, Str, ParseCampaignId, ValidCampaignId, TextOrEmpty, Reads, DependencyIds, AllCampaignIds;
    if raw.RawCampaign? {
      AcceptedTexts(raw);
      var id := Strip(TextOrEmpty(raw.campaignId));
      if ParseCampaignId(id).Some? {
        IdNotEmpty(ParseCampaignId(id).value, id);
      }
      if raw.dependsOn.None? || raw.dependsOn.value.Array? {
        DependenciesRead(raw);
      }
    }
  }

  /** The values of a decoded header are the entry's own. */
  lemma HeaderSays(raw: RawCampaign, audit: string)
    requires DecodeHeader(raw).Ok?
    ensures var h := DecodeHeader(raw).value; Says(raw, h.id, NewCampaign(h, audit))
    ensures (forall t :: raw.reason != Some(String(t))) ==> DecodeHeader(raw).value.reason == None
  {
    hide Strip, Str, ParseCampaignId, ValidCampaignId, TextOrEmpty, Reads, DependencyIds, AllCampaignIds, Dependencies;
    var h := DecodeHeader(raw).value;
    ReadsIff(raw.campaignId, TextOrEmpty(raw.campaignId));
    ReadsIff(raw.campaignSlug, TextOrEmpty(raw.campaignSlug));
    ReadsIff(raw.markdown, TextOrEmpty(raw.markdown));
    DependenciesRead(raw);
    CampaignIdRoundTrip(CampaignId(h.date, h.slug, h.seqNo), h.id);
  }

  // ---------------------------------------------------------------- what a task entry says

  /** The normalised content says, field by field, what the entry says. */
  ghost predicate TaskReads(raw: RawTask, c: Content) {
    && raw.RawTask? && HasRequired(raw)
    && c.id == Strip(Str(raw.id.value)) && IsTaskId(c.id)
    && c.slug == Strip(Str(raw.slug.value)) && IsSlug(c.slug)
    && c.area == Strip(Str(raw.area.value)) && RiskIs(ToUpper(Strip(Str(raw.risk.value))), c.risk)
    && raw.files.value.Array? && PathsRead(raw.files.value.items, c.files)
    && raw.tests.value.Array? && TextsRead(raw.tests.value.items, c.tests)
    && c.commitMessage == Strip(Str(raw.commitMessage.value)) != ""
    && c.artifactMarkdown == Str(raw.artifactMarkdown.value)
    && c.activationPrompt == Str(raw.activationPrompt.value)
    && raw.dependencies.value.Array? && TextsRead(raw.dependencies.value.items, c.dependencies)
    && (exists text :: Reads(raw.lane, text) && LaneIs(Strip(text), c.lane))
  }

  predicate RiskIs(text: string, risk: Risk) {
    (text == "HIGH" && risk == High) || (text == "MED" && risk == Med) || (text == "LOW" && risk == Low)
  }

  predicate LaneIs(text: string, lane: Option<Lane>) {
    || (text == "" && lane == None)
    || (text == "standard" && lane == Some(Standard))
    || (text == "architecture_impact" && lane == Some(ArchitectureImpact))
    || (text == "discovery" && lane == Some(Discovery))
    || (text == "docs_only" && lane == Some(DocsOnly))
    || (text == "proof_runbook" && lane == Some(ProofRunbook))
  }

  ghost predicate PathsRead(items: seq<Json>, files: seq<string>) {
    |items| == |files| && forall i :: 0 <= i < |items| ==> NormalizePath(Str(items[i])) == Ok(files[i])
  }

  ghost predicate TextsRead(items: seq<Json>, texts: seq<string>) {
    |items| == |texts| && forall i :: 0 <= i < |items| ==> texts[i] == Str(items[i])
  }

  lemma {:induction false} PathsReadIff(items: seq<Json>, files: seq<string>)
    ensures PathsRead(items, files) <==> NormalizePaths(items) == Ok(files)
  {
    hide NormalizePath, Str;
    if items == [] {
    } else if files == [] {
    } else {
      PathsReadIff(items[1..], files[1..]);
      assert files == [files[0]] + files[1..];
      if NormalizePath(Str(items[0])).Ok? && NormalizePaths(items[1..]).Ok? {
        var all := [NormalizePath(Str(items[0])).value] + NormalizePaths(items[1..]).value;
        assert NormalizePaths(items) == Ok(all) && all[0] == NormalizePath(Str(items[0])).value;
        assert all[1..] == NormalizePaths(items[1..]).value;
      }
      PathsReadStep(items, files);
    }
  }

  lemma PathsReadStep(items: seq<Json>, files: seq<string>)
    requires items != [] && files != []
    ensures PathsRead(items, files)
            <==> NormalizePath(Str(items[0])) == Ok(files[0]) && PathsRead(items[1..], files[1..])
  {
    hide NormalizePath, Str;
    if NormalizePath(Str(items[0])) == Ok(files[0]) && PathsRead(items[1..], files[1..]) {
      forall i | 0 <= i < |items|
        ensures NormalizePath(Str(items[i])) == Ok(files[i])
      {
        if i > 0 {
          assert items[i] == items[1..][i - 1] && files[i] == files[1..][i - 1];
        }
      }
    }
    if PathsRead(items, files) {
      forall i | 0 <= i < |items[1..]|
        ensures NormalizePath(Str(items[1..][i])) == Ok(files[1..][i])
      {
        assert items[i + 1] == items[1..][i] && files[i + 1] == files[1..][i];
      }
    }
  }

  lemma TextsReadIff(items: seq<Json>, texts: seq<string>)
    ensures TextsRead(items, texts) <==> texts == Texts(items)
  {
    hide Str;
  }

  lemma LaneIsIff(text: string, lane: Option<Lane>)
    ensures LaneIs(text, lane) <==> (text == "" || ParseLane(text).Some?) && lane == ParseLane(text)
  {
  }

  lemma RiskIsIff(text: string, risk: Risk)
    ensures RiskIs(text, risk) <==> ParseRisk(text) == Some(risk)
  {
  }

  /** Normalising an entry gives this content exactly when the entry says so. */
  lemma TaskReadsIff(raw: RawTask, c: Content)
    ensures TaskReads(raw, c) <==> raw.RawTask? && NormalizeTask(raw) == Ok(c)
  {
    hide Strip, Str, Reads, ParseLane, ParseRisk, LaneIs, RiskIs, NormalizePaths, Texts, IsTaskId, IsSlug, ToUpper;
    hide PathsRead, TextsRead;
    if raw.RawTask? && HasRequired(raw) {
      forall text
        ensures Reads(raw.lane, text) <==> text == TextOrEmpty(raw.lane)
      {
        ReadsIff(raw.lane, text);
      }
      LaneIsText(raw.lane);
      LaneIsIff(LaneText(raw.lane), c.lane);
      RiskIsIff(ToUpper(Strip(Str(raw.risk.value))), c.risk);
      if raw.files.value.Array? {
        PathsReadIff(raw.files.value.items, c.files);
      }
      if raw.tests.value.Array? {
        TextsReadIff(raw.tests.value.items, c.tests);
      }
      if raw.dependencies.value.Array? {
        TextsReadIff(raw.dependencies.value.items, c.dependencies);
      }
    }
  }

  lemma LaneIsText(lane: Option<Json>)
    ensures LaneText(lane) == Strip(TextOrEmpty(lane))
  {
    assert Strip("") == "";
  }

  // ---------------------------------------------------------------- what a merge stores

  /** The campaign holds the task the entry describes. */
  ghost predicate TaskStored(raw: RawTask, x: Campaign) {
    exists c :: TaskReads(raw, c) && c.id in x.tasks && x.tasks[c.id].hash == TaskDigest(c)
  }

  /** The campaign the entry names is there, says what the entry says, and holds all its tasks. */
  ghost predicate EntryStored(raw: RawCampaign, audit: string, s: State) {
    && raw.RawCampaign? && raw.tasks.TaskList?
    && exists id :: id in s.campaigns && StoredUnder(raw, audit, id, s.campaigns[id])
  }

  ghost predicate StoredUnder(raw: RawCampaign, audit: string, id: string, x: Campaign)
    requires raw.RawCampaign? && raw.tasks.TaskList?
  {
    && Says(raw, id, x) && audit in x.audits
    && forall j :: 0 <= j < |raw.tasks.items| ==> TaskStored(raw.tasks.items[j], x)
  }

  lemma SaysKept(raw: RawCampaign, id: string, x: Campaign, y: Campaign)
    requires Says(raw, id, x) && KeepsCampaign(x, y)
    ensures Says(raw, id, y)
  {
    hide ValidCampaignId, Dependencies, Reads, Strip;
  }

  lemma TaskStoredKept(raw: RawTask, x: Campaign, y: Campaign)
    requires TaskStored(raw, x) && KeepsCampaign(x, y)
    ensures TaskStored(raw, y)
  {
    hide TaskReads;
  }

  lemma EntryStoredKept(raw: RawCampaign, audit: string, s: State, next: State)
    requires EntryStored(raw, audit, s) && Extends(s, next)
    ensures EntryStored(raw, audit, next)
  {
    hide Says, TaskStored;
    var id :| id in s.campaigns && StoredUnder(raw, audit, id, s.campaigns[id]);
    var x, y := s.campaigns[id], next.campaigns[id];
    assert KeepsCampaign(x, y);
    SaysKept(raw, id, x, y);
    forall j | 0 <= j < |raw.tasks.items|
      ensures TaskStored(raw.tasks.items[j], y)
    {
      TaskStoredKept(raw.tasks.items[j], x, y);
    }
    assert StoredUnder(raw, audit, id, y);
  }

  lemma AddedStored(s: State, h: Header, raw: RawTask, c: Content)
    requires h.id in s.campaigns && AddTask(s, h, c).Ok? && TaskReads(raw, c)
    ensures TaskStored(raw, AddTask(s, h, c).value.campaigns[h.id])
  {
    hide TaskReads, SlugKey;
    assert AddTask(s, h, c).value.campaigns[h.id].tasks[c.id].hash == TaskDigest(c);
  }

  lemma OneTaskStored(s: State, h: Header, raw: RawTask)
    requires h.id in s.campaigns && s.campaigns[h.id].slug == h.slug && raw.RawTask? && NormalizeTask(raw).Ok?
    requires AddTask(s, h, NormalizeTask(raw).value).Ok?
    ensures var next := AddTask(s, h, NormalizeTask(raw).value).value;
            Extends(s, next) && next.campaigns[h.id].slug == h.slug && TaskStored(raw, next.campaigns[h.id])
  {
    hide NormalizeTask, AddTask, TaskStored, Extends, TaskReads;
    var c := NormalizeTask(raw).value;
    TaskReadsIff(raw, c);
    AddTaskExtends(s, h, c);
    AddedStored(s, h, raw, c);
    KeptSlug(s, AddTask(s, h, c).value, h.id);
  }

  lemma StoredStays(s: State, next: State, c: string, raw: RawTask)
    requires Extends(s, next) && c in s.campaigns && TaskStored(raw, s.campaigns[c])
    ensures c in next.campaigns && TaskStored(raw, next.campaigns[c])
  {
    hide Extends, TaskStored, KeepsCampaign;
    KeptUnder(s, next, c);
    TaskStoredKept(raw, s.campaigns[c], next.campaigns[c]);
  }

  lemma {:induction false} TasksStored(acc: Merged, h: Header, raws: seq<RawTask>, ids: set<string>, slugs: set<string>)
    requires h.id in acc.state.campaigns && acc.state.campaigns[h.id].slug == h.slug && acc.error.None?
    requires MergeTasks(acc, h, raws, ids, slugs).error.None?
    ensures var m := MergeTasks(acc, h, raws, ids, slugs);
            && Extends(acc.state, m.state) && h.id in m.state.campaigns
            && forall j :: 0 <= j < |raws| ==> TaskStored(raws[j], m.state.campaigns[h.id])
    decreases |raws|
  {
    hide NormalizeTask, AddTask, TaskStored, Extends;
    if raws == [] {
      ExtendsItself(acc.state);
    } else {
      var c, rest := NormalizeTask(raws[0]).value, raws[1..];
      var added := AddTask(acc.state, h, c).value;
      OneTaskStored(acc.state, h, raws[0]);
      var isNew := c.id !in acc.state.campaigns[h.id].tasks;
      var next := acc.(state := added, tasks := acc.tasks + if isNew then 1 else 0);
      TasksStored(next, h, rest, ids + {c.id}, slugs + {c.slug});
      var m := MergeTasks(next, h, rest, ids + {c.id}, slugs + {c.slug}).state;
      ExtendsTransitive(acc.state, added, m);
      StoredStays(added, m, h.id, raws[0]);
      forall j | 0 <= j < |raws|
        ensures TaskStored(raws[j], m.campaigns[h.id])
      {
        if j > 0 {
          assert raws[j] == rest[j - 1];
        }
      }
    }
  }

  lemma ExtendsItself(s: State)
    ensures Extends(s, s)
  {
    hide KeepsCampaign;
    forall c | c in s.campaigns
      ensures KeepsCampaign(s.campaigns[c], s.campaigns[c])
    {
      KeepsItself(s.campaigns[c]);
    }
  }

  lemma KeptUnder(s: State, next: State, c: string)
    requires Extends(s, next) && c in s.campaigns
    ensures c in next.campaigns && KeepsCampaign(s.campaigns[c], next.campaigns[c])
  {
    hide KeepsCampaign;
  }

  lemma KeptSlug(s: State, next: State, c: string)
    requires Extends(s, next) && c in s.campaigns
    ensures c in next.campaigns && next.campaigns[c].slug == s.campaigns[c].slug
  {
    KeptUnder(s, next, c);
  }

  /** What is admitted is stored as the entry says, whether the campaign is new or was there. */
  lemma AdmittedSays(s: State, raw: RawCampaign, audit: string)
    requires DecodeHeader(raw).Ok? && Admit(s, DecodeHeader(raw).value, audit).Ok?
    ensures var h := DecodeHeader(raw).value;
            var next := Admit(s, h, audit).value;
            && h.id in next.campaigns && next.campaigns[h.id].slug == h.slug
            && Says(raw, h.id, next.campaigns[h.id]) && audit in next.campaigns[h.id].audits
  {
    hide DecodeHeader, ValidCampaignId, Dependencies, Reads, Strip;
    HeaderSays(raw, audit);
  }

  lemma EntryStores(acc: Merged, raw: RawCampaign, audit: string)
    requires acc.error.None? && MergeEntry(acc, raw, audit).error.None?
    ensures Extends(acc.state, MergeEntry(acc, raw, audit).state)
    ensures Acceptable(raw) && EntryStored(raw, audit, MergeEntry(acc, raw, audit).state)
  {
    hide DecodeHeader, Admit, MergeTasks, Says, TaskStored, Extends, Acceptable;
    var h := DecodeHeader(raw).value;
    AcceptedIff(raw);
    AdmittedSays(acc.state, raw, audit);
    AdmitExtends(acc.state, h, audit);
    var admitted := Admit(acc.state, h, audit).value;
    var isNew := h.id !in acc.state.campaigns;
    var next := acc.(state := admitted, campaigns := acc.campaigns + if isNew then 1 else 0);
    TasksStored(next, h, raw.tasks.items, {}, {});
    var m := MergeTasks(next, h, raw.tasks.items, {}, {}).state;
    ExtendsTransitive(acc.state, admitted, m);
    KeptUnder(admitted, m, h.id);
    SaysKept(raw, h.id, admitted.campaigns[h.id], m.campaigns[h.id]);
    AuditKept(admitted.campaigns[h.id], m.campaigns[h.id], audit);
    assert StoredUnder(raw, audit, h.id, m.campaigns[h.id]);
  }

  lemma AuditKept(x: Campaign, y: Campaign, audit: string)
    requires KeepsCampaign(x, y) && audit in x.audits
    ensures audit in y.audits
  {
  }

  lemma {:induction false} EntriesStore(acc: Merged, raws: seq<RawCampaign>, audit: string)
    requires acc.error.None? && MergeEntries(acc, raws, audit).error.None?
    ensures var m := MergeEntries(acc, raws, audit);
            && Extends(acc.state, m.state)
            && forall i :: 0 <= i < |raws| ==> Acceptable(raws[i]) && EntryStored(raws[i], audit, m.state)
    decreases |raws|
  {
    hide MergeEntry, EntryStored, Extends, Acceptable;
    if raws == [] {
      ExtendsItself(acc.state);
    } else {
      var next, rest := MergeEntry(acc, raws[0], audit), raws[1..];
      EntryStores(acc, raws[0], audit);
      EntriesStore(next, rest, audit);
      var m := MergeEntries(next, rest, audit).state;
      ExtendsTransitive(acc.state, next.state, m);
      EntryStoredKept(raws[0], audit, next.state, m);
      forall i | 0 <= i < |raws|
        ensures Acceptable(raws[i]) && EntryStored(raws[i], audit, m)
      {
        if i > 0 {
          assert raws[i] == rest[i - 1];
        }
      }
    }
  }

  /**
   After a successful merge every entry of the proposal is stored as it says: the campaign under its stripped
   id has its slug, date, number, dependencies, markdown and reason, and holds its tasks.
   */
  lemma MergeStoresEntries(s: State, p: Proposal, audit: string)
    requires MergeProposal(s, p, audit).error.None?
    ensures p.Proposal?
    ensures var m := MergeProposal(s, p, audit).state;
            forall i :: 0 <= i < |p.campaigns| ==> Acceptable(p.campaigns[i]) && EntryStored(p.campaigns[i], audit, m)
  {
    hide EntryStored, Acceptable, MergeEntries;
    if p.Proposal? {
      EntriesStore(Merged(s, 0, 0, None), p.campaigns, audit);
    }
  }

  /** A merge whose entry names a dependency that is no campaign id fails. */
  lemma BadDependencyFails(s: State, p: Proposal, audit: string, i: nat, k: nat)
    requires p.Proposal? && i < |p.campaigns| && p.campaigns[i].RawCampaign?
    requires p.campaigns[i].dependsOn.Some? && p.campaigns[i].dependsOn.value.Array?
    requires var items := p.campaigns[i].dependsOn.value.items;
             k < |items| && Strip(Str(items[k])) != "" && !IsCampaignId(Strip(Str(items[k])))
    ensures MergeProposal(s, p, audit).error.Some?
  {
    hide EntryStored, MergeProposal, Strip, Str, IsCampaignId;
    if MergeProposal(s, p, audit).error.None? {
      MergeStoresEntries(s, p, audit);
      AcceptedDependency(p.campaigns[i], k);
    }
  }

  lemma AcceptedDependency(raw: RawCampaign, k: nat)
    requires Acceptable(raw) && raw.dependsOn.Some? && raw.dependsOn.value.Array? && k < |raw.dependsOn.value.items|
    ensures var d := Strip(Str(raw.dependsOn.value.items[k])); d != "" ==> IsCampaignId(d)
  {
    hide Strip, Str, IsCampaignId;
    assert AllCampaignIds(raw.dependsOn.value.items);
  }

  /** A task the merge adds has the entry's content and is pending, without commits or result. */
  lemma NewTaskIsAsSaid(s: State, p: Proposal, audit: string, c: string, raw: RawTask, said: Content)
    requires MergeProposal(s, p, audit).error.None? && c in MergeProposal(s, p, audit).state.campaigns
    requires TaskReads(raw, said) && TaskStored(raw, MergeProposal(s, p, audit).state.campaigns[c])
    requires !(c in s.campaigns && said.id in s.campaigns[c].tasks)
    ensures var x := MergeProposal(s, p, audit).state.campaigns[c];
            && said.id in x.tasks
            && x.tasks[said.id] == Task(said, Some(x.slug), TaskDigest(said), Pending, None, None, None)
  {
    hide MergeProposal, TaskReads, NormalizeTask;
    MergeExtends(s, p, audit);
    var m := MergeProposal(s, p, audit).state;
    var d :| TaskReads(raw, d) && d.id in m.campaigns[c].tasks && m.campaigns[c].tasks[d.id].hash == TaskDigest(d);
    TaskReadsIff(raw, d);
    TaskReadsIff(raw, said);
    if c in s.campaigns {
      assert KeepsCampaign(s.campaigns[c], m.campaigns[c]);
    } else {
      assert FreshCampaign(m.campaigns[c]);
    }
  }

  // ---------------------------------------------------------------- nothing else is stored

  /** Some entry names the campaign. */
  ghost predicate Proposed(raws: seq<RawCampaign>, c: string) {
    exists i :: 0 <= i < |raws| && NamesCampaign(raws[i], c)
  }

  ghost predicate NamesCampaign(raw: RawCampaign, c: string) {
    raw.RawCampaign? && raw.tasks.TaskList? && exists text :: Reads(raw.campaignId, text) && c == Strip(text)
  }

  /** Some entry names the campaign and lists the task. */
  ghost predicate ProposedTask(raws: seq<RawCampaign>, c: string, t: string) {
    exists i :: 0 <= i < |raws| && NamesCampaign(raws[i], c) && ListsTask(raws[i], t)
  }

  ghost predicate ListsTask(raw: RawCampaign, t: string) {
    && raw.RawCampaign? && raw.tasks.TaskList?
    && exists j :: 0 <= j < |raw.tasks.items| && NamesTask(raw.tasks.items[j], t)
  }

  ghost predicate NamesTask(raw: RawTask, t: string) {
    raw.RawTask? && raw.id.Some? && t == Strip(Str(raw.id.value))
  }

  ghost predicate OnlyTasks(s: State, m: State, h: Header, raws: seq<RawTask>) {
    && m.campaigns.Keys == s.campaigns.Keys
    && (forall c, t :: HoldsTask(m, c, t) && !HoldsTask(s, c, t) ==>
          c == h.id && exists j :: 0 <= j < |raws| && NamesTask(raws[j], t))
  }

  predicate HoldsTask(s: State, c: string, t: string) { c in s.campaigns && t in s.campaigns[c].tasks }

  lemma AddsOnly(s: State, h: Header, raw: RawTask)
    requires h.id in s.campaigns && raw.RawTask? && NormalizeTask(raw).Ok?
             && AddTask(s, h, NormalizeTask(raw).value).Ok?
    ensures OnlyTasks(s, AddTask(s, h, NormalizeTask(raw).value).value, h, [raw])
  {
    hide NormalizeTask, SlugKey, Strip, Str;
    var c := NormalizeTask(raw).value;
    TaskReadsIff(raw, c);
    assert NamesTask([raw][0], c.id);
  }

  lemma {:induction false} TasksOnly(acc: Merged, h: Header, raws: seq<RawTask>, ids: set<string>, slugs: set<string>)
    requires h.id in acc.state.campaigns && acc.error.None? && MergeTasks(acc, h, raws, ids, slugs).error.None?
    ensures OnlyTasks(acc.state, MergeTasks(acc, h, raws, ids, slugs).state, h, raws)
    decreases |raws|
  {
    hide NormalizeTask, AddTask, NamesTask;
    if raws != [] {
      var c, rest := NormalizeTask(raws[0]).value, raws[1..];
      AddsOnly(acc.state, h, raws[0]);
      var added := AddTask(acc.state, h, c).value;
      var isNew := c.id !in acc.state.campaigns[h.id].tasks;
      var next := acc.(state := added, tasks := acc.tasks + if isNew then 1 else 0);
      TasksOnly(next, h, rest, ids + {c.id}, slugs + {c.slug});
      var m := MergeTasks(next, h, rest, ids + {c.id}, slugs + {c.slug}).state;
      hide MergeTasks;
      forall d, t | HoldsTask(m, d, t) && !HoldsTask(acc.state, d, t)
        ensures d == h.id && exists j :: 0 <= j < |raws| && NamesTask(raws[j], t)
      {
        if HoldsTask(added, d, t) {
          assert raws[0] == [raws[0]][0];
        } else {
          var j :| 0 <= j < |rest| && NamesTask(rest[j], t);
          assert raws[j + 1] == rest[j];
        }
      }
    }
  }

  /** What a merge adds, some entry names. */
  ghost predicate OnlyProposed(s: State, m: State, raws: seq<RawCampaign>) {
    && (forall c :: c in m.campaigns && c !in s.campaigns ==> Proposed(raws, c))
    && (forall c, t :: HoldsTask(m, c, t) && !HoldsTask(s, c, t) ==> ProposedTask(raws, c, t))
  }

  lemma EntryOnly(acc: Merged, raw: RawCampaign, audit: string)
    requires acc.error.None? && MergeEntry(acc, raw, audit).error.None?
    ensures OnlyProposed(acc.state, MergeEntry(acc, raw, audit).state, [raw])
  {
    hide DecodeHeader, Admit, MergeTasks, NamesTask, Strip, Reads;
    var h := DecodeHeader(raw).value;
    HeaderSays(raw, audit);
    AdmitsOnly(acc.state, h, audit);
    var admitted := Admit(acc.state, h, audit).value;
    var isNew := h.id !in acc.state.campaigns;
    var next := acc.(state := admitted, campaigns := acc.campaigns + if isNew then 1 else 0);
    TasksOnly(next, h, raw.tasks.items, {}, {});
    var m := MergeTasks(next, h, raw.tasks.items, {}, {}).state;
    assert NamesCampaign([raw][0], h.id);
    forall c, t | HoldsTask(m, c, t) && !HoldsTask(acc.state, c, t)
      ensures ProposedTask([raw], c, t)
    {
      assert !HoldsTask(admitted, c, t);
      var j :| 0 <= j < |raw.tasks.items| && NamesTask(raw.tasks.items[j], t);
      assert ListsTask([raw][0], t);
    }
  }

  lemma AdmitsOnly(s: State, h: Header, audit: string)
    requires Admit(s, h, audit).Ok?
    ensures var next := Admit(s, h, audit).value;
            && next.campaigns.Keys == s.campaigns.Keys + {h.id}
            && forall c, t :: HoldsTask(next, c, t) ==> HoldsTask(s, c, t)
  {
  }

  lemma {:induction false} EntriesOnly(acc: Merged, raws: seq<RawCampaign>, audit: string)
    requires acc.error.None? && MergeEntries(acc, raws, audit).error.None?
    ensures OnlyProposed(acc.state, MergeEntries(acc, raws, audit).state, raws)
    decreases |raws|
  {
    hide MergeEntry, NamesCampaign, ListsTask;
    if raws != [] {
      var next, rest := MergeEntry(acc, raws[0], audit), raws[1..];
      EntryOnly(acc, raws[0], audit);
      EntriesOnly(next, rest, audit);
      OnlyTransitive(acc.state, next.state, MergeEntries(next, rest, audit).state, raws);
    }
  }

  lemma OnlyTransitive(a: State, b: State, c: State, raws: seq<RawCampaign>)
    requires raws != [] && OnlyProposed(a, b, [raws[0]]) && OnlyProposed(b, c, raws[1..])
    ensures OnlyProposed(a, c, raws)
  {
    hide NamesCampaign, ListsTask, HoldsTask;
    var rest := raws[1..];
    forall d | d in c.campaigns && d !in a.campaigns
      ensures Proposed(raws, d)
    {
      if d in b.campaigns {
        assert [raws[0]][0] == raws[0];
      } else {
        var i :| 0 <= i < |rest| && NamesCampaign(rest[i], d);
        assert raws[i + 1] == rest[i];
      }
    }
    forall d, t | HoldsTask(c, d, t) && !HoldsTask(a, d, t)
      ensures ProposedTask(raws, d, t)
    {
      if HoldsTask(b, d, t) {
        assert ProposedTask([raws[0]], d, t);
        assert [raws[0]][0] == raws[0];
      } else {
        assert ProposedTask(rest, d, t);
        var i :| 0 <= i < |rest| && NamesCampaign(rest[i], d) && ListsTask(rest[i], t);
        assert raws[i + 1] == rest[i];
      }
    }
  }

  /** A merge adds no campaign and no task that no entry names. */
  lemma MergeAddsOnlyProposed(s: State, p: Proposal, audit: string)
    requires p.Proposal? && MergeProposal(s, p, audit).error.None?
    ensures OnlyProposed(s, MergeProposal(s, p, audit).state, p.campaigns)
  {
    hide OnlyProposed, MergeEntries;
    EntriesOnly(Merged(s, 0, 0, None), p.campaigns, audit);
  }

  // ---------------------------------------------------------------- which proposals are well formed

  /** The tasks of one entry can all be read, under different ids and slugs. */
  ghost predicate TasksReadable(raws: seq<RawTask>) {
    && (forall j :: 0 <= j < |raws| ==> Readable(raws[j]))
    && (forall j, k, c, d :: 0 <= j < k < |raws| && TaskReads(raws[j], c) && TaskReads(raws[k], d) ==>
          c.id != d.id && c.slug != d.slug)
  }

  ghost predicate Readable(raw: RawTask) { exists c :: TaskReads(raw, c) }

  ghost predicate EntryReadable(raw: RawCampaign) { Acceptable(raw) && TasksReadable(raw.tasks.items) }

  /** The first task is readable under an id and slug not seen yet, and so are the others after it. */
  lemma {:induction false} DecodeTasksIff(h: Header, audit: string, raws: seq<RawTask>, ids: set<string>,
                                          slugs: set<string>)
    ensures DecodeTasks(h, audit, raws, ids, slugs).Some? <==>
            TasksReadable(raws) && Unseen(raws, ids, slugs)
    decreases |raws|
  {
    hide NormalizeTask, TaskReads;
    if raws != [] {
      var rest := raws[1..];
      forall c
        ensures TaskReads(raws[0], c) <==> raws[0].RawTask? && NormalizeTask(raws[0]) == Ok(c)
      {
        TaskReadsIff(raws[0], c);
      }
      if raws[0].RawTask? && NormalizeTask(raws[0]).Ok? {
        var c := NormalizeTask(raws[0]).value;
        assert TaskReads(raws[0], c);
        DecodeTasksIff(h, audit, rest, ids + {c.id}, slugs + {c.slug});
        ReadableStep(raws, c, ids, slugs);
      } else {
        assert !Readable(raws[0]);
      }
    }
  }

  ghost predicate Unseen(raws: seq<RawTask>, ids: set<string>, slugs: set<string>) {
    forall j, c :: 0 <= j < |raws| && TaskReads(raws[j], c) ==> c.id !in ids && c.slug !in slugs
  }

  lemma ReadableStep(raws: seq<RawTask>, c: Content, ids: set<string>, slugs: set<string>)
    requires raws != [] && TaskReads(raws[0], c) && forall d :: TaskReads(raws[0], d) ==> d == c
    ensures TasksReadable(raws) && Unseen(raws, ids, slugs) <==>
            && c.id !in ids && c.slug !in slugs
            && TasksReadable(raws[1..]) && Unseen(raws[1..], ids + {c.id}, slugs + {c.slug})
  {
    hide TaskReads;
    var rest := raws[1..];
    assert Readable(raws[0]);
    forall j | 0 <= j < |rest|
      ensures rest[j] == raws[j + 1]
    {
    }
    if c.id !in ids && c.slug !in slugs && TasksReadable(rest) && Unseen(rest, ids + {c.id}, slugs + {c.slug}) {
      forall j | 0 <= j < |raws|
        ensures Readable(raws[j])
      {
        assert j > 0 ==> Readable(rest[j - 1]);
      }
      forall j, k, a, b | 0 <= j < k < |raws| && TaskReads(raws[j], a) && TaskReads(raws[k], b)
        ensures a.id != b.id && a.slug != b.slug
      {
        assert TaskReads(rest[k - 1], b);
        assert j > 0 ==> TaskReads(rest[j - 1], a);
      }
      forall j, a | 0 <= j < |raws| && TaskReads(raws[j], a)
        ensures a.id !in ids && a.slug !in slugs
      {
        assert j > 0 ==> TaskReads(rest[j - 1], a);
      }
    }
    if TasksReadable(raws) && Unseen(raws, ids, slugs) {
      forall j | 0 <= j < |rest|
        ensures Readable(rest[j])
      {
        assert Readable(raws[j + 1]);
      }
      forall j, k, a, b | 0 <= j < k < |rest| && TaskReads(rest[j], a) && TaskReads(rest[k], b)
        ensures a.id != b.id && a.slug != b.slug
      {
        assert TaskReads(raws[j + 1], a) && TaskReads(raws[k + 1], b);
      }
      forall j, a | 0 <= j < |rest| && TaskReads(rest[j], a)
        ensures a.id !in ids + {c.id} && a.slug !in slugs + {c.slug}
      {
        assert TaskReads(raws[j + 1], a);
      }
    }
  }

  lemma {:induction false} DecodeEntriesIff(raws: seq<RawCampaign>, audit: string)
    ensures DecodeEntries(raws, audit).Some? <==> forall i :: 0 <= i < |raws| ==> EntryReadable(raws[i])
  {
    hide DecodeHeader, DecodeTasks, Acceptable, TasksReadable;
    if raws != [] {
      var rest := raws[1..];
      DecodeEntriesIff(rest, audit);
      AcceptedIff(raws[0]);
      if DecodeHeader(raws[0]).Ok? {
        DecodeTasksIff(DecodeHeader(raws[0]).value, audit, raws[0].tasks.items, {}, {});
      }
      forall i | 0 <= i < |rest|
        ensures rest[i] == raws[i + 1]
      {
      }
      if forall i :: 0 <= i < |rest| ==> EntryReadable(rest[i]) {
        assert forall i :: 0 < i < |raws| ==> raws[i] == rest[i - 1];
      }
    }
  }

  /** A merge succeeds exactly when every entry can be read and no two answers to one question differ. */
  lemma MergeSucceedsReadable(s: State, p: Proposal, audit: string)
    requires WellFormed(s)
    ensures MergeProposal(s, p, audit).error.None? <==>
            && p.Proposal? && (forall i :: 0 <= i < |p.campaigns| ==> EntryReadable(p.campaigns[i]))
            && var steps := Decode(p, audit);
               steps.Some? && Consistent(steps.value) && AllFit(s, steps.value)
  {
    hide MergeProposal, DecodeEntries, EntryReadable, Consistent, AllFit, WellFormed;
    MergeSucceedsIff(s, p, audit);
    if p.Proposal? {
      DecodeEntriesIff(p.campaigns, audit);
    }
  }
}
