/** Merging an untrusted campaign proposal into the state (codex_runner/runner.py, merge_campaign_set). */
module Merge {
  import opened Wrappers
  import opened Text
  import opened Json
  import opened Tasks
  import opened Campaigns

  datatype RawTasks = TasksNotAList | TaskList(items: seq<RawTask>)

  /** A campaign entry of a proposal: the fields the runner reads, `None` where the key is absent. */
  datatype RawCampaign =
    | CampaignNotAnObject
    | RawCampaign(
        campaignId: Option<Json>,
        campaignSlug: Option<Json>,
        dependsOn: Option<Json>,
        markdown: Option<Json>,
        tasks: RawTasks,
        reason: Option<Json>)

  datatype Proposal = CampaignsNotAList | Proposal(campaigns: seq<RawCampaign>)

  datatype HeaderField = DependsOn | Markdown | Reason | Identity

  datatype MergeError =
    | NoCampaignList
    | CampaignMustBeObject
    | MissingIdentity
    | InvalidCampaignId
    | SlugMismatch
    | DependsOnMustBeList
    | TasksMustBeList
    | EmptyTasksWithoutReason
    | CampaignMutation(changed: HeaderField)
    | TaskMustBeObject
    | BadTask(taskError: TaskError)
    | DuplicateTaskId
    | DuplicateTaskSlug
    | ConflictOnId
    | ConflictOnSlug
    | ConflictInCampaign

  /** A campaign entry after validation, without its tasks. */
  datatype Header = Header(
    id: string,
    slug: string,
    date: string,
    seqNo: string,
    dependsOn: seq<string>,
    markdown: string,
    reason: Option<string>)

  // ---------------------------------------------------------------- one campaign entry

  /** `str(d.get(key) or "")`. */
  function TextOrEmpty(value: Option<Json>): string {
    if value.None? then "" else StrOrEmpty(value.value)
  }

  /** The stripped, non-blank entries of a `depends_on` list. */
  function DependencyIds(items: seq<Json>): seq<string> {
    if items == [] then []
    else
      var id := Strip(Str(items[0]));
      (if id == "" then [] else [id]) + DependencyIds(items[1..])
  }

  function ReasonText(value: Option<Json>): Option<string> {
    if value.Some? && value.value.String? then Some(value.value.text) else None
  }

  function DecodeHeader(raw: RawCampaign): (r: Result<Header, MergeError>)
    ensures r.Ok? ==> raw.RawCampaign? && raw.tasks.TaskList?
  {
    if raw.CampaignNotAnObject? then Err(CampaignMustBeObject)
    else
      var id := Strip(TextOrEmpty(raw.campaignId));
      var slug := Strip(TextOrEmpty(raw.campaignSlug));
      if id == "" || slug == "" then Err(MissingIdentity)
      else
        var parsed := ParseCampaignId(id);
        if parsed.None? then Err(InvalidCampaignId)
        else if parsed.value.slug != slug then Err(SlugMismatch)
        else
          var depends := if raw.dependsOn.None? then Array([]) else raw.dependsOn.value;
          if !depends.Array? then Err(DependsOnMustBeList)
          else
            var ids := DependencyIds(depends.items);
            if exists d :: d in ids && ParseCampaignId(d).None? then Err(InvalidCampaignId)
            else
              var reason := ReasonText(raw.reason);
              if !raw.tasks.TaskList? then Err(TasksMustBeList)
              else if raw.tasks.items == [] && (reason.None? || Strip(reason.value) == "") then
                Err(EmptyTasksWithoutReason)
              else
                Ok(Header(id, slug, parsed.value.date, parsed.value.seqNo, ids, TextOrEmpty(raw.markdown), reason))
  }

  function NewCampaign(h: Header, audit: string): Campaign {
    Campaign(h.slug, h.date, h.seqNo, h.dependsOn, h.markdown, h.reason, map[], Open, [audit],
             Materialized(None, map[]))
  }

  /** Create the campaign, or check that the entry repeats what is stored about it. */
  function Admit(s: State, h: Header, audit: string): (r: Result<State, MergeError>)
    ensures r.Ok? ==> h.id in r.value.campaigns
  {
    if h.id !in s.campaigns then
      Ok(s.(campaigns := s.campaigns[h.id := NewCampaign(h, audit)], order := s.order + [h.id]))
    else
      var stored := s.campaigns[h.id];
      if stored.slug != h.slug || stored.date != h.date || stored.seqNo != h.seqNo then Err(CampaignMutation(Identity))
      else if stored.dependsOn != h.dependsOn then Err(CampaignMutation(DependsOn))
      else if stored.markdown != h.markdown then Err(CampaignMutation(Markdown))
      else if h.reason.Some? && stored.reason.Some? && stored.reason != h.reason then Err(CampaignMutation(Reason))
      else
        var reason := if h.reason.Some? then h.reason else stored.reason;
        var audits := if audit in stored.audits then stored.audits else stored.audits + [audit];
        Ok(s.(campaigns := s.campaigns[h.id := stored.(reason := reason, audits := audits)]))
  }

  // ---------------------------------------------------------------- one task entry

  function NewTask(c: Content, campaignSlug: string): Task {
    Task(c, Some(campaignSlug), TaskDigest(c), Pending, None, None, None)
  }

  /** Check the task's hash against both indexes and the campaign, then store and index it. */
  function AddTask(s: State, h: Header, c: Content): (r: Result<State, MergeError>)
    requires h.id in s.campaigns
    ensures r.Ok? ==> h.id in r.value.campaigns
  {
    var digest := TaskDigest(c);
    var key := SlugKey(h.slug, c.slug);
    var campaign := s.campaigns[h.id];
    if c.id in s.byId && s.byId[c.id].hash != digest then Err(ConflictOnId)
    else if key in s.bySlug && s.bySlug[key].hash != digest then Err(ConflictOnSlug)
    else if c.id in campaign.tasks && campaign.tasks[c.id].hash != digest then Err(ConflictInCampaign)
    else
      var tasks := if c.id in campaign.tasks then campaign.tasks else campaign.tasks[c.id := NewTask(c, h.slug)];
      Ok(s.(campaigns := s.campaigns[h.id := campaign.(tasks := tasks)],
            byId := s.byId[c.id := IdEntry(h.id, digest)],
            bySlug := s.bySlug[key := SlugEntry(h.id, c.id, digest)]))
  }

  // ---------------------------------------------------------------- the whole proposal

  /** The state a merge has reached, what it has added, and the exception that stopped it, if any. */
  datatype Merged = Merged(state: State, campaigns: nat, tasks: nat, error: Option<MergeError>)

  function Stopped(acc: Merged, error: MergeError): Merged {
    acc.(error := Some(error))
  }

  function MergeTasks(acc: Merged, h: Header, raws: seq<RawTask>, ids: set<string>, slugs: set<string>): Merged
    requires h.id in acc.state.campaigns
    decreases |raws|
  {
    hide NormalizeTask;
    if raws == [] then acc
    else if raws[0].NotAnObject? then Stopped(acc, TaskMustBeObject)
    else match NormalizeTask(raws[0])
      case Err(e) => Stopped(acc, BadTask(e))
      case Ok(c) =>
        if c.id in ids then Stopped(acc, DuplicateTaskId)
        else if c.slug in slugs then Stopped(acc, DuplicateTaskSlug)
        else match AddTask(acc.state, h, c)
          case Err(e) => Stopped(acc, e)
          case Ok(next) =>
            var isNew := c.id !in acc.state.campaigns[h.id].tasks;
            MergeTasks(acc.(state := next, tasks := acc.tasks + if isNew then 1 else 0),
                       h, raws[1..], ids + {c.id}, slugs + {c.slug})
  }

  function MergeEntry(acc: Merged, raw: RawCampaign, audit: string): Merged {
    match DecodeHeader(raw)
    case Err(e) => Stopped(acc, e)
    case Ok(h) =>
      match Admit(acc.state, h, audit)
      case Err(e) => Stopped(acc, e)
      case Ok(next) =>
        var isNew := h.id !in acc.state.campaigns;
        MergeTasks(acc.(state := next, campaigns := acc.campaigns + if isNew then 1 else 0),
                   h, raw.tasks.items, {}, {})
  }

  function MergeEntries(acc: Merged, raws: seq<RawCampaign>, audit: string): Merged
    decreases |raws|
  {
    if raws == [] then acc
    else
      var next := MergeEntry(acc, raws[0], audit);
      if next.error.Some? then next else MergeEntries(next, raws[1..], audit)
  }

  function MergeProposal(s: State, p: Proposal, audit: string): Merged {
    if p.CampaignsNotAList? then Merged(s, 0, 0, Some(NoCampaignList))
    else MergeEntries(Merged(s, 0, 0, None), p.campaigns, audit)
  }

  // ---------------------------------------------------------------- the dictionaries, updated in place

  datatype Additions = Additions(campaigns: nat, tasks: nat)

  class StateStore {
    var campaigns: map<string, Campaign>
    var order: seq<string>
    var byId: map<string, IdEntry>
    var bySlug: map<string, SlugEntry>

    constructor (s: State)
      ensures View() == s
    {
      campaigns, order, byId, bySlug := s.campaigns, s.order, s.byId, s.bySlug;
    }

    function View(): State
      reads this
    {
      State(campaigns, order, byId, bySlug)
    }

    /** On an error the dictionaries keep what was merged before it, as the exception leaves them. */
    method MergeCampaignSet(p: Proposal, audit: string) returns (r: Result<Additions, MergeError>)
      modifies this
      ensures var m := MergeProposal(old(View()), p, audit);
              && View() == m.state
              && r == if m.error.Some? then Err(m.error.value) else Ok(Additions(m.campaigns, m.tasks))
    {
      hide DecodeHeader, Admit, MergeTasks;
      if p.CampaignsNotAList? {
        return Err(NoCampaignList);
      }
      var newCampaigns, newTasks := 0, 0;
      for i := 0 to |p.campaigns|
        invariant MergeEntries(Merged(View(), newCampaigns, newTasks, None), p.campaigns[i..], audit)
                  == MergeProposal(old(View()), p, audit)
      {
        var raw := p.campaigns[i];
        assert p.campaigns[i..][0] == raw && p.campaigns[i..][1..] == p.campaigns[i + 1..];
        var decoded := DecodeHeader(raw);
        if decoded.Err? {
          return Err(decoded.error);
        }
        var h := decoded.value;
        var admitted := AdmitCampaign(h, audit);
        if admitted.Err? {
          return Err(admitted.error);
        }
        newCampaigns := newCampaigns + admitted.value;
        var stored := StoreTasks(h, raw.tasks.items, Merged(View(), newCampaigns, newTasks, None));
        if stored.Err? {
          return Err(stored.error);
        }
        newTasks := newTasks + stored.value;
      }
      return Ok(Additions(newCampaigns, newTasks));
    }

    /** Create or check one campaign; returns how many campaigns it added. */
    method AdmitCampaign(h: Header, audit: string) returns (r: Result<nat, MergeError>)
      modifies this`campaigns, this`order
      ensures match Admit(old(View()), h, audit)
              case Err(e) => View() == old(View()) && r == Err(e)
              case Ok(next) => View() == next && r == Ok(if h.id in old(campaigns) then 0 else 1)
    {
      if h.id !in campaigns {
        campaigns := campaigns[h.id := NewCampaign(h, audit)];
        order := order + [h.id];
        return Ok(1);
      }
      var existing := campaigns[h.id];
      if existing.slug != h.slug || existing.date != h.date || existing.seqNo != h.seqNo {
        return Err(CampaignMutation(Identity));
      }
      if existing.dependsOn != h.dependsOn {
        return Err(CampaignMutation(DependsOn));
      }
      if existing.markdown != h.markdown {
        return Err(CampaignMutation(Markdown));
      }
      if h.reason.Some? {
        if existing.reason.None? {
          existing := existing.(reason := h.reason);
        } else if existing.reason != h.reason {
          return Err(CampaignMutation(Reason));
        }
      }
      if audit !in existing.audits {
        existing := existing.(audits := existing.audits + [audit]);
      }
      campaigns := campaigns[h.id := existing];
      return Ok(0);
    }

    /** The loop over one campaign's tasks; returns how many were new. */
    method StoreTasks(h: Header, raws: seq<RawTask>, ghost before: Merged) returns (r: Result<nat, MergeError>)
      requires h.id in campaigns && before.state == View() && before.error.None?
      modifies this
      ensures var m := MergeTasks(before, h, raws, {}, {});
              && View() == m.state && m.campaigns == before.campaigns
              && match m.error
                 case Some(e) => r == Err(e)
                 case None => r.Ok? && m.tasks == before.tasks + r.value
    {
      hide NormalizeTask, AddTask;
      var newTasks, seenIds, seenSlugs := 0, {}, {};
      for j := 0 to |raws|
        invariant h.id in campaigns
        invariant MergeTasks(before.(state := View(), tasks := before.tasks + newTasks), h, raws[j..], seenIds,
                             seenSlugs)
                  == MergeTasks(before, h, raws, {}, {})
      {
        var item := raws[j];
        assert raws[j..][0] == item && raws[j..][1..] == raws[j + 1..];
        if item.NotAnObject? {
          return Err(TaskMustBeObject);
        }
        var normalized := NormalizeTask(item);
        if normalized.Err? {
          return Err(BadTask(normalized.error));
        }
        var c := normalized.value;
        if c.id in seenIds {
          return Err(DuplicateTaskId);
        }
        if c.slug in seenSlugs {
          return Err(DuplicateTaskSlug);
        }
        seenIds, seenSlugs := seenIds + {c.id}, seenSlugs + {c.slug};
        var stored := StoreTask(h, c);
        if stored.Err? {
          return Err(stored.error);
        }
        newTasks := newTasks + stored.value;
      }
      return Ok(newTasks);
    }

    /** Check, store and index one task; returns how many tasks it added. */
    method StoreTask(h: Header, c: Content) returns (r: Result<nat, MergeError>)
      requires h.id in campaigns
      modifies this`campaigns, this`byId, this`bySlug
      ensures match AddTask(old(View()), h, c)
              case Err(e) => View() == old(View()) && r == Err(e)
              case Ok(next) => View() == next && r == Ok(if c.id in old(campaigns)[h.id].tasks then 0 else 1)
    {
      var digest := TaskDigest(c);
      if c.id in byId && byId[c.id].hash != digest {
        return Err(ConflictOnId);
      }
      var key := SlugKey(h.slug, c.slug);
      if key in bySlug && bySlug[key].hash != digest {
        return Err(ConflictOnSlug);
      }
      var existing := campaigns[h.id];
      var added := 0;
      if c.id !in existing.tasks {
        campaigns := campaigns[h.id := existing.(tasks := existing.tasks[c.id := NewTask(c, h.slug)])];
        added := 1;
      } else if existing.tasks[c.id].hash != digest {
        return Err(ConflictInCampaign);
      }
      byId := byId[c.id := IdEntry(h.id, digest)];
      bySlug := bySlug[key := SlugEntry(h.id, c.id, digest)];
      assert campaigns == campaigns[h.id := campaigns[h.id]];
      return Ok(added);
    }
  }
}
