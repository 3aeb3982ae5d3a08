/** The runner's persistent state: campaigns, their tasks and the two hash indexes. */
module Campaigns {
  import opened Wrappers
  import opened Collections
  import opened Text
  import opened Tasks

  /** A commit is named by its position in the append-only commit list. */
  type Sha = nat

  datatype TaskStatus = Pending | Success | Failed | Blocked

  datatype CampaignStatus = Open | Completed

  datatype AgentResult = AgentResult(status: TaskStatus, summary: string, testsRan: seq<string>, notes: string)

  datatype Task = Task(
    content: Content,
    campaignSlug: Option<string>,
    hash: Digest,
    status: TaskStatus,
    implementationCommit: Option<Sha>,
    receiptCommit: Option<Sha>,
    result: Option<AgentResult>)

  /** Where a campaign's documents were written; task paths are kept by their file stem. */
  datatype Materialized = Materialized(docPath: Option<string>, taskStems: map<string, string>)

  datatype Campaign = Campaign(
    slug: string,
    date: string,
    seqNo: string,
    dependsOn: seq<string>,
    markdown: string,
    reason: Option<string>,
    tasks: map<string, Task>,
    status: CampaignStatus,
    audits: seq<string>,
    materialized: Materialized)

  datatype IdEntry = IdEntry(campaign: string, hash: Digest)

  datatype SlugEntry = SlugEntry(campaign: string, task: string, hash: Digest)

  /** `order` is the insertion order of the `campaigns` dictionary, which JSON round trips keep. */
  datatype State = State(
    campaigns: map<string, Campaign>,
    order: seq<string>,
    byId: map<string, IdEntry>,
    bySlug: map<string, SlugEntry>)

  const EMPTY_STATE := State(map[], [], map[], map[])

  datatype CampaignId = CampaignId(date: string, slug: string, seqNo: string)

  predicate AllDigits(s: string) { forall c :: c in s ==> IsDigit(c) }

  predicate IsDate(s: string) {
    |s| == 10 && AllDigits(s[..4]) && s[4] == '-' && AllDigits(s[5..7]) && s[7] == '-' && AllDigits(s[8..])
  }

  /** `parse_campaign_id`: `YYYY-MM-DD::slug::seq3`. */
  function ParseCampaignId(id: string): Option<CampaignId> {
    if |id| < 18 then None
    else
      var date, middle, seqNo := id[..10], id[10..|id| - 3], id[|id| - 3..];
      var slug := middle[2..|middle| - 2];
      if IsDate(date) && middle[..2] == "::" && middle[|middle| - 2..] == "::" && IsSlug(slug) && AllDigits(seqNo)
      then Some(CampaignId(date, slug, seqNo))
      else None
  }

  function FormatCampaignId(id: CampaignId): string {
    id.date + "::" + id.slug + "::" + id.seqNo
  }

  predicate ValidCampaignId(id: CampaignId) {
    IsDate(id.date) && IsSlug(id.slug) && |id.seqNo| == 3 && AllDigits(id.seqNo)
  }

  /** Campaign ids and their three parts determine each other. */
  lemma CampaignIdRoundTrip(id: CampaignId, text: string)
    ensures ParseCampaignId(text) == Some(id) <==> ValidCampaignId(id) && text == FormatCampaignId(id)
  {
    if ParseCampaignId(text) == Some(id) {
      var middle := text[10..|text| - 3];
      assert text == text[..10] + middle + text[|text| - 3..];
      assert middle == middle[..2] + id.slug + middle[|middle| - 2..];
    }
    if ValidCampaignId(id) && text == FormatCampaignId(id) {
      var middle := "::" + id.slug + "::";
      assert text == id.date + middle + id.seqNo;
      assert text[..10] == id.date && text[10..|text| - 3] == middle && text[|text| - 3..] == id.seqNo;
      assert middle[2..|middle| - 2] == id.slug;
    }
  }

  function SlugKey(campaignSlug: string, taskSlug: string): string {
    campaignSlug + "::" + taskSlug
  }

  lemma KeyPartsInjective(a: string, b: string, c: string, d: string)
    requires ':' !in a && ':' !in b && ':' !in c && ':' !in d
    requires SlugKey(a, b) == SlugKey(c, d)
    ensures a == c && b == d
  {
    var left, right := SlugKey(a, b), SlugKey(c, d);
    assert left[|a|] == ':' && right[|c|] == ':';
    assert forall i :: 0 <= i < |a| ==> left[i] == a[i] && a[i] in a;
    assert forall i :: 0 <= i < |c| ==> right[i] == c[i] && c[i] in c;
    assert left[..|a|] == a && right[..|a|] == c;
    assert left[|a| + 2..] == b && right[|a| + 2..] == d;
  }

  lemma SlugHasNoColon(s: string)
    requires IsSlug(s)
    ensures ':' !in s
  {
  }

  /** A slug key is read from both ends: the campaign's slug before the colons, the task's after them. */
  lemma SlugKeyReads(a: string, b: string)
    ensures var key := SlugKey(a, b);
            |key| == |a| + |b| + 2 && key[..|a|] == a && key[|a|..|a| + 2] == "::" && key[|a| + 2..] == b
  {
  }

  /** A slug key determines both slugs, because a slug cannot contain a colon. */
  lemma SlugKeyInjective(a: string, b: string, c: string, d: string)
    requires IsSlug(a) && IsSlug(b) && IsSlug(c) && IsSlug(d)
    requires SlugKey(a, b) == SlugKey(c, d)
    ensures a == c && b == d
  {
    hide SlugKey, IsSlug;
    SlugHasNoColon(a);
    SlugHasNoColon(b);
    SlugHasNoColon(c);
    SlugHasNoColon(d);
    KeyPartsInjective(a, b, c, d);
  }

  /** Dictionary order lists each key once, and every stored campaign carries the parts of its id. */
  ghost predicate WellFormed(s: State) {
    && NoDuplicates(s.order)
    && (forall c :: c in s.order <==> c in s.campaigns)
    && forall c :: c in s.campaigns ==> HeaderMatchesId(c, s.campaigns[c])
  }

  ghost predicate HeaderMatchesId(id: string, campaign: Campaign) {
    && ParseCampaignId(id) == Some(CampaignId(campaign.date, campaign.slug, campaign.seqNo))
    && NoDuplicates(campaign.audits)
    && forall d :: d in campaign.dependsOn ==> ParseCampaignId(d).Some?
  }

  ghost function Held(s: State): set<(string, string)> {
    set c, t | c in s.campaigns && t in s.campaigns[c].tasks :: (c, t)
  }
}
