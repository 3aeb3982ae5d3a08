/**
 What a merge means. A state answers questions ("keys"); a proposal claims answers. A merge succeeds
 exactly when no two answers to one question differ, and then the state knows every claim. Everything
 else here follows: merging is confluent, idempotent and only extends.
 */
module MergeLaws {
  import opened Wrappers
  import opened Tasks
  import opened Campaigns
  import opened Merge

  // ---------------------------------------------------------------- a proposal as a list of steps

  /** One validated entry: a campaign header, alone or with one of its tasks. */
  datatype Step = Step(h: Header, audit: string, task: Option<Content>)

  function Apply(s: State, step: Step): Result<State, MergeError> {
    match Admit(s, step.h, step.audit)
    case Err(e) => Err(e)
    case Ok(admitted) => if step.task.None? then Ok(admitted) else AddTask(admitted, step.h, step.task.value)
  }

  function Replay(s: State, steps: seq<Step>): Result<State, MergeError>
    decreases |steps|
  {
    if steps == [] then Ok(s)
    else match Apply(s, steps[0])
      case Err(e) => Err(e)
      case Ok(next) => Replay(next, steps[1..])
  }

  function DecodeTasks(h: Header, audit: string, raws: seq<RawTask>, ids: set<string>, slugs: set<string>)
    : Option<seq<Step>>
  {
    if raws == [] then Some([])
    else if raws[0].NotAnObject? || NormalizeTask(raws[0]).Err? then None
    else
      var c := NormalizeTask(raws[0]).value;
      if c.id in ids || c.slug in slugs then None
      else match DecodeTasks(h, audit, raws[1..], ids + {c.id}, slugs + {c.slug})
        case None => None
        case Some(rest) => Some([Step(h, audit, Some(c))] + rest)
  }

  function DecodeEntry(raw: RawCampaign, audit: string): Option<seq<Step>> {
    match DecodeHeader(raw)
    case Err(_) => None
    case Ok(h) =>
      match DecodeTasks(h, audit, raw.tasks.items, {}, {})
      case None => None
      case Some(steps) => Some([Step(h, audit, None)] + steps)
  }

  function DecodeEntries(raws: seq<RawCampaign>, audit: string): Option<seq<Step>> {
    if raws == [] then Some([])
    else match DecodeEntry(raws[0], audit)
      case None => None
      case Some(steps) =>
        match DecodeEntries(raws[1..], audit)
        case None => None
        case Some(rest) => Some(steps + rest)
  }

  /** The steps of a proposal, or `None` when it is malformed by itself. */
  function Decode(p: Proposal, audit: string): Option<seq<Step>> {
    if p.CampaignsNotAList? then None else DecodeEntries(p.campaigns, audit)
  }

  lemma {:induction false} ReplayAppend(s: State, a: seq<Step>, b: seq<Step>)
    ensures Replay(s, a + b) == match Replay(s, a) case Err(e) => Err(e) case Ok(mid) => Replay(mid, b)
    decreases |a|
  {
    hide Apply;
    if a == [] {
      assert a + b == b;
    } else {
      assert (a + b)[0] == a[0] && (a + b)[1..] == a[1..] + b;
      if Apply(s, a[0]).Ok? {
        ReplayAppend(Apply(s, a[0]).value, a[1..], b);
      }
    }
  }

  /** Admitting the same header again changes nothing. */
  predicate Admitted(s: State, h: Header, audit: string) {
    Admit(s, h, audit) == Ok(s)
  }

  lemma AdmitTwice(s: State, h: Header, audit: string)
    requires Admit(s, h, audit).Ok?
    ensures Admitted(Admit(s, h, audit).value, h, audit)
  {
    var next := Admit(s, h, audit).value;
    var campaign := next.campaigns[h.id];
    assert campaign.(reason := campaign.reason, audits := campaign.audits) == campaign;
    assert next.campaigns[h.id := campaign] == next.campaigns;
  }

  lemma AddTaskKeepsAdmitted(s: State, h: Header, audit: string, c: Content)
    requires h.id in s.campaigns && Admitted(s, h, audit) && AddTask(s, h, c).Ok?
    ensures Admitted(AddTask(s, h, c).value, h, audit)
  {
    var next := AddTask(s, h, c).value;
    var campaign, before := next.campaigns[h.id], s.campaigns[h.id];
    assert s.campaigns[h.id := before.(reason := if h.reason.Some? then h.reason else before.reason,
                                       audits := if audit in before.audits then before.audits
                                           else before.audits + [audit])]
        == s.campaigns;
    assert before.(reason := if h.reason.Some? then h.reason else before.reason,
                   audits := if audit in before.audits then before.audits else before.audits + [audit]) == before;
    assert next.campaigns[h.id := campaign] == next.campaigns;
  }

  lemma {:induction false} MergeTasksReplays(acc: Merged, h: Header, audit: string, raws: seq<RawTask>,
                                             ids: set<string>, slugs: set<string>)
    requires acc.error.None? && h.id in acc.state.campaigns && Admitted(acc.state, h, audit)
    ensures var m := MergeTasks(acc, h, raws, ids, slugs);
            var steps := DecodeTasks(h, audit, raws, ids, slugs);
            && (m.error.None? <==> steps.Some? && Replay(acc.state, steps.value).Ok?)
            && (m.error.None? ==> Replay(acc.state, steps.value) == Ok(m.state))
    decreases |raws|
  {
    hide NormalizeTask, Admit, AddTask;
    if raws != [] && !raws[0].NotAnObject? && NormalizeTask(raws[0]).Ok? {
      var c := NormalizeTask(raws[0]).value;
      if c.id !in ids && c.slug !in slugs {
        var step := Step(h, audit, Some(c));
        assert Apply(acc.state, step) == AddTask(acc.state, h, c);
        var rest := DecodeTasks(h, audit, raws[1..], ids + {c.id}, slugs + {c.slug});
        if rest.Some? {
          assert ([step] + rest.value)[1..] == rest.value;
        }
        if AddTask(acc.state, h, c).Ok? {
          AddTaskKeepsAdmitted(acc.state, h, audit, c);
          var isNew := c.id !in acc.state.campaigns[h.id].tasks;
          MergeTasksReplays(acc.(state := AddTask(acc.state, h, c).value, tasks := acc.tasks + if isNew then 1 else 0),
                            h, audit, raws[1..], ids + {c.id}, slugs + {c.slug});
        }
      }
    }
  }

  lemma MergeEntryReplays(acc: Merged, raw: RawCampaign, audit: string)
    requires acc.error.None?
    ensures var m := MergeEntry(acc, raw, audit);
            var steps := DecodeEntry(raw, audit);
            && (m.error.None? <==> steps.Some? && Replay(acc.state, steps.value).Ok?)
            && (m.error.None? ==> Replay(acc.state, steps.value) == Ok(m.state))
  {
    hide DecodeHeader, DecodeTasks, MergeTasks;
    if DecodeHeader(raw).Ok? {
      var h := DecodeHeader(raw).value;
      var steps := DecodeTasks(h, audit, raw.tasks.items, {}, {});
      if steps.Some? {
        assert ([Step(h, audit, None)] + steps.value)[1..] == steps.value;
      }
      if Admit(acc.state, h, audit).Ok? {
        var next := Admit(acc.state, h, audit).value;
        AdmitTwice(acc.state, h, audit);
        var isNew := h.id !in acc.state.campaigns;
        MergeTasksReplays(acc.(state := next, campaigns := acc.campaigns + if isNew then 1 else 0),
                          h, audit, raw.tasks.items, {}, {});
      }
    }
  }

  lemma {:induction false} MergeEntriesReplays(acc: Merged, raws: seq<RawCampaign>, audit: string)
    requires acc.error.None?
    ensures var m := MergeEntries(acc, raws, audit);
            var steps := DecodeEntries(raws, audit);
            && (m.error.None? <==> steps.Some? && Replay(acc.state, steps.value).Ok?)
            && (m.error.None? ==> Replay(acc.state, steps.value) == Ok(m.state))
    decreases |raws|
  {
    hide DecodeEntry, MergeEntry, Apply;
    if raws != [] {
      MergeEntryReplays(acc, raws[0], audit);
      var next := MergeEntry(acc, raws[0], audit);
      var head, tail := DecodeEntry(raws[0], audit), DecodeEntries(raws[1..], audit);
      if head.Some? && tail.Some? {
        ReplayAppend(acc.state, head.value, tail.value);
      }
      if next.error.None? {
        MergeEntriesReplays(next, raws[1..], audit);
      }
    }
  }

  /** The nested loops of a merge succeed exactly when the flat replay does, with the same state. */
  lemma MergeReplays(s: State, p: Proposal, audit: string)
    ensures var m := MergeProposal(s, p, audit);
            var steps := Decode(p, audit);
            && (m.error.None? <==> steps.Some? && Replay(s, steps.value).Ok?)
            && (m.error.None? ==> Replay(s, steps.value) == Ok(m.state))
  {
    if p.Proposal? {
      MergeEntriesReplays(Merged(s, 0, 0, None), p.campaigns, audit);
    }
  }

  // ---------------------------------------------------------------- questions and answers

  datatype Key =
    | SpecKey(campaign: string)
    | ReasonKey(campaign: string)
    | AuditKey(campaign: string, audit: string)
    | IdKey(id: string)
    | SlugIndexKey(key: string)
    | HeldKey(campaign: string, id: string)

  datatype Answer =
    | Spec(dependsOn: seq<string>, markdown: string)
    | ReasonIs(text: string)
    | Present
    | Hash(digest: Digest)

  function Known(s: State, k: Key): Option<Answer> {
    match k
    case SpecKey(c) =>
      if c in s.campaigns then Some(Spec(s.campaigns[c].dependsOn, s.campaigns[c].markdown)) else None
    case ReasonKey(c) =>
      if c in s.campaigns && s.campaigns[c].reason.Some? then Some(ReasonIs(s.campaigns[c].reason.value)) else None
    case AuditKey(c, a) => if c in s.campaigns && a in s.campaigns[c].audits then Some(Present) else None
    case IdKey(t) => if t in s.byId then Some(Hash(s.byId[t].hash)) else None
    case SlugIndexKey(key) => if key in s.bySlug then Some(Hash(s.bySlug[key].hash)) else None
    case HeldKey(c, t) =>
      if c in s.campaigns && t in s.campaigns[c].tasks then Some(Hash(s.campaigns[c].tasks[t].hash)) else None
  }

  function Claim(step: Step, k: Key): Option<Answer> {
    var h := step.h;
    match k
    case SpecKey(c) => if c == h.id then Some(Spec(h.dependsOn, h.markdown)) else None
    case ReasonKey(c) => if c == h.id && h.reason.Some? then Some(ReasonIs(h.reason.value)) else None
    case AuditKey(c, a) => if c == h.id && a == step.audit then Some(Present) else None
    case IdKey(t) => if step.task.Some? && t == step.task.value.id then Some(Hash(TaskDigest(step.task.value)))
        else None
    case SlugIndexKey(key) =>
      if step.task.Some? && key == SlugKey(h.slug, step.task.value.slug) then Some(Hash(TaskDigest(step.task.value)))
        else None
    case HeldKey(c, t) =>
      if step.task.Some? && c == h.id && t == step.task.value.id then Some(Hash(TaskDigest(step.task.value))) else None
  }

  predicate Compatible(a: Option<Answer>, b: Option<Answer>) {
    a.None? || b.None? || a == b
  }

  ghost predicate Fits(s: State, step: Step) {
    forall k :: Compatible(Known(s, k), Claim(step, k))
  }

  /** A header whose date, slug and sequence number are the parts of its id, as decoding ensures. */
  predicate ProperHeader(h: Header) {
    && ParseCampaignId(h.id) == Some(CampaignId(h.date, h.slug, h.seqNo))
    && forall d :: d in h.dependsOn ==> ParseCampaignId(d).Some?
  }

  ghost predicate ProperSteps(steps: seq<Step>) {
    forall i :: 0 <= i < |steps| ==> ProperHeader(steps[i].h)
  }

  lemma AdmitIff(s: State, h: Header, audit: string)
    requires WellFormed(s) && ProperHeader(h)
    ensures Admit(s, h, audit).Ok? <==>
            var step := Step(h, audit, None);
            && Compatible(Known(s, SpecKey(h.id)), Claim(step, SpecKey(h.id)))
            && Compatible(Known(s, ReasonKey(h.id)), Claim(step, ReasonKey(h.id)))
  {
    hide ParseCampaignId;
    if h.id in s.campaigns {
      assert HeaderMatchesId(h.id, s.campaigns[h.id]);
    }
  }

  lemma AdmitWellFormed(s: State, h: Header, audit: string)
    requires WellFormed(s) && ProperHeader(h) && Admit(s, h, audit).Ok?
    ensures WellFormed(Admit(s, h, audit).value)
  {
    hide ParseCampaignId;
    var next := Admit(s, h, audit).value;
    forall c | c in next.campaigns
      ensures HeaderMatchesId(c, next.campaigns[c])
    {
      if c in s.campaigns {
        assert HeaderMatchesId(c, s.campaigns[c]);
      }
    }
  }

  lemma AdmitKnown(s: State, h: Header, audit: string, k: Key)
    requires Admit(s, h, audit).Ok?
    ensures var claim := Claim(Step(h, audit, None), k);
            Known(Admit(s, h, audit).value, k) == if claim.Some? then claim else Known(s, k)
  {
  }

  lemma AddTaskIff(s: State, step: Step)
    requires step.task.Some? && step.h.id in s.campaigns
    ensures var c := step.task.value;
            AddTask(s, step.h, c).Ok? <==>
            && Compatible(Known(s, IdKey(c.id)), Claim(step, IdKey(c.id)))
            && Compatible(Known(s, SlugIndexKey(SlugKey(step.h.slug, c.slug))),
                          Claim(step, SlugIndexKey(SlugKey(step.h.slug, c.slug))))
            && Compatible(Known(s, HeldKey(step.h.id, c.id)), Claim(step, HeldKey(step.h.id, c.id)))
  {
  }

  lemma AddTaskWellFormed(s: State, h: Header, c: Content)
    requires WellFormed(s) && h.id in s.campaigns && AddTask(s, h, c).Ok?
    ensures WellFormed(AddTask(s, h, c).value)
  {
    hide ParseCampaignId;
    var next := AddTask(s, h, c).value;
    assert next.campaigns.Keys == s.campaigns.Keys;
    forall id | id in next.campaigns
      ensures HeaderMatchesId(id, next.campaigns[id])
    {
      assert HeaderMatchesId(id, s.campaigns[id]);
    }
  }

  /** Adding a task answers its three keys and, for a header already admitted, leaves the others alone. */
  lemma AddTaskKnown(s: State, step: Step, k: Key)
    requires step.task.Some? && step.h.id in s.campaigns && AddTask(s, step.h, step.task.value).Ok?
    ensures var claim := Claim(step, k);
            Known(AddTask(s, step.h, step.task.value).value, k)
            == if claim.Some? && !k.SpecKey? && !k.ReasonKey? && !k.AuditKey? then claim else Known(s, k)
  {
  }

  lemma ApplyKnown(s: State, step: Step, k: Key)
    requires Apply(s, step).Ok?
    ensures Known(Apply(s, step).value, k) == if Claim(step, k).Some? then Claim(step, k) else Known(s, k)
  {
    hide Admit, AddTask, Known;
    AdmitKnown(s, step.h, step.audit, k);
    if step.task.Some? {
      AddTaskKnown(Admit(s, step.h, step.audit).value, step, k);
    }
  }

  lemma ApplyWellFormed(s: State, step: Step)
    requires WellFormed(s) && ProperHeader(step.h) && Apply(s, step).Ok?
    ensures WellFormed(Apply(s, step).value)
  {
    hide Admit, AddTask, WellFormed, ProperHeader;
    AdmitWellFormed(s, step.h, step.audit);
    if step.task.Some? {
      AddTaskWellFormed(Admit(s, step.h, step.audit).value, step.h, step.task.value);
    }
  }

  lemma ApplyIff(s: State, step: Step)
    requires WellFormed(s) && ProperHeader(step.h)
    ensures Apply(s, step).Ok? <==> Fits(s, step)
  {
    hide Admit, AddTask, WellFormed, ProperHeader, Known;
    var h := step.h;
    AdmitIff(s, h, step.audit);
    forall k: Key | k.AuditKey?
      ensures Compatible(Known(s, k), Claim(step, k))
    {
      PresenceCompatible(s, step, k);
    }
    assert forall c :: c != h.id ==> Claim(step, SpecKey(c)).None? && Claim(step, ReasonKey(c)).None?;
    if Admit(s, h, step.audit).Ok? && step.task.Some? {
      var admitted := Admit(s, h, step.audit).value;
      var c := step.task.value;
      AddTaskIff(admitted, step);
      AdmitKnown(s, h, step.audit, IdKey(c.id));
      AdmitKnown(s, h, step.audit, SlugIndexKey(SlugKey(h.slug, c.slug)));
      AdmitKnown(s, h, step.audit, HeldKey(h.id, c.id));
    }
    if Apply(s, step).Ok? {
      forall k: Key
        ensures Compatible(Known(s, k), Claim(step, k))
      {
        if Claim(step, k).Some? && !k.AuditKey? {
          assert Claim(Step(h, step.audit, None), k) == Claim(step, k) || step.task.Some?;
        }
      }
    } else {
      assert !Compatible(Known(s, SpecKey(h.id)), Claim(step, SpecKey(h.id)))
          || !Compatible(Known(s, ReasonKey(h.id)), Claim(step, ReasonKey(h.id)))
          || step.task.Some?;
    }
  }

  lemma PresenceCompatible(s: State, step: Step, k: Key)
    requires k.AuditKey?
    ensures Compatible(Known(s, k), Claim(step, k))
  {
  }
}
