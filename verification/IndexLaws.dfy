/** The hash indexes agree with the campaigns; merging twice adds nothing; the counts are exact. */
module IndexLaws {
  import opened Wrappers
  import opened Tasks
  import opened Campaigns
  import opened Merge
  import opened MergeLaws
  import opened Confluence

  // ---------------------------------------------------------------- both indexes, both ways

  /** Task `t` of campaign `c` is stored under its own id and indexed with its own hash. */
  ghost predicate Indexed(s: State, c: string, t: string)
    requires c in s.campaigns && t in s.campaigns[c].tasks
  {
    var task, key := s.campaigns[c].tasks[t], SlugKey(s.campaigns[c].slug, s.campaigns[c].tasks[t].content.slug);
    && task.content.id == t
    && (task.hash.TaskDigest? ==> task.hash == TaskDigest(task.content))
    && t in s.byId && s.byId[t].hash == task.hash
    && key in s.bySlug && s.bySlug[key].hash == task.hash && s.bySlug[key].task == t
  }

  /** The index entry names a campaign that holds the task with that hash. */
  ghost predicate IdEntryBacked(s: State, t: string)
    requires t in s.byId
  {
    var entry := s.byId[t];
    && entry.campaign in s.campaigns
    && t in s.campaigns[entry.campaign].tasks
    && s.campaigns[entry.campaign].tasks[t].hash == entry.hash
  }

  ghost predicate SlugEntryBacked(s: State, key: string)
    requires key in s.bySlug
  {
    var entry := s.bySlug[key];
    && entry.campaign in s.campaigns
    && entry.task in s.campaigns[entry.campaign].tasks
    && s.campaigns[entry.campaign].tasks[entry.task].hash == entry.hash
    && key == SlugKey(s.campaigns[entry.campaign].slug, s.campaigns[entry.campaign].tasks[entry.task].content.slug)
  }

  ghost predicate IndexesAgree(s: State) {
    && (forall c, t :: c in s.campaigns && t in s.campaigns[c].tasks ==> Indexed(s, c, t))
    && (forall t :: t in s.byId ==> IdEntryBacked(s, t))
    && (forall key :: key in s.bySlug ==> SlugEntryBacked(s, key))
  }

  /** Equal task ids carry equal hashes, whichever campaigns hold them. */
  lemma EqualIdsEqualHashes(s: State, c: string, d: string, t: string)
    requires IndexesAgree(s) && c in s.campaigns && d in s.campaigns
    requires t in s.campaigns[c].tasks && t in s.campaigns[d].tasks
    ensures s.campaigns[c].tasks[t].hash == s.campaigns[d].tasks[t].hash
  {
    assert Indexed(s, c, t) && Indexed(s, d, t);
  }

  /** What the indexes depend on in one campaign. */
  ghost predicate SameTasks(x: Campaign, y: Campaign) { y.slug == x.slug && y.tasks == x.tasks }

  /** Changing anything but slugs, tasks and indexes, or adding empty campaigns, keeps the agreement. */
  lemma IndexFrame(s: State, next: State)
    requires IndexesAgree(s) && next.byId == s.byId && next.bySlug == s.bySlug
    requires forall c :: c in s.campaigns ==> c in next.campaigns && SameTasks(s.campaigns[c], next.campaigns[c])
    requires forall c :: c in next.campaigns && c !in s.campaigns ==> next.campaigns[c].tasks == map[]
    ensures IndexesAgree(next)
  {
    forall c, t | c in next.campaigns && t in next.campaigns[c].tasks
      ensures Indexed(next, c, t)
    {
      assert Indexed(s, c, t);
    }
    forall t | t in next.byId
      ensures IdEntryBacked(next, t)
    {
      assert IdEntryBacked(s, t);
    }
    forall key | key in next.bySlug
      ensures SlugEntryBacked(next, key)
    {
      assert SlugEntryBacked(s, key);
    }
  }

  lemma AdmitKeepsIndexes(s: State, h: Header, audit: string)
    requires IndexesAgree(s) && Admit(s, h, audit).Ok?
    ensures IndexesAgree(Admit(s, h, audit).value)
  {
    hide IndexesAgree;
    IndexFrame(s, Admit(s, h, audit).value);
  }

  /** What a successful `AddTask` checked and stored. */
  lemma AddTaskEffect(s: State, h: Header, c: Content)
    requires h.id in s.campaigns && AddTask(s, h, c).Ok?
    ensures var next := AddTask(s, h, c).value;
            var key, digest := SlugKey(h.slug, c.slug), TaskDigest(c);
            var before := s.campaigns[h.id].tasks;
            && next.campaigns == s.campaigns[h.id := s.campaigns[h.id].(tasks := next.campaigns[h.id].tasks)]
            && next.campaigns[h.id].tasks == (if c.id in before then before else before[c.id := NewTask(c, h.slug)])
            && next.byId == s.byId[c.id := IdEntry(h.id, digest)]
            && next.bySlug == s.bySlug[key := SlugEntry(h.id, c.id, digest)]
            && (c.id in s.byId ==> s.byId[c.id].hash == digest)
            && (key in s.bySlug ==> s.bySlug[key].hash == digest)
            && (c.id in before ==> before[c.id].hash == digest)
  {
  }

  lemma AddTaskReindexes(s: State, h: Header, c: Content, d: string, t: string)
    requires h.id in s.campaigns && AddTask(s, h, c).Ok?
    requires d in s.campaigns && t in s.campaigns[d].tasks && Indexed(s, d, t)
    ensures var next := AddTask(s, h, c).value;
            d in next.campaigns && t in next.campaigns[d].tasks && Indexed(next, d, t)
  {
    hide AddTask, SlugKey;
    AddTaskEffect(s, h, c);
    var next := AddTask(s, h, c).value;
    assert next.campaigns[d].slug == s.campaigns[d].slug && next.campaigns[d].tasks[t] == s.campaigns[d].tasks[t];
  }

  lemma AddTaskIndexesNew(s: State, h: Header, c: Content)
    requires h.id in s.campaigns && s.campaigns[h.id].slug == h.slug && AddTask(s, h, c).Ok?
    requires c.id !in s.campaigns[h.id].tasks
    ensures var next := AddTask(s, h, c).value;
            h.id in next.campaigns && c.id in next.campaigns[h.id].tasks && Indexed(next, h.id, c.id)
  {
    hide AddTask, SlugKey;
    AddTaskEffect(s, h, c);
  }

  lemma AddTaskHolds(s: State, h: Header, c: Content, d: string, t: string)
    requires h.id in s.campaigns && AddTask(s, h, c).Ok?
    requires var next := AddTask(s, h, c).value; d in next.campaigns && t in next.campaigns[d].tasks
    ensures (d in s.campaigns && t in s.campaigns[d].tasks) || (d == h.id && t == c.id)
  {
  }

  lemma AddTaskBacksIds(s: State, h: Header, c: Content, t: string)
    requires IndexesAgree(s) && h.id in s.campaigns && AddTask(s, h, c).Ok?
    requires t in AddTask(s, h, c).value.byId
    ensures IdEntryBacked(AddTask(s, h, c).value, t)
  {
    hide AddTask, SlugKey, Indexed, SlugEntryBacked;
    AddTaskEffect(s, h, c);
    if t != c.id {
      assert IdEntryBacked(s, t);
    }
  }

  lemma AddTaskBacksSlugs(s: State, h: Header, c: Content, key: string)
    requires h.id in s.campaigns && s.campaigns[h.id].slug == h.slug && AddTask(s, h, c).Ok?
    requires c.id in s.campaigns[h.id].tasks ==> Indexed(s, h.id, c.id)
    requires key in s.bySlug ==> SlugEntryBacked(s, key)
    requires key in AddTask(s, h, c).value.bySlug
    ensures SlugEntryBacked(AddTask(s, h, c).value, key)
  {
    hide AddTask, SlugKey;
    AddTaskEffect(s, h, c);
  }

  lemma AddTaskKeepsIndexes(s: State, h: Header, c: Content)
    requires IndexesAgree(s) && h.id in s.campaigns && s.campaigns[h.id].slug == h.slug && AddTask(s, h, c).Ok?
    ensures IndexesAgree(AddTask(s, h, c).value)
  {
    hide Indexed, IdEntryBacked, SlugEntryBacked, AddTask;
    var next := AddTask(s, h, c).value;
    forall d, t | d in next.campaigns && t in next.campaigns[d].tasks
      ensures Indexed(next, d, t)
    {
      AddTaskHolds(s, h, c, d, t);
      if d in s.campaigns && t in s.campaigns[d].tasks {
        AddTaskReindexes(s, h, c, d, t);
      } else {
        AddTaskIndexesNew(s, h, c);
      }
    }
    forall t | t in next.byId
      ensures IdEntryBacked(next, t)
    {
      AddTaskBacksIds(s, h, c, t);
    }
    forall key | key in next.bySlug
      ensures SlugEntryBacked(next, key)
    {
      assert c.id in s.campaigns[h.id].tasks ==> Indexed(s, h.id, c.id);
      AddTaskBacksSlugs(s, h, c, key);
    }
  }

  lemma ApplyKeepsIndexes(s: State, step: Step)
    requires IndexesAgree(s) && Apply(s, step).Ok?
    ensures IndexesAgree(Apply(s, step).value)
  {
    hide AddTask, IndexesAgree;
    AdmitKeepsIndexes(s, step.h, step.audit);
    if step.task.Some? {
      AddTaskKeepsIndexes(Admit(s, step.h, step.audit).value, step.h, step.task.value);
    }
  }

  lemma {:induction false} ReplayKeepsIndexes(s: State, steps: seq<Step>)
    requires IndexesAgree(s) && Replay(s, steps).Ok?
    ensures IndexesAgree(Replay(s, steps).value)
    decreases |steps|
  {
    hide Apply, IndexesAgree;
    if steps != [] {
      ApplyKeepsIndexes(s, steps[0]);
      ReplayKeepsIndexes(Apply(s, steps[0]).value, steps[1..]);
    }
  }

  /** Every merge keeps the indexes and the campaigns in agreement. */
  lemma MergeKeepsIndexes(s: State, p: Proposal, audit: string)
    requires IndexesAgree(s) && MergeProposal(s, p, audit).error.None?
    ensures IndexesAgree(MergeProposal(s, p, audit).state)
  {
    hide MergeProposal, Replay, IndexesAgree, Decode;
    MergeReplays(s, p, audit);
    ReplayKeepsIndexes(s, Decode(p, audit).value);
  }

  // ---------------------------------------------------------------- exactly when a merge succeeds

  /** A merge succeeds exactly when the proposal is well formed and no two answers to one question differ. */
  lemma MergeSucceedsIff(s: State, p: Proposal, audit: string)
    requires WellFormed(s)
    ensures MergeProposal(s, p, audit).error.None? <==>
            var steps := Decode(p, audit);
            steps.Some? && Consistent(steps.value) && AllFit(s, steps.value)
  {
    hide MergeProposal, Replay, Decode, Consistent, AllFit, WellFormed;
    MergeReplays(s, p, audit);
    if Decode(p, audit).Some? {
      DecodeProper(p, audit);
      ReplayIff(s, Decode(p, audit).value);
    }
  }

  // ---------------------------------------------------------------- merging twice

  /** What the steps leave in the id index: the last writer of each id. */
  function IdWrites(steps: seq<Step>): map<string, IdEntry> {
    if steps == [] then map[]
    else
      var step := steps[0];
      (if step.task.Some? then map[step.task.value.id := IdEntry(step.h.id, TaskDigest(step.task.value))] else map[])
      + IdWrites(steps[1..])
  }

  function SlugWrites(steps: seq<Step>): map<string, SlugEntry> {
    if steps == [] then map[]
    else
      var step := steps[0];
      (if step.task.Some?
       then map[SlugKey(step.h.slug, step.task.value.slug)
                  := SlugEntry(step.h.id, step.task.value.id, TaskDigest(step.task.value))]
       else map[])
      + SlugWrites(steps[1..])
  }

  lemma {:induction false} ReplayWrites(s: State, steps: seq<Step>)
    requires Replay(s, steps).Ok?
    ensures Replay(s, steps).value.byId == s.byId + IdWrites(steps)
    ensures Replay(s, steps).value.bySlug == s.bySlug + SlugWrites(steps)
    decreases |steps|
  {
    hide Apply;
    if steps != [] {
      var next := Apply(s, steps[0]).value;
      ReplayWrites(next, steps[1..]);
      ApplyWrites(s, steps[0]);
      WritesSplit(steps);
      hide IdWrites, SlugWrites;
      OverrideAssociative(s.byId, IdWrites([steps[0]]), IdWrites(steps[1..]));
      OverrideAssociative(s.bySlug, SlugWrites([steps[0]]), SlugWrites(steps[1..]));
    } else {
      assert s.byId + map[] == s.byId && s.bySlug + map[] == s.bySlug;
    }
  }

  lemma OverrideAssociative<K, V>(a: map<K, V>, b: map<K, V>, c: map<K, V>)
    ensures a + b + c == a + (b + c)
  {
  }

  lemma WritesSplit(steps: seq<Step>)
    requires steps != []
    ensures IdWrites(steps) == IdWrites([steps[0]]) + IdWrites(steps[1..])
    ensures SlugWrites(steps) == SlugWrites([steps[0]]) + SlugWrites(steps[1..])
  {
    assert [steps[0]][1..] == [];
  }

  lemma ApplyWrites(s: State, step: Step)
    requires Apply(s, step).Ok?
    ensures Apply(s, step).value.byId == s.byId + IdWrites([step])
    ensures Apply(s, step).value.bySlug == s.bySlug + SlugWrites([step])
  {
    hide Admit, AddTask, SlugKey;
    AdmitKeepsWrites(s, step.h, step.audit);
    assert [step][1..] == [];
    if step.task.Some? {
      var c := step.task.value;
      AddTaskEffect(Admit(s, step.h, step.audit).value, step.h, c);
      OverrideOne(s.byId, c.id, IdEntry(step.h.id, TaskDigest(c)));
      OverrideOne(s.bySlug, SlugKey(step.h.slug, c.slug), SlugEntry(step.h.id, c.id, TaskDigest(c)));
    } else {
      assert s.byId + (map[] + map[]) == s.byId && s.bySlug + (map[] + map[]) == s.bySlug;
    }
  }

  lemma OverrideOne<K, V>(m: map<K, V>, key: K, value: V)
    ensures m + (map[key := value] + map[]) == m[key := value]
  {
    assert map[key := value] + map[] == map[key := value];
  }

  lemma AdmitKeepsWrites(s: State, h: Header, audit: string)
    requires Admit(s, h, audit).Ok?
    ensures Admit(s, h, audit).value.byId == s.byId && Admit(s, h, audit).value.bySlug == s.bySlug
  {
  }

  /** The state already knows everything the steps claim. */
  ghost predicate Knows(s: State, steps: seq<Step>) {
    forall i, k :: 0 <= i < |steps| && Claim(steps[i], k).Some? ==> Known(s, k) == Claim(steps[i], k)
  }

  lemma ApplyKnownStep(s: State, step: Step)
    requires WellFormed(s) && ProperHeader(step.h) && Knows(s, [step])
    ensures Apply(s, step).Ok?
    ensures Apply(s, step).value.campaigns == s.campaigns && Apply(s, step).value.order == s.order
  {
    hide ParseCampaignId;
    var h := step.h;
    assert [step][0] == step;
    assert Known(s, SpecKey(h.id)) == Claim(step, SpecKey(h.id));
    assert Known(s, AuditKey(h.id, step.audit)) == Claim(step, AuditKey(h.id, step.audit));
    assert h.reason.Some? ==> Known(s, ReasonKey(h.id)) == Claim(step, ReasonKey(h.id));
    assert HeaderMatchesId(h.id, s.campaigns[h.id]);
    AdmitKnownHeader(s, h, step.audit);
    if step.task.Some? {
      var c := step.task.value;
      assert Known(s, IdKey(c.id)) == Claim(step, IdKey(c.id));
      assert Known(s, SlugIndexKey(SlugKey(h.slug, c.slug))) == Claim(step, SlugIndexKey(SlugKey(h.slug, c.slug)));
      assert Known(s, HeldKey(h.id, c.id)) == Claim(step, HeldKey(h.id, c.id));
      var campaign := s.campaigns[h.id];
      assert s.campaigns[h.id := campaign.(tasks := campaign.tasks)] == s.campaigns;
    }
  }

  lemma AdmitKnownHeader(s: State, h: Header, audit: string)
    requires h.id in s.campaigns
    requires var x := s.campaigns[h.id];
             && x.slug == h.slug && x.date == h.date && x.seqNo == h.seqNo
             && x.dependsOn == h.dependsOn && x.markdown == h.markdown
             && (h.reason.Some? ==> x.reason == h.reason) && audit in x.audits
    ensures Admit(s, h, audit) == Ok(s)
  {
    var x := s.campaigns[h.id];
    assert x.(reason := x.reason, audits := x.audits) == x;
    assert s.campaigns[h.id := x] == s.campaigns;
  }

  lemma {:induction false} ReplayKnownSteps(s: State, steps: seq<Step>)
    requires WellFormed(s) && ProperSteps(steps) && Knows(s, steps)
    ensures Replay(s, steps).Ok?
    ensures Replay(s, steps).value.campaigns == s.campaigns && Replay(s, steps).value.order == s.order
    decreases |steps|
  {
    hide Apply, ProperHeader, WellFormed, Known, Claim;
    if steps != [] {
      var first, rest := steps[0], steps[1..];
      assert Knows(s, [first]);
      ApplyKnownStep(s, first);
      ApplyWellFormed(s, first);
      var next := Apply(s, first).value;
      forall i, k: Key | 0 <= i < |rest| && Claim(rest[i], k).Some?
        ensures Known(next, k) == Claim(rest[i], k)
      {
        ApplyKnown(s, first, k);
        assert Known(s, k) == Claim(steps[i + 1], k);
        if Claim(first, k).Some? {
          assert Known(s, k) == Claim(steps[0], k);
        }
      }
      ReplayKnownSteps(next, rest);
    }
  }

  lemma ReplayThenKnows(s: State, steps: seq<Step>)
    requires WellFormed(s) && ProperSteps(steps) && Replay(s, steps).Ok?
    ensures Knows(Replay(s, steps).value, steps)
  {
    hide Known, Claim, Apply, WellFormed, ProperHeader, Replay, Claimed;
    ReplayIff(s, steps);
    forall i, k: Key | 0 <= i < |steps| && Claim(steps[i], k).Some?
      ensures Known(Replay(s, steps).value, k) == Claim(steps[i], k)
    {
      ReplayKnown(s, steps, k);
      ClaimedBySome(steps, k);
      assert Claimed(steps, k).Some?;
      var j :| 0 <= j < |steps| && Claimed(steps, k) == Claim(steps[j], k);
      assert Compatible(Claim(steps[i], k), Claim(steps[j], k));
    }
  }

  lemma ReplayTwice(s: State, steps: seq<Step>)
    requires WellFormed(s) && ProperSteps(steps) && Replay(s, steps).Ok?
    ensures Replay(Replay(s, steps).value, steps) == Replay(s, steps)
  {
    hide Known, Claim, Apply, WellFormed, ProperHeader, Replay;
    ReplayIff(s, steps);
    ReplayThenKnows(s, steps);
    var once := Replay(s, steps).value;
    ReplayKnownSteps(once, steps);
    ReplayWrites(s, steps);
    ReplayWrites(once, steps);
    assert s.byId + IdWrites(steps) + IdWrites(steps) == s.byId + IdWrites(steps);
    assert s.bySlug + SlugWrites(steps) + SlugWrites(steps) == s.bySlug + SlugWrites(steps);
  }

  // ---------------------------------------------------------------- exact counts

  lemma AddTaskCounts(s: State, h: Header, c: Content)
    requires h.id in s.campaigns && AddTask(s, h, c).Ok?
    ensures var next := AddTask(s, h, c).value;
            && next.campaigns.Keys == s.campaigns.Keys
            && |Held(next)| == |Held(s)| + if c.id in s.campaigns[h.id].tasks then 0 else 1
  {
    var next := AddTask(s, h, c).value;
    assert Held(next) == Held(s) + {(h.id, c.id)};
  }

  lemma AdmitCounts(s: State, h: Header, audit: string)
    requires Admit(s, h, audit).Ok?
    ensures var next := Admit(s, h, audit).value;
            && |next.campaigns| == |s.campaigns| + (if h.id in s.campaigns then 0 else 1)
            && Held(next) == Held(s)
  {
    hide Admit, Held;
    AdmitKeys(s, h, audit);
    AdmitHolds(s, h, audit);
    CountKeys(s.campaigns, Admit(s, h, audit).value.campaigns, h.id);
  }

  lemma CountKeys<V>(a: map<string, V>, b: map<string, V>, key: string)
    requires b.Keys == a.Keys + {key}
    ensures |b| == |a| + if key in a then 0 else 1
  {
    assert |a| == |a.Keys| && |b| == |b.Keys|;
    if key in a {
      assert b.Keys == a.Keys;
    } else {
      assert b.Keys - {key} == a.Keys;
    }
  }

  lemma AdmitKeys(s: State, h: Header, audit: string)
    requires Admit(s, h, audit).Ok?
    ensures Admit(s, h, audit).value.campaigns.Keys == s.campaigns.Keys + {h.id}
  {
  }

  lemma AdmitHolds(s: State, h: Header, audit: string)
    requires Admit(s, h, audit).Ok?
    ensures Held(Admit(s, h, audit).value) == Held(s)
  {
    var next := Admit(s, h, audit).value;
    forall c, t
      ensures (c, t) in Held(next) <==> (c, t) in Held(s)
    {
      assert c != h.id ==> (c in next.campaigns <==> c in s.campaigns);
    }
  }

  lemma {:induction false} MergeTasksCounts(acc: Merged, h: Header, raws: seq<RawTask>, ids: set<string>,
                                            slugs: set<string>)
    requires h.id in acc.state.campaigns
    ensures var m := MergeTasks(acc, h, raws, ids, slugs);
            && m.campaigns == acc.campaigns && m.state.campaigns.Keys == acc.state.campaigns.Keys
            && m.tasks - acc.tasks == |Held(m.state)| - |Held(acc.state)|
    decreases |raws|
  {
    hide NormalizeTask, AddTask, Held;
    if raws != [] && !raws[0].NotAnObject? && NormalizeTask(raws[0]).Ok? {
      var c := NormalizeTask(raws[0]).value;
      if c.id !in ids && c.slug !in slugs && AddTask(acc.state, h, c).Ok? {
        AddTaskCounts(acc.state, h, c);
        var isNew := c.id !in acc.state.campaigns[h.id].tasks;
        MergeTasksCounts(acc.(state := AddTask(acc.state, h, c).value, tasks := acc.tasks + if isNew then 1 else 0),
                         h, raws[1..], ids + {c.id}, slugs + {c.slug});
      }
    }
  }

  lemma MergeEntryCounts(acc: Merged, raw: RawCampaign, audit: string)
    ensures var m := MergeEntry(acc, raw, audit);
            && m.campaigns - acc.campaigns == |m.state.campaigns| - |acc.state.campaigns|
            && m.tasks - acc.tasks == |Held(m.state)| - |Held(acc.state)|
  {
    hide DecodeHeader, MergeTasks, Admit, Held;
    if DecodeHeader(raw).Ok? {
      var h := DecodeHeader(raw).value;
      if Admit(acc.state, h, audit).Ok? {
        AdmitCounts(acc.state, h, audit);
        var next := Admit(acc.state, h, audit).value;
        var isNew := h.id !in acc.state.campaigns;
        var start := acc.(state := next, campaigns := acc.campaigns + if isNew then 1 else 0);
        MergeTasksCounts(start, h, raw.tasks.items, {}, {});
        var m := MergeTasks(start, h, raw.tasks.items, {}, {});
        assert |m.state.campaigns| == |m.state.campaigns.Keys| && |next.campaigns| == |next.campaigns.Keys|;
      }
    }
  }

  lemma {:induction false} MergeEntriesCounts(acc: Merged, raws: seq<RawCampaign>, audit: string)
    ensures var m := MergeEntries(acc, raws, audit);
            && m.campaigns - acc.campaigns == |m.state.campaigns| - |acc.state.campaigns|
            && m.tasks - acc.tasks == |Held(m.state)| - |Held(acc.state)|
    decreases |raws|
  {
    hide MergeEntry, Held;
    if raws != [] {
      MergeEntryCounts(acc, raws[0], audit);
      if MergeEntry(acc, raws[0], audit).error.None? {
        MergeEntriesCounts(MergeEntry(acc, raws[0], audit), raws[1..], audit);
      }
    }
  }

  /** The returned counts are the exact growth in campaigns and in tasks held. */
  lemma MergeCountsExact(s: State, p: Proposal, audit: string)
    ensures var m := MergeProposal(s, p, audit);
            && m.campaigns == |m.state.campaigns| - |s.campaigns|
            && m.tasks == |Held(m.state)| - |Held(s)|
  {
    if p.Proposal? {
      MergeEntriesCounts(Merged(s, 0, 0, None), p.campaigns, audit);
    }
  }

  /** Merging the same proposal again succeeds, adds nothing and leaves the state as it is. */
  lemma MergeIdempotent(s: State, p: Proposal, audit: string)
    requires WellFormed(s) && MergeProposal(s, p, audit).error.None?
    ensures var once := MergeProposal(s, p, audit).state;
            MergeProposal(once, p, audit) == Merged(once, 0, 0, None)
  {
    hide MergeProposal, Replay, Decode, WellFormed, Held, ProperHeader;
    MergeReplays(s, p, audit);
    DecodeProper(p, audit);
    ReplayTwice(s, Decode(p, audit).value);
    var once := MergeProposal(s, p, audit).state;
    MergeReplays(once, p, audit);
    MergeCountsExact(once, p, audit);
  }
}
