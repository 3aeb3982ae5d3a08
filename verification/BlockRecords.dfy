/** The marked block of each campaign document shows exactly the implementation commits the state file names. */
module BlockRecords {
  import opened Wrappers
  import opened Text
  import opened Search
  import opened Decimal
  import opened MappingBlock
  import opened MappingLaws
  import opened Tasks
  import opened Campaigns
  import opened Merge
  import opened Confluence
  import opened Selection
  import opened Runner
  import opened DocumentLaws
  import opened RunSafety
  import opened Fallback
  import opened Attempts
  import opened CommitRecords

  // ---------------------------------------------------------------- what a document shows

  /** What the block should hold: the implementation commit of every task that was run. */
  ghost function RunMap(x: Campaign): map<string, Hashes> {
    map t | t in x.tasks && x.tasks[t].implementationCommit.Some? :: PairOf(x.tasks[t].implementationCommit.value)
  }

  function PairOf(sha: Sha): Hashes { (ShaText(sha), "SELF") }

  /** What the text between the first markers parses to. */
  function BlockMap(text: string): map<string, Hashes> {
    var start, end := Find(text, MAPPING_START), Find(text, MAPPING_END);
    var from := start + |MAPPING_START|;
    if 0 <= start && from <= end <= |text| then Entries(text[from..end]) else map[]
  }

  /** The campaign's document, if it is there, is managed and shows its tasks' commits; if not, none was run. */
  ghost predicate Shows(docs: Documents, x: Campaign) {
    if DocName(x) in docs then exists before, after :: Managed(docs[DocName(x)], before, RunMap(x), after)
    else RunMap(x) == map[]
  }

  /** No campaign of the state has this document. */
  ghost predicate Unowned(s: State, name: string) {
    forall c :: c in s.campaigns ==> DocName(s.campaigns[c]) != name
  }

  ghost predicate ShowsNothing(text: string) { exists before, after :: Managed(text, before, map[], after) }

  /** Documents show the commits of their campaigns; one that has no campaign on file, or none yet, shows none. */
  ghost predicate AllShown(docs: Documents, s: State) {
    && (forall c :: c in s.campaigns ==> Shows(docs, s.campaigns[c]))
    && (forall name :: name in docs && Unowned(s, name) ==> ShowsNothing(docs[name]))
  }

  lemma ManagedParses(text: string, before: string, entries: map<string, Hashes>, after: string)
    requires Managed(text, before, entries, after)
    ensures BlockMap(text) == entries
  {
    hide Block, Entries, Find, Clean, Contains;
    var head, tail := before + MAPPING_START, MAPPING_END + after;
    ManagedStart(text, before, entries, after);
    ManagedEnd(text, before, entries, after);
    ManagedClean(text, before, entries, after);
    BlockRoundTrip(entries);
    Parts(head, Block(entries), tail);
    assert text == head + Block(entries) + tail;
    assert text[|head|..|head| + |Block(entries)|] == Block(entries);
  }

  /** So parsing the block of a document that is there gives exactly its campaign's commits. */
  lemma ShownParses(docs: Documents, x: Campaign)
    requires Shows(docs, x) && DocName(x) in docs
    ensures BlockMap(docs[DocName(x)]) == RunMap(x)
  {
    hide DocName, RunMap, Managed, BlockMap;
    var before, after :| Managed(docs[DocName(x)], before, RunMap(x), after);
    ManagedParses(docs[DocName(x)], before, RunMap(x), after);
  }

  lemma PairIsClean(sha: Sha)
    ensures CleanHash(PairOf(sha).0) && CleanHash(PairOf(sha).1)
  {
    ToDecimalDigits(sha);
    NotEmptyDecimal(sha);
  }

  lemma NotEmptyDecimal(n: nat)
    ensures ToDecimal(n) != ""
  {
  }

  // ---------------------------------------------------------------- valid ids

  ghost predicate ValidIds(s: State) {
    forall c, t :: c in s.campaigns && t in s.campaigns[c].tasks ==> IsTaskId(t)
  }

  lemma {:induction false} MergeTasksIds(acc: Merged, h: Header, raws: seq<RawTask>, ids: set<string>,
                                         slugs: set<string>)
    requires h.id in acc.state.campaigns && ValidIds(acc.state)
    ensures ValidIds(MergeTasks(acc, h, raws, ids, slugs).state)
    decreases |raws|
  {
    hide NormalizeTask, AddTask, ValidIds;
    if raws != [] && raws[0].RawTask? && NormalizeTask(raws[0]).Ok? {
      var c := NormalizeTask(raws[0]).value;
      NormalizedId(raws[0]);
      if AddTask(acc.state, h, c).Ok? && c.id !in ids && c.slug !in slugs {
        AddTaskIds(acc.state, h, c);
        var isNew := c.id !in acc.state.campaigns[h.id].tasks;
        MergeTasksIds(acc.(state := AddTask(acc.state, h, c).value, tasks := acc.tasks + if isNew then 1 else 0),
                      h, raws[1..], ids + {c.id}, slugs + {c.slug});
      }
    }
  }

  lemma NormalizedId(raw: RawTask)
    requires raw.RawTask? && NormalizeTask(raw).Ok?
    ensures IsTaskId(NormalizeTask(raw).value.id)
  {
    hide NormalizeTask, IsTaskId;
    NormalizedTaskValid(raw);
  }

  lemma AddTaskIds(s: State, h: Header, c: Content)
    requires ValidIds(s) && h.id in s.campaigns && AddTask(s, h, c).Ok? && IsTaskId(c.id)
    ensures ValidIds(AddTask(s, h, c).value)
  {
    hide IsTaskId, SlugKey;
  }

  lemma MergeEntryIds(acc: Merged, raw: RawCampaign, audit: string)
    requires ValidIds(acc.state)
    ensures ValidIds(MergeEntry(acc, raw, audit).state)
  {
    hide DecodeHeader, Admit, MergeTasks, ValidIds;
    if DecodeHeader(raw).Ok? && Admit(acc.state, DecodeHeader(raw).value, audit).Ok? {
      var h := DecodeHeader(raw).value;
      AdmitIds(acc.state, h, audit);
      var isNew := h.id !in acc.state.campaigns;
      var next := acc.(state := Admit(acc.state, h, audit).value, campaigns := acc.campaigns + if isNew then 1 else 0);
      MergeTasksIds(next, h, raw.tasks.items, {}, {});
    }
  }

  lemma AdmitIds(s: State, h: Header, audit: string)
    requires ValidIds(s) && Admit(s, h, audit).Ok?
    ensures ValidIds(Admit(s, h, audit).value)
  {
    hide IsTaskId;
  }

  lemma {:induction false} MergeEntriesIds(acc: Merged, raws: seq<RawCampaign>, audit: string)
    requires ValidIds(acc.state)
    ensures ValidIds(MergeEntries(acc, raws, audit).state)
    decreases |raws|
  {
    hide MergeEntry, ValidIds;
    if raws != [] {
      MergeEntryIds(acc, raws[0], audit);
      MergeEntriesIds(MergeEntry(acc, raws[0], audit), raws[1..], audit);
    }
  }

  /** Whatever is proposed, task ids stay well formed. */
  lemma MergeKeepsIds(s: State, p: Proposal, audit: string)
    requires ValidIds(s)
    ensures ValidIds(MergeProposal(s, p, audit).state)
  {
    hide ValidIds;
    if p.Proposal? {
      MergeEntriesIds(Merged(s, 0, 0, None), p.campaigns, audit);
    }
  }

  // ---------------------------------------------------------------- what the pass must leave alone

  predicate PlainRunId(runId: string) {
    forall c :: c in runId ==> IsAsciiLetter(c) || IsDigit(c) || c in {'_', ':', '-'}
  }

  /**
   No markdown of a campaign holds a marker, no two campaigns have one document, and the agent leaves the
   campaign documents to the runner.
   */
  ghost predicate Tidy(m: State, input: PassInput) {
    && PlainRunId(input.runId)
    && (forall c :: c in m.campaigns ==>
          !Contains(m.campaigns[c].markdown, MAPPING_START) && !Contains(m.campaigns[c].markdown, MAPPING_END))
    && (forall c, d :: c in m.campaigns && d in m.campaigns && c != d ==>
          DocName(m.campaigns[c]) != DocName(m.campaigns[d]))
    && (forall t :: input.agent(t).edits == map[])
  }

  /** The campaigns are among those of `m`, under the same document names. */
  ghost predicate Named(s: State, m: State) {
    forall c :: c in s.campaigns ==> c in m.campaigns && DocName(s.campaigns[c]) == DocName(m.campaigns[c])
  }

  lemma ShowsSame(docs: Documents, next: Documents, x: Campaign, y: Campaign)
    requires Shows(docs, x) && DocName(y) == DocName(x) && RunMap(y) == RunMap(x)
    requires DocName(x) in docs <==> DocName(x) in next
    requires DocName(x) in docs ==> next[DocName(x)] == docs[DocName(x)]
    ensures Shows(next, y)
  {
    hide DocName, RunMap, Managed;
  }

  lemma PlacedShows(docs: Documents, x: Campaign, y: Campaign)
    requires Shows(docs, y) && DocName(y) == DocName(x)
    requires !Contains(x.markdown, MAPPING_START) && !Contains(x.markdown, MAPPING_END)
    ensures Shows(Placed(docs, x), y)
  {
    hide DocName, RunMap, Managed, EnsureBlock, Contains;
    if DocName(x) !in docs {
      EnsuredManaged(x.markdown);
      assert Placed(docs, x)[DocName(x)] == EnsureBlock(x.markdown);
    }
  }

  lemma PlacedShown(docs: Documents, s: State, m: State, c: string, input: PassInput)
    requires AllShown(docs, s) && Named(s, m) && c in m.campaigns && Tidy(m, input)
    ensures AllShown(Placed(docs, m.campaigns[c]), s)
  {
    hide Shows, DocName, Contains, EnsureBlock, ShowsNothing;
    var x := m.campaigns[c];
    var next := Placed(docs, x);
    forall d | d in s.campaigns
      ensures Shows(next, s.campaigns[d])
    {
      if d == c {
        PlacedShows(docs, x, s.campaigns[d]);
      } else {
        assert DocName(m.campaigns[d]) != DocName(x);
        ShowsSame(docs, next, s.campaigns[d], s.campaigns[d]);
      }
    }
    EnsuredShowsNothing(x.markdown);
  }

  lemma EnsuredShowsNothing(text: string)
    requires !Contains(text, MAPPING_START) && !Contains(text, MAPPING_END)
    ensures ShowsNothing(EnsureBlock(text))
  {
    hide Managed, EnsureBlock, Contains;
    EnsuredManaged(text);
  }

  /** Recording a commit in a document that is there shows it, and nothing else changes. */
  lemma RecordedShows(docs: Documents, x: Campaign, y: Campaign, t: string, sha: Sha)
    requires Shows(docs, x) && DocName(x) in docs && DocName(y) == DocName(x) && IsTaskId(t)
    requires RunMap(y) == RunMap(x)[t := PairOf(sha)]
    ensures Recorded(docs, x, t, sha).Some? && Shows(Recorded(docs, x, t, sha).value, y)
  {
    hide DocName, RunMap, Managed, UpdateBlock, IsTaskId, CleanHash, ShaText;
    var text := docs[DocName(x)];
    var before, after :| Managed(text, before, RunMap(x), after);
    PairIsClean(sha);
    UpdateManaged(text, before, RunMap(x), after, t, PairOf(sha));
  }

  lemma RecordedShown(docs: Documents, s: State, m: State, c: string, y: Campaign, t: string, sha: Sha,
                      input: PassInput)
    requires AllShown(docs, s) && Named(s, m) && Tidy(m, input) && c in s.campaigns && c in m.campaigns
    requires DocName(s.campaigns[c]) in docs && DocName(y) == DocName(s.campaigns[c]) && IsTaskId(t)
    requires RunMap(y) == RunMap(s.campaigns[c])[t := PairOf(sha)]
    ensures var recorded := Recorded(docs, s.campaigns[c], t, sha);
            recorded.Some? && AllShown(recorded.value, s.(campaigns := s.campaigns[c := y]))
  {
    hide Shows, DocName, Contains, RunMap, UpdateBlock, IsTaskId, ShaText, ShowsNothing;
    var x, next := s.campaigns[c], s.(campaigns := s.campaigns[c := y]);
    RecordedShows(docs, x, y, t, sha);
    var recorded := Recorded(docs, x, t, sha).value;
    forall d | d in next.campaigns
      ensures Shows(recorded, next.campaigns[d])
    {
      if d != c {
        assert DocName(m.campaigns[d]) != DocName(m.campaigns[c]);
        ShowsSame(docs, recorded, s.campaigns[d], s.campaigns[d]);
      }
    }
    SameOwners(s, c, y);
    assert next.campaigns[c] == y;
  }

  lemma SameOwners(s: State, c: string, y: Campaign)
    requires c in s.campaigns && DocName(y) == DocName(s.campaigns[c])
    ensures forall name :: Unowned(s.(campaigns := s.campaigns[c := y]), name) <==> Unowned(s, name)
  {
    hide DocName;
    var next := s.(campaigns := s.campaigns[c := y]);
    forall name
      ensures Unowned(next, name) <==> Unowned(s, name)
    {
      if Unowned(next, name) {
        forall d | d in s.campaigns
          ensures DocName(s.campaigns[d]) != name
        {
          assert DocName(next.campaigns[d]) != name;
        }
      }
    }
  }

  /** Replacing a campaign's record by one with the same commits. */
  lemma ReplacedShown(docs: Documents, s: State, c: string, y: Campaign)
    requires AllShown(docs, s) && c in s.campaigns
    requires DocName(y) == DocName(s.campaigns[c]) && RunMap(y) == RunMap(s.campaigns[c])
    ensures AllShown(docs, s.(campaigns := s.campaigns[c := y]))
  {
    hide Shows, DocName, RunMap, ShowsNothing, Unowned;
    ShowsSame(docs, docs, s.campaigns[c], y);
    SameOwners(s, c, y);
  }

  lemma KeptRunMap(s: State, m: State, c: string)
    requires Extends(s, m) && c in s.campaigns
    ensures c in m.campaigns && DocName(m.campaigns[c]) == DocName(s.campaigns[c])
            && RunMap(m.campaigns[c]) == RunMap(s.campaigns[c])
  {
    hide DocName;
    assert KeepsCampaign(s.campaigns[c], m.campaigns[c]);
    SameName(s.campaigns[c], m.campaigns[c]);
    forall t | t in m.campaigns[c].tasks && t !in s.campaigns[c].tasks
      ensures m.campaigns[c].tasks[t].implementationCommit.None?
    {
      NewIsPending(s, m, c, t);
    }
  }

  lemma NewRunMap(s: State, m: State, c: string)
    requires Extends(s, m) && c in m.campaigns && c !in s.campaigns
    ensures RunMap(m.campaigns[c]) == map[]
  {
    forall t | t in m.campaigns[c].tasks
      ensures m.campaigns[c].tasks[t].implementationCommit.None?
    {
      NewIsPending(s, m, c, t);
    }
  }

  /** A merge names no commits. */
  lemma MergedShown(docs: Documents, s: State, m: State, input: PassInput)
    requires AllShown(docs, s) && Extends(s, m) && Tidy(m, input)
    ensures AllShown(docs, m) && Named(s, m)
  {
    hide Shows, DocName, RunMap, Extends, Contains, ShowsNothing;
    forall c | c in s.campaigns
      ensures c in m.campaigns && DocName(m.campaigns[c]) == DocName(s.campaigns[c])
    {
      KeptRunMap(s, m, c);
    }
    forall c | c in m.campaigns
      ensures Shows(docs, m.campaigns[c])
    {
      if c in s.campaigns {
        KeptRunMap(s, m, c);
        ShowsSame(docs, docs, s.campaigns[c], m.campaigns[c]);
      } else {
        NewRunMap(s, m, c);
        if DocName(m.campaigns[c]) in docs {
          assert Unowned(s, DocName(m.campaigns[c]));
        }
        NothingShows(docs, m.campaigns[c]);
      }
    }
    forall name | name in docs && Unowned(m, name)
      ensures Unowned(s, name)
    {
    }
  }

  lemma NothingShows(docs: Documents, x: Campaign)
    requires RunMap(x) == map[] && (DocName(x) in docs ==> ShowsNothing(docs[DocName(x)]))
    ensures Shows(docs, x)
  {
    hide DocName, RunMap, Managed;
  }

  // ---------------------------------------------------------------- one task

  /** A record with a new implementation commit adds its pair; one with the same commit changes nothing. */
  lemma RunMapSet(s: State, c: string, t: string, task: Task)
    requires c in s.campaigns && task.implementationCommit.Some?
    ensures var next := SetTask(s, c, t, task);
            && c in next.campaigns && DocName(next.campaigns[c]) == DocName(s.campaigns[c])
            && RunMap(next.campaigns[c]) == RunMap(s.campaigns[c])[t := PairOf(task.implementationCommit.value)]
  {
    hide DocName, PairOf;
    SetTaskName(s, c, t, task);
  }

  /** The documents show what is on disk and, unless the loop was aborted, what is in memory. */
  ghost predicate LoopShown(l: Loop, m: State, c: string) {
    && c in m.campaigns && DocName(m.campaigns[c]) in l.world.docs
    && Named(l.world.disk, m) && AllShown(l.world.docs, l.world.disk)
    && Named(l.memory, m) && (!l.stop.Raised? ==> AllShown(l.world.docs, l.memory))
    && ValidIds(l.memory) && ValidIds(l.world.disk)
  }

  lemma SetTaskShown(docs: Documents, s: State, m: State, c: string, t: string, task: Task, input: PassInput)
    requires AllShown(docs, s) && Named(s, m) && Tidy(m, input) && ValidIds(s) && IsTaskId(t)
    requires c in s.campaigns && DocName(s.campaigns[c]) in docs && task.implementationCommit.Some?
    ensures var recorded := Recorded(docs, s.campaigns[c], t, task.implementationCommit.value);
            && recorded.Some? && AllShown(recorded.value, SetTask(s, c, t, task))
            && DocName(s.campaigns[c]) in recorded.value
    ensures Named(SetTask(s, c, t, task), m) && ValidIds(SetTask(s, c, t, task))
  {
    hide AllShown, Tidy, DocName, RunMap, UpdateBlock, IsTaskId, PairOf, ShaText;
    RunMapSet(s, c, t, task);
    RecordedShown(docs, s, m, c, SetTask(s, c, t, task).campaigns[c], t, task.implementationCommit.value, input);
  }

  /** Naming the receipt changes nothing a document shows. */
  lemma ReceiptShown(docs: Documents, s: State, m: State, c: string, t: string, task: Task)
    requires AllShown(docs, s) && Named(s, m) && ValidIds(s) && HoldsTask(s, c, t)
    requires task.implementationCommit.Some?
             && s.campaigns[c].tasks[t].implementationCommit == task.implementationCommit
    ensures AllShown(docs, SetTask(s, c, t, task)) && Named(SetTask(s, c, t, task), m)
            && ValidIds(SetTask(s, c, t, task))
  {
    hide AllShown, DocName, IsTaskId, PairOf;
    RunMapSet(s, c, t, task);
    var x := s.campaigns[c];
    assert RunMap(x)[t := PairOf(task.implementationCommit.value)] == RunMap(x);
    ReplacedShown(docs, s, c, SetTask(s, c, t, task).campaigns[c]);
  }

  lemma RunTaskShown(l: Loop, input: PassInput, m: State, c: string, t: string)
    requires l.stop.Running? && HoldsTask(l.memory, c, t) && LoopShown(l, m, c) && Tidy(m, input)
    ensures LoopShown(RunTask(l, input, c, t), m, c)
  {
    hide AllShown, Named, ValidIds, DocName, SetTask, StateHash, Recorded, IsTaskId;
    var outcome := input.agent(t);
    assert outcome.edits == map[];
    assert l.world.docs + map[] == l.world.docs;
    if !outcome.FailsBeforeCommit? && outcome.result.status != Pending {
      var p := |l.world.commits|;
      var done := Reported(l.memory.campaigns[c].tasks[t], outcome.result, p);
      IdOfTask(l.memory, m, c, t);
      SetTaskShown(l.world.docs, l.memory, m, c, t, done, input);
      var memory := SetTask(l.memory, c, t, done);
      SetTaskHolds(l.memory, c, t, done);
      ReceiptShown(Recorded(l.world.docs, l.memory.campaigns[c], t, p).value, memory, m, c, t,
                   done.(receiptCommit := Some(p + 1)));
    }
  }

  lemma IdOfTask(s: State, m: State, c: string, t: string)
    requires ValidIds(s) && Named(s, m) && HoldsTask(s, c, t)
    ensures IsTaskId(t) && c in m.campaigns && DocName(s.campaigns[c]) == DocName(m.campaigns[c])
  {
    hide IsTaskId, DocName;
  }

  lemma {:induction false} RunTasksShown(l: Loop, input: PassInput, m: State, c: string, ids: seq<string>)
    requires LoopShown(l, m, c) && Tidy(m, input)
    requires c in l.memory.campaigns && forall i :: 0 <= i < |ids| ==> HoldsTask(l.memory, c, ids[i])
    ensures LoopShown(RunTasks(l, input, c, ids), m, c)
    decreases |ids|
  {
    hide LoopShown, RunTask, Tidy;
    if ids != [] && l.stop.Running? {
      var rest := ids[1..];
      assert HoldsTask(l.memory, c, ids[0]);
      assert forall i :: 0 <= i < |rest| ==> rest[i] == ids[i + 1] && HoldsTask(l.memory, c, ids[i + 1]);
      if l.memory.campaigns[c].tasks[ids[0]].status == Success {
        RunTasksShown(l, input, m, c, rest);
      } else {
        RunTaskShown(l, input, m, c, ids[0]);
        RunTasksShown(RunTask(l, input, c, ids[0]), input, m, c, rest);
      }
    }
  }

  // ---------------------------------------------------------------- the fallback

  lemma DiscoveryIdValid(x: Campaign, runId: string)
    requires IsSlug(x.slug) && PlainRunId(runId)
    ensures IsTaskId(DiscoveryId(x, runId))
  {
    var id := DiscoveryId(x, runId);
    var prefix: string := "discovery::";
    assert forall c :: c in prefix ==> IsAsciiLetter(c) || c == ':';
    forall c | c in id
      ensures IsAsciiLetter(c) || IsDigit(c) || c in {'_', ':', '-'}
    {
      assert c in prefix || c in x.slug || c == ':' || c in runId;
    }
  }

  /** The placeholder is stored without commits. */
  lemma AddedShown(docs: Documents, s: State, m: State, c: string, runId: string)
    requires AllShown(docs, s) && Named(s, m) && ValidIds(s) && c in s.campaigns && s.campaigns[c].tasks == map[]
    requires IsSlug(s.campaigns[c].slug) && PlainRunId(runId)
    ensures var added := AddDiscovery(s, c, runId);
            && AllShown(docs, added) && Named(added, m) && ValidIds(added)
            && c in added.campaigns && DocName(added.campaigns[c]) == DocName(s.campaigns[c])
  {
    hide AllShown, DocName, IsTaskId, PairOf, DiscoveryId, DiscoveryTask, SlugKey, IsSlug, PlainRunId;
    var x, added := s.campaigns[c], AddDiscovery(s, c, runId);
    DiscoveryIdValid(x, runId);
    DiscoveryAdded(s, c, runId);
    NewPlaceholder(x, runId);
    SameName(x, added.campaigns[c]);
    assert RunMap(added.campaigns[c]) == RunMap(x);
    ReplacedShown(docs, s, c, added.campaigns[c]);
    SameCampaignsShown(docs, s.(campaigns := s.campaigns[c := added.campaigns[c]]), added);
  }

  lemma SameCampaignsShown(docs: Documents, a: State, b: State)
    requires AllShown(docs, a) && a.campaigns == b.campaigns
    ensures AllShown(docs, b)
  {
    hide Shows, DocName, ShowsNothing;
    assert forall name :: Unowned(a, name) <==> Unowned(b, name);
  }

  lemma MaterializedShown(docs: Documents, s: State, m: State, c: string, y: Campaign)
    requires AllShown(docs, s) && Named(s, m) && ValidIds(s) && c in s.campaigns
             && y == s.campaigns[c].(materialized := y.materialized)
    ensures var next := s.(campaigns := s.campaigns[c := y]);
            AllShown(docs, next) && Named(next, m) && ValidIds(next) && DocName(y) == DocName(s.campaigns[c])
  {
    hide AllShown, DocName, IsTaskId;
    SameName(s.campaigns[c], y);
    ReplacedShown(docs, s, c, y);
  }

  lemma DiscoverShown(l: Loop, input: PassInput, m: State, c: string)
    requires l.stop.Running? && LoopShown(l, m, c) && Tidy(m, input)
    requires c in l.memory.campaigns && l.memory.campaigns[c].tasks == map[] && IsSlug(l.memory.campaigns[c].slug)
    ensures LoopShown(Discover(l, input, c), m, c)
  {
    hide AllShown, Named, ValidIds, DocName, SetTask, StateHash, Recorded, IsTaskId, Materialize, AddDiscovery;
    hide DiscoveryTask;
    hide IsSlug, EnsureBlock, DiscoveryId;
    var x := l.memory.campaigns[c];
    NamedOne(l.memory, m, c);
    assert Placed(l.world.docs, x) == l.world.docs;
    AddedShown(l.world.docs, l.memory, m, c, input.runId);
    DiscoveryAdded(l.memory, c, input.runId);
    var added, id, p := AddDiscovery(l.memory, c, input.runId), DiscoveryId(x, input.runId), |l.world.commits|;
    if Materialize(added.campaigns[c]).Some? {
      var y := Materialize(added.campaigns[c]).value;
      MaterializedTasks(added.campaigns[c]);
      MaterializedShown(l.world.docs, added, m, c, y);
      var stored := added.(campaigns := added.campaigns[c := y]);
      DiscoveryIdValid(x, input.runId);
      NewPlaceholder(x, input.runId);
      var blocked := DiscoveryTask(x, input.runId).(status := Blocked, implementationCommit := Some(p));
      SetTaskShown(l.world.docs, stored, m, c, id, blocked, input);
      SameRecorded(l.world.docs, x, y, id, p);
      var memory := SetTask(stored, c, id, blocked);
      SetTaskHolds(stored, c, id, blocked);
      ReceiptShown(Recorded(l.world.docs, x, id, p).value, memory, m, c, id, blocked.(receiptCommit := Some(p + 1)));
    }
  }

  lemma NamedOne(s: State, m: State, c: string)
    requires Named(s, m) && c in s.campaigns
    ensures c in m.campaigns && DocName(s.campaigns[c]) == DocName(m.campaigns[c])
  {
    hide DocName;
  }

  lemma WorkOnShown(l: Loop, input: PassInput, m: State, c: string)
    requires l.stop.Running? && LoopShown(l, m, c) && Tidy(m, input)
    requires c in l.memory.campaigns && IsSlug(l.memory.campaigns[c].slug)
    ensures LoopShown(WorkOn(l, input, c), m, c)
  {
    hide RunTasks, Discover, Tidy, Sorted, IsSlug, AllShown, Named, ValidIds, DocName;
    var ids := SortedKeys(l.memory.campaigns[c].tasks.Keys);
    SortedHeld(l.memory, c);
    if ids == [] {
      assert l.memory.campaigns[c].tasks.Keys == {};
      DiscoverShown(l, input, m, c);
    }
    RunTasksShown(l, input, m, c, ids);
  }

  // ---------------------------------------------------------------- passes and runs

  /** Documents and state file agree. */
  ghost predicate WorldShown(w: World) { ValidIds(w.disk) && AllShown(w.docs, w.disk) }

  lemma NamedItself(s: State)
    ensures Named(s, s)
  {
  }

  lemma StartedShown(w: World, m: State, input: PassInput, previous: StateSha, c: string)
    requires WorldShown(w) && Named(w.disk, m) && AllShown(w.docs, m) && ValidIds(m) && Tidy(m, input)
    requires c in m.campaigns && Materialize(m.campaigns[c]).Some?
    ensures LoopShown(Started(w, m, previous, c), m, c)
  {
    hide AllShown, Tidy, DocName, Materialize, Started, EnsureBlock, Named, ValidIds;
    StartedShape(w, m, previous, c);
    var l := Started(w, m, previous, c);
    NamedItself(m);
    PlacedShown(w.docs, w.disk, m, c, input);
    PlacedShown(w.docs, m, m, c, input);
    MaterializedShown(l.world.docs, m, m, c, l.memory.campaigns[c]);
  }

  lemma SelectedShown(w: World, m: State, input: PassInput, previous: StateSha, c: string)
    requires WorldShown(w) && Named(w.disk, m) && AllShown(w.docs, m) && ValidIds(m) && Tidy(m, input)
    requires c in m.campaigns && IsSlug(m.campaigns[c].slug)
    ensures WorldShown(RunSelected(w, m, input, previous, c).world)
  {
    hide AllShown, Tidy, DocName, Materialize, Started, Placed, Named, ValidIds, WorkOn, WorkTermination, RunSelected;
    hide Finish;
    hide AllSucceeded, IsSlug;
    RunSelectedShape(w, m, input, previous, c);
    if Materialize(m.campaigns[c]).None? {
      PlacedShown(w.docs, w.disk, m, c, input);
    } else {
      StartedShape(w, m, previous, c);
      StartedShown(w, m, input, previous, c);
      var l := Started(w, m, previous, c);
      WorkOnShown(l, input, m, c);
      var worked := WorkOn(l, input, c);
      if !worked.stop.Raised? {
        var y, end := UpdateCompletion(worked.memory.campaigns[c]),
            WorkTermination(worked, input, c, m.campaigns[c].tasks != map[]);
        CompletedShown(worked.world.docs, worked.memory, c, y);
        FinishShown(worked.world, Completing(worked.memory, c), input, worked.previous, end);
      }
    }
  }

  lemma CompletedShown(docs: Documents, s: State, c: string, y: Campaign)
    requires AllShown(docs, s) && ValidIds(s) && c in s.campaigns && y == s.campaigns[c].(status := y.status)
    ensures var next := s.(campaigns := s.campaigns[c := y]); AllShown(docs, next) && ValidIds(next)
  {
    hide AllShown, DocName, IsTaskId;
    SameName(s.campaigns[c], y);
    ReplacedShown(docs, s, c, y);
  }

  lemma FinishShown(w: World, s: State, input: PassInput, previous: StateSha, end: Termination)
    requires AllShown(w.docs, s) && ValidIds(s)
    ensures WorldShown(Finish(w, s, input, previous, end).world)
  {
    hide AllShown, ValidIds, StateHash;
  }

  ghost predicate TidyPass(w: World, input: PassInput) {
    var merged := MergeProposal(w.disk, input.proposal, AuditId(input));
    !input.stagesFail && merged.error.None? ==> Tidy(merged.state, input)
  }

  /** A tidy pass, aborted or not, keeps documents and state file in agreement. */
  lemma PassShown(w: World, input: PassInput)
    requires WellFormed(w.disk) && WorldShown(w) && TidyPass(w, input)
    ensures WorldShown(RunPass(w, input).world)
  {
    hide MergeProposal, Select, RunSelected, WellFormed, StateHash, Eligible, Finish, Extends, AllShown, ValidIds;
    hide Tidy, Named;
    var merged := MergeProposal(w.disk, input.proposal, AuditId(input));
    if !input.stagesFail && merged.error.None? {
      var m := merged.state;
      MergeWellFormed(w.disk, input.proposal, AuditId(input));
      MergeExtends(w.disk, input.proposal, AuditId(input));
      MergeKeepsIds(w.disk, input.proposal, AuditId(input));
      MergedShown(w.docs, w.disk, m, input);
      SelectedEligible(m);
      match Select(m)
      case None =>
        FinishShown(w, m, input, StateHash(w.disk),
                    if merged.campaigns == 0 && merged.tasks == 0 then NoCampaignsProduced else NoEligibleCampaigns);
      case Some(c) =>
        EligibleHeld(m, c);
        SlugOfHeader(m, c);
        SelectedShown(w, m, input, StateHash(w.disk), c);
    }
  }

  lemma SlugOfHeader(s: State, c: string)
    requires WellFormed(s) && c in s.campaigns
    ensures IsSlug(s.campaigns[c].slug)
  {
    assert HeaderMatchesId(c, s.campaigns[c]);
  }

  ghost predicate TidyRun(w: World, inputs: seq<PassInput>)
    requires WellFormed(w.disk)
    decreases |inputs|
  {
    hide RunPass, WellFormed, TidyPass;
    if inputs == [] then true
    else
      PassKeepsWellFormed(w, inputs[0]);
      TidyPass(w, inputs[0]) && TidyRun(RunPass(w, inputs[0]).world, inputs[1..])
  }

  lemma {:induction false} RunShown(w: World, inputs: seq<PassInput>)
    requires WellFormed(w.disk) && WorldShown(w) && TidyRun(w, inputs)
    ensures WorldShown(RunAll(w, inputs))
    decreases |inputs|
  {
    hide RunPass, WellFormed, WorldShown, TidyPass;
    if inputs != [] {
      PassKeepsWellFormed(w, inputs[0]);
      PassShown(w, inputs[0]);
      RunShown(RunPass(w, inputs[0]).world, inputs[1..]);
    }
  }

  /**
   After any tidy run from a new repository, aborted passes included: parsing the block of a campaign's
   document gives, for every task that was run and for no other, the implementation commit the state names.
   */
  lemma BlocksShowCommits(inputs: seq<PassInput>, c: string)
    requires WellFormed(NEW_WORLD.disk) && TidyRun(NEW_WORLD, inputs) && c in RunAll(NEW_WORLD, inputs).disk.campaigns
    ensures var w := RunAll(NEW_WORLD, inputs);
            var x := w.disk.campaigns[c];
            if DocName(x) in w.docs then BlockMap(w.docs[DocName(x)]) == RunMap(x)
            else forall t :: t in x.tasks ==> x.tasks[t].implementationCommit.None?
  {
    hide RunAll, WellFormed, TidyRun, DocName, BlockMap;
    RunShown(NEW_WORLD, inputs);
    var w := RunAll(NEW_WORLD, inputs);
    var x := w.disk.campaigns[c];
    assert Shows(w.docs, x);
    if DocName(x) in w.docs {
      ShownParses(w.docs, x);
    } else {
      NothingRun(x);
    }
  }

  lemma NothingRun(x: Campaign)
    requires RunMap(x) == map[]
    ensures forall t :: t in x.tasks ==> x.tasks[t].implementationCommit.None?
  {
    forall t | t in x.tasks
      ensures x.tasks[t].implementationCommit.None?
    {
      assert t !in RunMap(x);
    }
  }
}
