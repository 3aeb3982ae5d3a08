# Model of the Campaign Runner and its companions

The Campaign Runner (`codex_runner/runner.py`) is a scheduler over a state file. Each pass merges an
untrusted proposal of campaigns into the state, picks one campaign by risk and dependencies, runs its
entries in id order with an implementation commit and a receipt commit each, records every saved state
in a transition log, and keeps a marked block of commit hashes inside the campaign's document. This project
models that pass, over a world made of the state file, the transition log, the list of commits and the
campaign documents, and proves what holds over whole runs. It also models the parts of the repository the runner leans on or that
raise questions of their own: two-phase placeholder replacement, recovery of a payload from provider output,
the settings printer and reader of the terminal interface, the caches and similarity searches of `guardian`,
its agent queue, and its nested configuration.

Code that works by changing things step by step is a method or a class (`Merge.StateStore`,
`CampaignRunning.CampaignRunner`, `MappingBlock.CampaignDocument`, `Placeholders`, `Payload`, `DiskMemo.Memo`,
`LruCache.Cache`, `SemanticCache.Store`, `VectorStore.Store`, `AgentQueue.Redis`, `Settings`,
`Config.ConfigLoader`). Each method is proved equal to a function of its inputs and the old state, and the
properties are proved of those functions. The queue protocol is a state machine whose steps interleave.

## Conventions

- Hashes (`task_hash`, `state_hash`, the discovery placeholder's hash) are free constructors over what they
  cover, so equal hashes mean equal contents. A commit is named by its position in the commit list, and is
  written into a document as that number in decimal.
- A `RunnerError` ends a pass at the point where it is raised; what was saved, logged and committed before
  stays. The agent's work on an entry, the providers, and git are inputs of the pass. What the runner does
  itself is computed: in particular a pass fails on a document exactly where the update of its block does.
  The agent may rewrite campaign documents while it works (`edits` of its outcome).
- Clocks are readings given to each call; `sqrt` is any function that is a square root; numbers that the
  code keeps as floats are reals.
- Texts are sequences of characters; case changes are those of ASCII letters, whitespace is Python's.

## Results that differ from what one might expect

- Normalising a path is not idempotent: `"./ a"` normalises to `" a"`, and `"./C:x"` to `"C:x"`, which is
  then rejected. `Paths.NormalizeStableIff` says exactly which paths are stable, and `Tasks.ReproposalIff`
  which stored entries can be proposed again unchanged.
- The discovery fallback does not refresh the hash its last transition starts from, so a pass that completes
  it always breaks the hash chain, and the chain stays broken (`TransitionLog.RunLinkedIff`,
  `Witnesses.FallbackBreaksChain`). The input decides whether a pass does (`Fallback.PassEndsIff`).
- The fallback overwrites two index entries without looking. It keeps the indexes in agreement with the
  campaigns exactly when those entries belong to nobody else (`IndexRuns.DiscoveryKeepsIndexesIff`,
  `IndexRuns.RunKeepsIndexesIff`, `Witnesses.FallbackBreaksIndexes`).
- A retry keeps the receipt of the attempt before it until the state is saved again after the new receipt is
  committed. If the retry succeeds and no such save follows, the state on disk shows a success beside a receipt
  of an older attempt. That happens when committing the receipt fails, and also when the receipt is committed
  and the next entry fails before it saves (`Receipts.RunPairedIff`, `Witnesses.ReceiptGoesStale` for both).
  Each record still names commits of its own entry (`CommitRecords.RunSound`).
- A start marker without an end marker makes the next update of the mapping block swallow all text after it
  (`MappingLaws.StrayStartSwallows`); an end marker with no start marker before it makes every update fail
  (`MappingLaws.UpdateRefusedIff`).
- Progress needs more than present, acyclic dependencies. A campaign with two entries whose slugs lead to one
  file name, as `a_b` and `a__b` do, aborts every pass that selects it. So does a campaign whose document has an
  end marker with no start marker before it, for instance because its markdown has one: the agent's work is
  committed, then recording it fails, and the next pass starts over. Repeating such a pass any number of times
  changes neither state nor log (`Progress.SelectedCompletesIff`, `Progress.StallsForever`,
  `Witnesses.FilesCollide`, `Witnesses.DocumentRefuses`). With acyclic dependencies and entries everywhere,
  productive passes complete all campaigns exactly when none is of this kind (`Progress.PassesCompleteIff`).
- That theorem needs that open campaigns of one document agree on whether its text can be updated: slugs such
  as `a_b` and `a__b` lead to one document, and whichever campaign is worked on first decides for both
  (`Witnesses.SharedDocument`).
- Selecting a payload by score does not always take the candidate with more of the required keys: an incomplete
  one that has one key more, no hint and the marks of an envelope loses to one with all three hints and no such
  mark (`PayloadLaws.ScoresHigherIff`).
- A producer's late "queued" can be the last status of a finished entry (`AgentQueueLaws.FinishedReadsQueued`).
- Printed settings read back unchanged only for the settings `SettingsLaws.RoundTripIff` describes: reading
  ignores `--auto-commit`, skips empty values, and never turns a switch off that the printer leaves out.
- A merge may add pending entries to a completed campaign, which then stays completed and is never worked on
  again, so "completed" does not imply that everything in the campaign succeeded
  (`LateTask.CompletedWithUnfinished`). It does imply it exactly as long as no pass that saves has merged an
  entry into a completed campaign (`Wholeness.RunWholeIff`).
- The name "LRU" notwithstanding, a hit does not refresh an entry: the in-memory cache keeps the keys that
  were computed last.

## Files

| files | subject |
|---|---|
| `Wrappers`, `Collections`, `Text`, `Search`, `Json`, `Decimal` | shared vocabulary: outcomes, sequences and sets, Python strings, substring search, decoded JSON, integers as text |
| `Paths`, `Tasks`, `Campaigns`, `NameLaws` | normal forms, hashes, ids, the persistent state, file names |
| `Merge`, `MergeLaws`, `Confluence`, `IndexLaws`, `Readings` | merging proposals, and what the raw entries say |
| `Selection`, `OrderWitness` | choosing the next campaign |
| `Runner`, `RunnerClass`, `RunSafety`, `Fallback`, `TransitionLog`, `Frontier`, `IndexRuns` | one pass and runs of passes |
| `PassEffects`, `FallbackEffects`, `DocumentEffects` | what a pass leaves behind, told from what it is given |
| `Attempts`, `CommitRecords`, `Receipts`, `Settled` | what the state file and the commits say about each other |
| `DocumentLaws`, `BlockRecords` | what the documents and the state file say about each other |
| `Progress`, `Wholeness` | when campaigns get completed, and what "completed" implies |
| `Witnesses`, `LateTask` | runs from the empty world in which something goes wrong |
| `MappingBlock`, `MappingLaws`, `LineLaws` | the marked block of commit hashes |
| `Placeholders`, `PlaceholderLaws`, `PlaceholderTotal`, `PromptTokens` | placeholder replacement |
| `Payload`, `PayloadLaws` | payload recovery |
| `Settings`, `SettingsLaws` | arguments printed and read back |
| `DiskMemo`, `LruCache` | the two expiring caches |
| `Vectors`, `SemanticCache`, `SemanticLaws`, `TermLaws`, `ScoreLaws`, `VectorStore`, `VectorStoreLaws` | similarity searches |
| `AgentQueue`, `AgentQueueLaws` | the queue protocol |
| `Config`, `ConfigLaws` | nested configuration |

## Model

| member | source | states |
|---|---|---|
| `Paths.NormalizedIsPlain` | codex_runner/runner.py:453-472 | an accepted path is relative, never goes through "..", and has only plain components |
| `Paths.NormalizeAcceptsIff` | codex_runner/runner.py:453-472 | a path is accepted exactly when, turned and stripped, it starts with neither a slash nor a drive, has no part ".." and has a part that is a name |
| `Paths.NormalizedKeepsNames` | codex_runner/runner.py:453-472 | the components of the normal form are the parts of the given path that are neither empty nor ".", all of them, in their order |
| `Paths.SlashesTurned` | codex_runner/runner.py:453-454 | turning backslashes changes these characters, in place, and nothing else |
| `Paths.NormalizeStableIff` | codex_runner/runner.py:453-472 | normalising an accepted path again gives it back exactly when it is trimmed and does not look like a drive |
| `Paths.NormalizationCanMove` | codex_runner/runner.py:453-472 | a family of accepted paths whose normal form normalises to something else |
| `Paths.NormalizationCanReject` | codex_runner/runner.py:453-472 | a family of accepted paths whose normal form is rejected |
| `Tasks.NormalizedTaskValid` | codex_runner/runner.py:475-542 | every normalised entry has the shape the rest of the runner relies on |
| `Tasks.ReproposalIff` | codex_runner/runner.py:475-560 | proposing a stored entry again field by field gives the same content, hence hash, exactly when its paths are stable |
| `Readings.TaskReadsIff` | codex_runner/runner.py:475-542 | normalising an entry gives some content exactly when the entry says so field by field: which fields must be there, how each is converted and stripped, which risks and lanes there are |
| `Campaigns.CampaignIdRoundTrip` | codex_runner/runner.py:563-569 | a campaign id and its date, slug and sequence number determine each other |
| `Campaigns.SlugKeyInjective` | codex_runner/runner.py:46-50 | a slug-index key of two valid slugs determines both, because no slug holds a colon |
| `Campaigns.SlugKeyReads` | codex_runner/runner.py:762 | the campaign's slug stands before the two colons of a key and the task's after them |
| `Readings.AcceptedIff` | codex_runner/runner.py:646-678 | a campaign entry is decoded exactly when id and slug agree with a well formed id, every dependency that is not blank is a campaign id, and it has tasks or a reason that is not blank |
| `Text.StripIff` | codex_runner/runner.py:646-663 | the stripped text is the part without whitespace at its ends that has nothing but whitespace around it |
| `Json.QuotedReadsBack` | codex_runner/runner.py:659-663 | a text printed inside a value that should be none, such as a list, ends at its closing quote and reads back as the text |
| `Json.StrPlain` | codex_runner/runner.py:659-663 | how values without parts print |
| `Json.StrParts` | codex_runner/runner.py:659-663 | how lists and objects print, from how their parts do |
| `Merge.StateStore.MergeCampaignSet` | codex_runner/runner.py:625-797 | the nested loops over campaigns and entries, in place, leave the specified state and counts, or the specified error and the state reached before it |
| `Merge.StateStore.AdmitCampaign` | codex_runner/runner.py:680-731 | creating a campaign or checking that a proposal repeats it |
| `Merge.StateStore.StoreTask` | codex_runner/runner.py:755-795 | checking one entry against both indexes and the campaign, storing and indexing it |
| `Readings.MergeStoresEntries` | codex_runner/runner.py:646-795 | after a successful merge each raw entry is stored as it says: the campaign under its stripped id has its slug, date, number, markdown, reason and audit, its dependencies are the items that are not blank, stripped, in order, and it holds each task the entry lists |
| `Readings.NewTaskIsAsSaid` | codex_runner/runner.py:755-795 | a task the merge adds has the content its entry says, the hash of that content, and is pending without commits or result |
| `Readings.MergeAddsOnlyProposed` | codex_runner/runner.py:646-795 | no campaign and no task is added that no entry names |
| `Readings.BadDependencyFails` | codex_runner/runner.py:654-664 | a merge fails if any entry names a dependency that is not blank and no campaign id |
| `MergeLaws.MergeReplays` | codex_runner/runner.py:625-797 | a merge succeeds exactly when the flat list of its steps can be replayed, with the same state |
| `MergeLaws.ApplyIff` | codex_runner/runner.py:680-795 | a step succeeds exactly when its answers agree with what the state already knows |
| `MergeLaws.ApplyKnown` | codex_runner/runner.py:680-795 | after a step the state knows what it knew and what the step claims, nothing else |
| `Confluence.MergeConfluent` | codex_runner/runner.py:625-797 | two proposals merge in one order exactly when they do in the other, to states that agree on every campaign, status and hash |
| `Confluence.MergeExtends` | codex_runner/runner.py:680-795 | a successful merge changes and removes nothing; what it adds is open and pending |
| `Confluence.MergeWellFormed` | codex_runner/runner.py:625-797 | a merge keeps dictionary order and campaign headers consistent with the ids |
| `IndexLaws.MergeKeepsIndexes` | codex_runner/runner.py:755-795 | every merge keeps both indexes and the campaigns in agreement, both ways |
| `IndexLaws.EqualIdsEqualHashes` | codex_runner/runner.py:755-795 | equal ids carry equal hashes, whichever campaigns hold them |
| `IndexLaws.MergeSucceedsIff` | codex_runner/runner.py:625-797 | a merge succeeds exactly when the proposal is well formed and no two answers to one question differ |
| `Readings.MergeSucceedsReadable` | codex_runner/runner.py:625-797 | the same with well-formedness told on the raw entries: each is acceptable, its tasks can be read, and their ids and slugs differ |
| `IndexLaws.MergeCountsExact` | codex_runner/runner.py:635-797 | the returned counts are the exact growth in campaigns and in entries held |
| `IndexLaws.MergeIdempotent` | codex_runner/runner.py:625-797 | merging the same proposal again succeeds, adds nothing and leaves the state as it is |
| `Selection.SelectIsFirstLeast` | codex_runner/runner.py:838-862 | the choice is eligible, has the least key and was inserted first among equals; there is none exactly when nothing is eligible |
| `Selection.SelectedRanksFirst` | codex_runner/runner.py:807-862 | against every open campaign whose dependencies are all completed, the one selected has at least as many unfinished high-risk tasks; on equal counts an earlier date, then an earlier slug, then an earlier insertion; and if there is such a campaign one is selected |
| `OrderWitness.DependencyKeepsBack` | codex_runner/runner.py:654-664 | a dependency proposed with a blank before it is stored without, and the earlier campaign waits while the later one, on which it depends, is selected |
| `OrderWitness.RiskComesFirst` | codex_runner/runner.py:838-862 | of two campaigns that can run, the one with the later date is selected for its high-risk task |
| `Selection.SelectIgnoresProvenance` | codex_runner/runner.py:800-862 | states that agree but for provenance select the same campaign when dates and slugs tell campaigns apart |
| `Selection.MergeOrderSelectsSame` | codex_runner/runner.py:625-862 | merging two proposals in either order leads to the same next campaign |
| `CampaignRunning.CampaignRunner.Pass` | codex_runner/runner.py:2015-2475 | one whole pass, step by step over state file, log, commits and campaign documents, is the specified pass |
| `CampaignRunning.CampaignRunner.RunCampaign` | codex_runner/runner.py:2195-2475 | materialising, working on and closing the selected campaign |
| `CampaignRunning.CampaignRunner.ExecuteTasks` | codex_runner/runner.py:2330-2432 | the loop over one campaign's sorted ids, with its early exits; a document that refuses the entry's commit ends it after the implementation commit |
| `CampaignRunning.CampaignRunner.RunDiscovery` | codex_runner/runner.py:2213-2325 | the discovery fallback, with the same error of the document; `FallbackEffects.FallbackLeaves` says what it leaves |
| `CampaignRunning.CampaignRunner.MaterializeArtifacts` | codex_runner/runner.py:1152-1218 | writing the campaign's document with its block unless it is there, naming a file for every entry in id order, refusing exactly the campaigns with two entries for one file |
| `CampaignRunning.CampaignRunner.RecordCommit` | codex_runner/runner.py:2386-2390 | recording a commit rewrites the campaign's document alone, or fails and leaves every document as it was |
| `PassEffects.PassSpelled` | codex_runner/runner.py:2015-2475 | how every pass ends, and which reasons it logs in order, told from the world and the input before it: receipts of the unfinished entries that save, the placeholder, the end |
| `PassEffects.RunsThroughIff` | codex_runner/runner.py:2330-2432 | the loop ends without a stop exactly when every unfinished entry succeeds |
| `PassEffects.StopsIff` | codex_runner/runner.py:2330-2432 | it stops at an entry with a status exactly when all before it succeed and that one is saved and finished with this status, which is not success |
| `PassEffects.PassCommitsSpelled` | codex_runner/runner.py:2015-2475 | which commits every pass adds, in order, told from the world and the input before it |
| `PassEffects.PassReports` | codex_runner/runner.py:2336-2424 | each record a pass changes had not succeeded before and reports what that entry's agent did: status, result and an implementation commit; its content stays |
| `PassEffects.PassNames` | codex_runner/runner.py:1152-1218 | a pass that saves leaves on record the name of the campaign's document and of each entry's file |
| `PassEffects.AuditNamesRun` | codex_runner/runner.py:1887-1894 | outside fixture mode the audit is "AUDIT_" and the run's id; in fixture mode the run's id is the audit's without that prefix |
| `DocumentEffects.IdlePassKeepsDocuments` | codex_runner/runner.py:2015-2197 | a pass that selects no campaign leaves every document as it was |
| `DocumentEffects.PassKeepsOthers` | codex_runner/runner.py:1152-1218 | in any other pass the documents of other campaigns are changed by agents only |
| `DocumentEffects.PassKeepsFrame` | codex_runner/runner.py:1123-1218 | a pass, aborted or not, keeps the text on both sides of the block of the selected campaign's document; a document it creates has the campaign's markdown before the block |
| `NameLaws.CollideIff` | codex_runner/runner.py:1152-1218 | two entries of a campaign would share a file exactly when their slugs are the same words between underscores, "task" standing for none |
| `NameLaws.SameDocumentIff` | codex_runner/runner.py:1152-1168 | two campaigns share a document exactly when they have the same date, number and words of their slugs, "campaign" standing for none |
| `NameLaws.NamesSpelled` | codex_runner/runner.py:1152-1218 | how the names of a campaign's document and of an entry's file are made from date, number and the words of the slugs |
| `NameLaws.MaterializesAs` | codex_runner/runner.py:1152-1218 | materialising fails exactly on two entries for one file; else it records the document and a file for every entry, forgets no file and changes nothing else |
| `RunSafety.PassGrows` | codex_runner/runner.py:2015-2475 | a pass, aborted or not, loses no campaign, no finished record and no completion |
| `RunSafety.PassOrder` | codex_runner/runner.py:807-862 | a pass extends any numbering of the completed campaigns with dependencies first by at most one |
| `RunSafety.RunGrows` | codex_runner/runner.py:2713-2741 | over any run nothing recorded is lost |
| `RunSafety.RunSafe` | codex_runner/runner.py:2713-2741 | over any run completion is permanent and the completed campaigns stay numbered with dependencies first |
| `RunSafety.DeadEndNotCompleted` | codex_runner/runner.py:807-825 | a campaign on, or leading to, a dependency cycle or a missing dependency is never completed |
| `RunSafety.DeadEndNotEligible` | codex_runner/runner.py:807-862 | nor is it eligible |
| `RunSafety.BlockedNotCompleted` | codex_runner/runner.py:2713-2741 | in every state reached from nothing such a campaign is not completed |
| `RunSafety.BlockedStaysBlocked` | codex_runner/runner.py:2713-2741 | whatever is merged into a state reached from nothing, a pass does not select a campaign that then leads to a cycle or a missing dependency |
| `Fallback.PassEndsIff` | codex_runner/runner.py:2213-2325 | a pass ends blocked for review exactly when its stages succeed, the merge succeeds, the campaign selected is without entries, the fallback is allowed, its document can be updated and the agent finishes |
| `FallbackEffects.FallbackLeaves` | codex_runner/runner.py:2213-2325 | a fallback that saves leaves the selected campaign open on disk with one task, blocked, that names the implementation committed by this pass and, if it finishes, its receipt; no campaign that depends on it can run, and all others are as merged |
| `TransitionLog.PassLinksIff` | codex_runner/runner.py:598-622 | a pass keeps the log a hash chain ending at the state on disk exactly when its input does not make it complete the fallback; the last entry is right in any case |
| `TransitionLog.RunLinkedIff` | codex_runner/runner.py:598-622 | the same over any run: linked exactly when no pass is given such an input |
| `TransitionLog.RunLastPost` | codex_runner/runner.py:598-622 | over any run the last entry names the state on disk |
| `TransitionLog.SameHashIff` | codex_runner/runner.py:594-595 | states have the same hash exactly when they differ at most in the order of their dictionaries |
| `TransitionLog.PassAppends` | codex_runner/runner.py:598-618 | log entries and commits are only ever added at the end |
| `TransitionLog.BrokenStaysBroken` | codex_runner/runner.py:2292-2300 | a chain broken once stays broken |
| `Frontier.RunTasksFrontier` | codex_runner/runner.py:2330-2432 | the loop leaves a clean frontier: successes before it, untouched after it, one adjacent pair of commits per entry run |
| `Frontier.PassFrontier` | codex_runner/runner.py:2330-2475 | a pass that is not aborted leaves that frontier on disk and completes the campaign exactly when the frontier is at the end |
| `CommitRecords.PassSound` | codex_runner/runner.py:2330-2442 | a pass, aborted or not, keeps every record about commits of its own entry |
| `CommitRecords.RunSound` | codex_runner/runner.py:2713-2741 | over any run each entry that was run names its own implementation commit, and a receipt it names is its own and comes right after an implementation of its own |
| `Attempts.AttemptEffect` | codex_runner/runner.py:2336-2424 | whether an attempt saves, and how the loop goes on, is decided by its outcome, the text the agent leaves in the document and the text there before |
| `Receipts.PassPairedIff` | codex_runner/runner.py:2330-2424 | a pass keeps every success on disk beside its own receipt unless, after successes only, the next attempt either saves a success over an older receipt and fails to commit the new one, or fails before saving while the success before it had an older receipt; a condition on the input alone |
| `Receipts.RunPairedIff` | codex_runner/runner.py:2713-2741 | the same over any run: exactly when no pass is given such an input |
| `Settled.PassSparesSettled` | codex_runner/runner.py:2330-2335 | a pass commits nothing for an entry that reads "success" on disk, or whose campaign is completed |
| `Settled.RunSparesSettled` | codex_runner/runner.py:2713-2741 | nor does any later pass of any run, and what is settled stays settled |
| `Wholeness.PassSavesIff` | codex_runner/runner.py:2015-2455 | which inputs get a pass as far as saving the state, and what it then leaves; any other pass leaves the state file alone |
| `Wholeness.RunLeavesCompleted` | codex_runner/runner.py:807-814 | over any run each record of a completed campaign stays as it is and an entry merged into it stays pending |
| `Wholeness.PassWholeIff` | codex_runner/runner.py:800-805 | through a pass "completed" goes on implying that all entries succeeded exactly when the pass does not save a merge that adds an entry to a completed campaign |
| `Wholeness.RunWholeIff` | codex_runner/runner.py:2713-2741 | the same over any run: what is spoiled once is never repaired |
| `BlockRecords.MergeKeepsIds` | codex_runner/runner.py:475-542 | whatever is proposed, every stored entry id is well formed |
| `BlockRecords.PassShown` | codex_runner/runner.py:2330-2442 | a pass, aborted or not, keeps every block in agreement with the state file, if the agent leaves the documents alone, no markdown holds a marker and no two campaigns share a document |
| `BlockRecords.BlocksShowCommits` | codex_runner/runner.py:2713-2741 | after any such run, parsing the block of a campaign's document gives exactly the implementation commits the state file names for its entries |
| `DocumentLaws.UpdateSucceedsIff` | codex_runner/runner.py:1123-1135 | recording in a document succeeds exactly when its first end marker, if any, has a start marker before it |
| `DocumentLaws.UpdatedUpdatable` | codex_runner/runner.py:1123-1149 | a document recorded in once can be recorded in again |
| `Progress.SelectNoneIff` | codex_runner/runner.py:838-862 | with acyclic, present dependencies nothing is selected exactly when nothing is open |
| `Progress.ProductivePass` | codex_runner/runner.py:2015-2475 | with acyclic dependencies, entries in every open campaign and agreement on shared documents, a pass with a succeeding agent completes the open campaign it selects if that can be completed, otherwise none, and changes no other campaign's chances |
| `Progress.PassesComplete` | codex_runner/runner.py:2735-2741 | such passes never complete a campaign that cannot be completed; if there is none, each completes one more until none is open |
| `Progress.PassesCompleteIff` | codex_runner/runner.py:2735-2741 | given as many such passes as open campaigns, all are completed exactly when each open one can be: no two entries for one file and, unless all have succeeded, a document that can be updated |
| `Progress.SelectedCompletesIff` | codex_runner/runner.py:2210-2475 | with a succeeding agent the selected campaign is completed exactly when no two of its entries would be written to one file and, unless all have succeeded already, its document can be recorded in; otherwise state and log stay, and in the second case the implementation commit of the first unfinished entry is left behind |
| `Progress.StallsAgain` | codex_runner/runner.py:2015-2475 | an input on which a pass stalls stalls again in the world it leaves |
| `Progress.StallsForever` | codex_runner/runner.py:2713-2741 | so any number of repetitions leaves state and log as they are, and each is aborted |
| `Progress.StalledRun` | codex_runner/runner.py:2713-2741 | as long as each pass fails early, fails to merge or selects such a campaign, no number of passes changes state or log |
| `IndexRuns.DiscoveryKeepsIndexesIff` | codex_runner/runner.py:2240-2251 | the fallback keeps the indexes exactly when its entries belong to nobody else |
| `IndexRuns.DiscoveryCanBreakIndexes` | codex_runner/runner.py:2240-2251 | another campaign of the same slug with an entry "discovery" loses its index entry |
| `IndexRuns.PassKeepsIndexesIff` | codex_runner/runner.py:2015-2475 | any pass keeps the indexes in agreement with the campaigns exactly when it does not save a fallback entry whose index keys belong to somebody else, which its input decides |
| `IndexRuns.RunKeepsIndexesIff` | codex_runner/runner.py:2713-2741 | over any run the indexes agree at the end exactly when no pass saved such an entry: what is spoiled once is not repaired |
| `Witnesses.FilesCollide` | codex_runner/runner.py:1152-1218 | from the empty state, a proposal with slugs "a_b" and "a__b" is accepted, and every one of any number of passes on it aborts with a succeeding agent |
| `Witnesses.DocumentRefuses` | codex_runner/runner.py:1123-1149 | from the empty state, a proposal with an end marker in its markdown makes a pass commit the agent's work, and every one of any number of passes abort with the state empty |
| `Witnesses.SharedDocument` | codex_runner/runner.py:1158-1168 | two campaigns with different ids and one document, of which the second can be completed only once the first one's document is there |
| `Witnesses.FallbackBreaksChain` | codex_runner/runner.py:2292-2300 | from the empty state, one pass that completes the fallback leaves a broken chain |
| `Witnesses.FallbackBreaksIndexes` | codex_runner/runner.py:2240-2251 | from the empty state, one pass with the fallback leaves indexes that disagree with the campaigns |
| `Witnesses.ReceiptGoesStale` | codex_runner/runner.py:2374-2420 | from the empty state, two passes lead to a success that names the receipt of the failed attempt before it, both when its own receipt fails and when it is committed and the next entry fails |
| `LateTask.CompletedWithUnfinished` | codex_runner/runner.py:755-795 | from the empty state, one pass completes a campaign with "x", the next merges "y" into it: it stays completed with "y" pending, whatever passes follow |
| `MappingBlock.CampaignDocument.ParseEntries` | codex_runner/runner.py:1105-1120 | the loop over the block's lines, later lines overriding earlier ones |
| `MappingBlock.CampaignDocument.UpdateMapping` | codex_runner/runner.py:1123-1149 | one update of the document, or the error with the document unchanged |
| `MappingLaws.LineRoundTrip` | codex_runner/runner.py:1105-1149 | a printed entry line parses to the entry |
| `LineLaws.ParseLineIff` | codex_runner/runner.py:1108-1119 | a line is read as an entry exactly when, stripped, it is a key without whitespace, an arrow and two parts in brackets, with any whitespace around arrow and parts; of several keys it may be read with, the longest |
| `LineLaws.LinesConcat` | codex_runner/runner.py:1107 | a line break ends one line and starts the next |
| `LineLaws.EntriesAre` | codex_runner/runner.py:1105-1120 | whatever the block, it holds an entry for a key exactly when the last line that is an entry for this key has these hashes |
| `MappingLaws.BlockRoundTrip` | codex_runner/runner.py:1105-1149 | parsing a printed block gives exactly the map it was printed from |
| `MappingLaws.BlockLines` | codex_runner/runner.py:1137-1149 | between its first and last newline the block has one line per entry, `id -> [implementation, receipt]`, in increasing order of id |
| `MappingLaws.DocumentRefinesMap` | codex_runner/runner.py:1123-1149 | after any updates of a document without markers the block parses to the last-write-wins map and the text around it is what it was |
| `MappingLaws.UpdateManaged` | codex_runner/runner.py:1123-1149 | an update records its pair, keeps all others and the text on both sides |
| `MappingLaws.FirstUpdate` | codex_runner/runner.py:876-880 | the first update appends the block, dropping trailing whitespace |
| `MappingLaws.UpdateTwice` | codex_runner/runner.py:1123-1149 | repeating an update changes nothing |
| `MappingLaws.UpdateRefusedIff` | codex_runner/runner.py:876-880 | an update fails exactly when the first end marker has no start marker before it |
| `MappingLaws.StrayStartSwallows` | codex_runner/runner.py:876-880 | with a start marker only, all text after it is replaced except what parses as an entry |
| `Placeholders.ReplaceTemplatePlaceholders` | codex_runner/runner.py:117-139 | the two loops over tokens and sentinels compute the two-phase replacement wherever every search for a sentinel ends |
| `Placeholders.SearchSentinel` | codex_runner/runner.py:127-133 | the rehashing loop ends at the first sentinel that occurs nowhere, if there is one |
| `PlaceholderLaws.TwoPhaseIsOneShot` | codex_runner/runner.py:117-139 | two-phase replacement is simultaneous substitution, whatever the values contain, unless the reserved word is in the intended result |
| `PlaceholderLaws.HideIs` | codex_runner/runner.py:124-135 | the first phase replaces exactly the tokens of the template |
| `PlaceholderLaws.ReplaceSentinel` | codex_runner/runner.py:137-138 | replacing one sentinel replaces exactly its own occurrences |
| `PlaceholderTotal.FirstIsFresh` | codex_runner/runner.py:127-133 | when no text involved holds the reserved word, the first sentinel tried is fresh |
| `PlaceholderTotal.ReplacementIsSubstitution` | codex_runner/runner.py:117-139 | with the reserved word in neither template, values nor intended result, every search ends and replacement gives the simultaneous substitution |
| `PromptTokens.PromptTokensAreGood` | codex_runner/runner.py:1262-1301 | the token lists of both prompts meet the theorem's conditions |
| `PromptTokens.SearchEnds` | codex_runner/runner.py:129-133 | if the seeds tried differ, the search ends after at most as many rehashes as text and values have characters |
| `Payload.CandidatePayloadDicts` | codex_runner/runner.py:1346-1378 | the queue loop ends and collects the specified objects in order |
| `PayloadLaws.WalkIsReach` | codex_runner/runner.py:1346-1378 | the candidates are exactly the objects within reach, where reach is the value itself, an item of a list in reach, the value an object in reach holds under one of the six wrapper keys, and the value decoded from a text in reach that starts with a brace or bracket once stripped |
| `PayloadLaws.NearerComesFirst` | codex_runner/runner.py:1346-1378 | candidates come in order of distance, and each object is collected at its least distance or nearer |
| `PayloadLaws.CompleteOutscores` | codex_runner/runner.py:1388-1400 | an object with all required keys outscores any without, however many are required |
| `PayloadLaws.ScoresHigherIff` | codex_runner/runner.py:1388-1400 | which of two candidates scores higher, without the numbers: complete before incomplete, then more required keys, then more hints, then not looking like an envelope; one key more loses only in the one case where three hints and an envelope outweigh it |
| `PayloadLaws.BestIsFirstBest` | codex_runner/runner.py:1401 | the choice is the first candidate of highest score |
| `PayloadLaws.SelectedIsFirstPreferred` | codex_runner/runner.py:1381-1408 | the payload selected is the first candidate to which none is preferred, in the order above; the error names exactly the required keys that one lacks |
| `PayloadLaws.SelectionFailsIff` | codex_runner/runner.py:1381-1408 | keys are reported missing exactly when no candidate has them all |
| `PayloadLaws.MissingAreMissing` | codex_runner/runner.py:1402-1407 | the error names, sorted, exactly the keys the chosen object lacks |
| `PayloadLaws.RecoverySucceedsIff` | codex_runner/runner.py:1346-1408 | recovery succeeds exactly when some object within reach, as above, has all required keys |
| `DiskMemo.Memo.Invoke` | guardian/cache.py:75-106 | a call scans the log and appends exactly on a miss |
| `DiskMemo.ScanFindsNewest` | guardian/cache.py:85-97 | the first live line found is also the newest line for its key |
| `DiskMemo.CallKeepsSpacing` | guardian/cache.py:85-104 | a call keeps any two lines for one key at least `expire` apart |
| `DiskMemo.RunSpaced` | guardian/cache.py:75-106 | so does every sequence of calls |
| `DiskMemo.ReturnedIsRecent` | guardian/cache.py:85-106 | what a call returns was computed for its key less than `expire` ago |
| `LruCache.Cache.Invoke` | guardian/cache.py:128-165 | a call returns the stored value exactly if it is younger than `expire`, and then changes nothing; else it runs the function and stores the result last: every other key keeps its cell, none is dropped while there is room, one that is dropped is no younger than any that stays; the stored keys are the last `maxsize` by last computation |
| `LruCache.Cache.EvictOldest` | guardian/cache.py:157-161 | the key removed is the one computed longest ago |
| `LruCache.Moved` | guardian/cache.py:140-161 | recomputing a key moves it to the end, and only the first key can drop out |
| `LruCache.ByLastOrdered` | guardian/cache.py:155-161 | keys computed later carry stamps that are no smaller |
| `Vectors.UnitDot` | guardian/cache.py:173-191 | Cauchy-Schwarz for unit vectors, with equality exactly for equal vectors |
| `SemanticCache.Store.Embed` | guardian/cache.py:173-180 | the counting loop computes the normalised word counts |
| `SemanticCache.Store.Query` | guardian/cache.py:183-197 | the scan returns the first entry of highest positive score if it reaches the threshold |
| `TermLaws.TermsConcat` | guardian/cache.py:173-180 | the words of two texts with whitespace between them are those of the first and then those of the second |
| `TermLaws.TermsOfWord` | guardian/cache.py:173-180 | a text without whitespace is one word if it is letters only, taken in lower case, and none otherwise |
| `TermLaws.LowerAt` | guardian/cache.py:174-176 | lower case is taken letter by letter, of the letters of ASCII |
| `TermLaws.CaseIgnored` | guardian/cache.py:173-180 | texts that differ only in the case of letters have the same words |
| `TermLaws.SpacingIgnored` | guardian/cache.py:173-180 | the amount and kind of whitespace between two parts of a text does not matter |
| `TermLaws.SameTermsSameAnswer` | guardian/cache.py:173-204 | texts that differ only in this have the same embedding, and every query gets the same answer |
| `ScoreLaws.ScoreIs` | guardian/cache.py:183-191 | the score of two texts with words is the number of pairs of equal words, one from each, over the roots of each text's own number of such pairs |
| `ScoreLaws.LookupFindsFirst` | guardian/cache.py:183-204 | a lookup gives the first entry of highest score if that is positive and reaches the threshold, and nothing exactly when no entry's is |
| `SemanticLaws.ScoreRange` | guardian/cache.py:183-191 | every score lies between 0 and 1 |
| `SemanticLaws.EmbeddedIsUnit` | guardian/cache.py:173-180 | the embedding of a text with words has length 1 |
| `SemanticLaws.SameIffProportional` | guardian/cache.py:173-180 | two embeddings are equal exactly when the word counts are proportional |
| `SemanticLaws.StoredIsFound` | guardian/cache.py:183-204 | a lookup gives the result of the earliest stored text with proportional counts |
| `SemanticLaws.PutThenQuery` | guardian/cache.py:183-204 | after any stores, querying a stored text that has words, with a threshold of at most 1, gives the result of the earliest store with proportional counts |
| `VectorStore.Store.Search` | guardian/vector_store.py:43-60 | the results are the head of the stable descending ranking |
| `VectorStoreLaws.CosineIs` | guardian/vector_store.py:15-23 | the score is 0 for empty lists, zero lists and lists of different length, and the one of the law of cosines otherwise, told from the distance and the lengths |
| `VectorStoreLaws.LengthIsDistance` | guardian/vector_store.py:19-20 | the length of a list is its distance from zero |
| `VectorStoreLaws.NearerScoresHigher` | guardian/vector_store.py:15-23 | of two entries that are equally long, the one nearer to the query scores higher |
| `VectorStoreLaws.CosineRange` | guardian/vector_store.py:15-23 | every score lies between -1 and 1, and is 1 exactly for parallel lists that are not zero |
| `VectorStoreLaws.RankedIsStable` | guardian/vector_store.py:50 | the ranking is descending and keeps entries of equal score in order |
| `VectorStoreLaws.ParallelComesFirst` | guardian/vector_store.py:43-60 | the earliest entry parallel to the query comes first, with score 1 |
| `VectorStoreLaws.RankedScores` | guardian/vector_store.py:43-60 | what is ranked is a stored entry, scoring 1 exactly when it is parallel to the query |
| `VectorStoreLaws.NeverOutranked` | guardian/vector_store.py:43-60 | only parallel entries are ranked above an entry parallel to the query |
| `AgentQueue.Redis.EnqueueAgentTask` | guardian/agent_task_queue.py:30-69 | the task is pushed at the end of the queue and its status becomes "queued" unless that write is refused; the tables go through pushed without status to both written, in this order |
| `AgentQueue.Redis.WorkOnce` | scripts/agent_task_worker.py:155-206 | one turn takes the first task, stores under its id the text the agent gave with that task's thread and agent, and leaves the status of how it ended, changing no other answer or status; the tables go through taken, running, answered and closed, in this order |
| `AgentQueueLaws.EnqueueRuns` | guardian/agent_task_queue.py:48-61 | the producer's call is a run of the state machine, through the same tables |
| `AgentQueueLaws.TurnRuns` | scripts/agent_task_worker.py:155-206 | so is the worker's turn, whichever way it ends |
| `AgentQueueLaws.RunInvariant` | scripts/agent_task_worker.py:155-206 | every interleaving of producers and workers keeps the invariant |
| `AgentQueueLaws.ExactlyOnePlace` | scripts/agent_task_worker.py:155-206 | every pushed entry is in exactly one place, once: queued, held by one worker, finished or failed |
| `AgentQueueLaws.TakenInOrder` | guardian/agent_task_queue.py:72-85 | entries are taken in the order they were pushed and never twice |
| `AgentQueueLaws.CompletedHasResult` | scripts/agent_task_worker.py:183-197 | status "completed" means a stored result with that entry's own thread |
| `AgentQueueLaws.AnswerIsLastStored` | scripts/agent_task_worker.py:183-197 | over any run the answer under an id has the text of the last store for it that took effect, and there is one exactly if some did |
| `AgentQueueLaws.StatusFallsIff` | guardian/agent_task_queue.py:109-136 | a status goes back exactly by a producer's late write or an expiry |
| `AgentQueueLaws.FinishedReadsQueued` | guardian/agent_task_queue.py:58-61 | a run after which a finished entry reads "queued" |
| `Settings.ToCliArgs` | codex_runner/tui_state.py:346-404 | the appends print the specified arguments |
| `Settings.ApplyInitialOverrides` | codex_runner/tui_app.py:690-798 | the loop that advances by one or two reads the arguments as specified |
| `SettingsLaws.ReadPair` | codex_runner/tui_app.py:695-732 | a value is taken whole, even if it looks like a flag, and an empty one is passed over |
| `SettingsLaws.ReadBack` | codex_runner/tui_app.py:690-793 | reading printed settings gives, field by field, the printed value or the starting one |
| `SettingsLaws.RoundTripIff` | codex_runner/tui_app.py:690-798 | the round trip holds exactly for printable settings |
| `SettingsLaws.RoundTripFromDefaults` | codex_runner/tui_state.py:78-104 | the round trip from the default settings |
| `SettingsLaws.PrintedInFull` | codex_runner/tui_state.py:346-404 | the arguments printed for settings that have everything, one by one |
| `SettingsLaws.PrintedBare` | codex_runner/tui_state.py:346-404 | and for settings that have the least |
| `SettingsLaws.ReadKeepsSane` | codex_runner/tui_app.py:690-798 | whatever the arguments, reading leaves at least one pass, one of the two modes, one of the two providers, and automatic commits as they were |
| `SettingsLaws.LastPassesCount` | codex_runner/tui_app.py:726-730 | the last number of passes given counts, raised to one if it is less |
| `Config.ConfigLoader.DeepUpdate` | guardian/config_loader.py:97-109 | the recursive loop over the update, with the error in the middle |
| `Config.ConfigLoader.GetValue` | guardian/config_loader.py:111-128 | the walk along a dotted key |
| `Config.ConfigLoader.SetValue` | guardian/config_loader.py:130-146 | the descent that makes missing dictionaries sets the value at its path, or fails and changes nothing |
| `ConfigLaws.MergeFailsIff` | guardian/config_loader.py:97-109 | the merge fails exactly when somewhere a nonempty dictionary of the update meets something else |
| `ConfigLaws.LeavesAreRead` | guardian/config_loader.py:97-128 | every leaf of the update is read back at its path |
| `ConfigLaws.OthersKept` | guardian/config_loader.py:97-128 | paths the update does not mention are unchanged, even if the merge fails |
| `ConfigLaws.OrderKept` | guardian/config_loader.py:97-109 | the keys stay in their order and new ones come after them, even if the merge fails |
| `ConfigLaws.MergeIdempotent` | guardian/config_loader.py:97-109 | merging again changes nothing |
| `ConfigLaws.SetThenGet` | guardian/config_loader.py:111-146 | what was set is what is found |
| `ConfigLaws.SetLeavesOthers` | guardian/config_loader.py:130-146 | setting a path leaves every path unrelated by prefix as it was |
| `ConfigLaws.SetFailsIff` | guardian/config_loader.py:130-146 | setting fails exactly when a proper part of the path is not a dictionary |
| `ConfigLaws.DottedSetGet` | guardian/config_loader.py:111-146 | the same in dotted keys |

## Left out

- Git itself, branches and the working tree: commits are an append-only list, cleanliness and scope checks are among the ways a pass can fail (`FailsBeforeCommit`, `stagesFail`), because they depend on ignore rules and on files outside the model, and branch switching, which can replace the state file, is not modelled.
- The documents of single entries and the prompts: of the files that materialising writes only the campaign documents are in the world, since only they are read back; the names of the others are.
- An agent that deletes a campaign document, and edits the agent makes during the discovery fallback, which runs no agent.
- Crashes between saving the state and appending to the log: the two happen together, only `RunnerError` stops a pass in between steps.
- Prompt texts, run metadata, argparse, the shell of the terminal interface and everything drawn by it.
- `_parse_json_with_fallback`, `_schema_required_keys` and the provider calls: Python's JSON decoder is a parameter, so what is modelled starts at the decoded value and the set of required keys.
- Case folding and whitespace beyond what `Text` defines: letters outside ASCII keep their case, and non-ASCII digits are not digits.
- `repr` of strings with non-printable characters, which matters only for values the proposal should not hold.
- The markdown of the discovery placeholder is shortened to its title; nothing depends on it.
- Hash collisions: hashes are injective in what they cover.
- Aliasing: nested dictionaries are values, so a stored part of an update is a copy.
- Push retries after a lost reply, and queue entries not made by the producer shown.
- Embedding dimensions and rounding: weights are reals.
- Cached functions that call themselves or raise, and the switch that turns caching off.
- Placeholders.ReplaceTemplatePlaceholders: says nothing where a search for a sentinel never ends, since the program does not return there; `PlaceholderTotal` and `PromptTokens.SearchEnds` say where it does.
- BlockRecords.BlocksShowCommits: says nothing of runs in which an agent rewrites a campaign document, a markdown holds a marker or two campaigns share a document, since other hands then write into the blocks.
- Progress.PassesCompleteIff: where open campaigns that share a document disagree on its text, the order in which they are selected decides, and nothing is said.
- MappingBlock.CampaignDocument.ParseEntries: "\r\n" counts as two line breaks, which adds a blank line and no entry.
- Payload.CandidatePayloadDicts: object identity is not modelled; decoded JSON is a tree, so no object is met twice under the same identity.
- PayloadLaws.WalkIsReach: assumes of the decoder that a decoded value never weighs more than its text has characters, as JSON text guarantees.
- DiskMemo.Memo.Invoke: lines that are valid JSON without the expected fields, on which the code raises, are not modelled, nor is a line cut short that runs into the next one.
- LruCache.Cache.Invoke: needs a clock that does not run back; with one that does, the entry evicted may be the newest.
- SemanticCache.Store.Query: a stored result of `None` is told apart from no result.
- AgentQueueLaws.StatusFallsIff: a producer that dies between its two writes is a producer that never takes its second step.
- SettingsLaws.RoundTripIff: the flat record is grouped into paths, `pi_` fields and the rest; field by field it is the same.
- Config.ConfigLoader.SetValue: works on a value tree; `Config.PutBack` stands for the dictionaries on the way being shared.
- Config.ConfigLoader.DeepUpdate: the same; an update that fails leaves the parts merged before the failure, as the code does.
