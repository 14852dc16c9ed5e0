# Akritas host: verified model

A Dafny model of the stateful core of the Akritas host, and proofs about it. The
modules follow the program's packages. Code that updates state in place is a class or
a method with loops, proved against a function on values; what the program promises
is proved about those functions over every input, run or interleaving.

| files | what they model |
|---|---|
| `AlertModel`, `AlertStore`, `AlertProtocol` | the alert store, its log and restart, the worker's wake token and the waiters of jobs |
| `AuditModel`, `AuditStore`, `Investigation`, `OpsAudit` | the audit log and its checked replay, structured results, and the way from a chat to the log |
| `ChangeApply`, `ChangeDiff`, `Materialize`, `ChangePipeline` | approved multi-file edits, the printed diff, turning proposals into contents, and the way from a preview to the workspace |
| `Corpus`, `CorpusReader`, `RagSplit`, `RagIndex`, `RagSearch` | the sharded corpus, its readers and cursors, the text splitter, the inverted index and search |
| `RunBudget`, `ToolLoop`, `OpsChat` | the reservation ledger, the tool loop and one whole chat against one budget |
| `McpStdio`, `Bots`, `TelegramPolling` | the pending table of the MCP client (JSON-RPC 2.0, section 5), the bot gateway, offset acknowledgement |
| `Text`, `Order` | trimming, bounding, names, UTF-8 lengths, decimal numbers; string order and sorting |

`dafny verify dfyconfig.toml` checks everything.

Three conventions. Identifiers drawn at random are parameters required to be unused.
Whatever the host cannot decide (a model's replies, a tool's output, a disk that
fails, a reader that stops) is an arbitrary function or parameter, so a contract that
does not mention it holds for all of them. Times are ordered integers.

Places where the code does less than its surroundings suggest, kept as they are:

- A finished audit run and its replay can differ in the error text: the bound trims
  and then cuts, so a second pass can drop a trailing blank. `FinishReplaysExactlyIff`
  says exactly when, `ReplayCanDropABlank` gives a text.
- The printed diff always maps lines to lines but can lose a final newline.
  `DiffIsByteExactIff` says exactly when, `UnterminatedFilesCanLoseBytes` gives two pairs.
- The diff of a change whose path holds a newline does not read back, and the path rules
  let one through. `PatchReadsBackIff` says exactly when a shown patch does,
  `NewlinePathIsMisread` gives a path.
- A replacement text that occurs twice with overlap counts as unique
  (`OverlapsCountOnce`).
- The polling branch that stops on a negative update id is dead code: such an update is
  below every offset and is skipped first, unreported and unconfirmed.

## Model

| member | source | states |
|---|---|---|
| `AlertModel.JoinedKeyIsInjective` | internal/alerts/store.go:177-190 | Joining a source name without NUL and a key by a NUL character gives different index keys for different pairs, so the indexes can be modelled on pairs |
| `AlertModel.OneKeepsInv` | internal/alerts/store.go:173-233 | One event of a batch (duplicate, attached to an open incident, or opening a new one; firing or resolving) keeps every store invariant, so batches that fire, resolve and fire one key again are covered |
| `AlertModel.IngestReplays` | internal/alerts/store.go:150-259 | The single record of a whole batch, replayed as last-write-per-id, gives exactly the tables that applying the events one by one gives |
| `AlertModel.ClaimReplays` | internal/alerts/store.go:261-286 | The record of a claim replays to the claimed job, and moves it from pending to running |
| `AlertModel.CompleteReplays` | internal/alerts/store.go:288-321 | The record of a completion replays to the finished job and the incident it links |
| `AlertModel.RecoverReplays` | internal/alerts/store.go:323-348 | The record of a recovery, in whatever order its jobs are listed, replays to all running jobs being pending again |
| `AlertModel.StepKeepsCoreInv` | internal/alerts/store.go:150-348 | Every successful operation keeps the invariant that ties tables, indexes and log together |
| `AlertModel.ReachableIsSound` | internal/alerts/store.go:150-348 | The invariant holds after every sequence of successful operations from the empty store |
| `AlertModel.DerivedIndexesAreLive` | internal/alerts/store.go:529-536 | Any dedupe and open-incident index derived from the tables alone is the live one |
| `AlertModel.RestartRebuildsLiveStore` | internal/alerts/store.go:487-539 | For every run, replaying the log and deriving the indexes gives exactly the live deliveries, events, incidents, jobs, dedupe and openIncident |
| `AlertModel.OneFiringIncidentPerKey` | internal/alerts/store.go:189-225 | At most one firing incident per source and correlation key, and openIncident points at it |
| `AlertModel.IncidentShowsItsEvents` | internal/alerts/store.go:189-227 | In every reachable store an incident has the source and opening time of its first event, the state, name, severity, entity and update time of its last, a resolution time iff that event resolves it, and the runs of its job |
| `AlertModel.JobIsOfItsDelivery` | internal/alerts/store.go:208-240 | In every reachable store a job was created when the delivery of the event that opened its incident arrived, and that delivery names the event, the incident and the job; its times and diagnostics go with its status |
| `AlertModel.IngestAnswers` | internal/alerts/store.go:173-256 | The delivery of a batch has the batch's source, hash and arrival and answers its events one by one, in order |
| `AlertModel.JobOperationsChange` | internal/alerts/store.go:261-348 | What claiming, completing and recovering change, and that they change nothing else |
| `AlertModel.EventInExactlyOneIncident` | internal/alerts/store.go:207-227 | Every stored event is listed by its incident, listed there once and by no other |
| `AlertModel.ListedEventIsStored` | internal/alerts/store.go:207-227 | Whatever an incident lists is a stored event of that incident |
| `AlertModel.JobLifecycle` | internal/alerts/store.go:208-219 | An incident has a job iff a firing event opened it, never two; the job's logged statuses follow the legal path and its attempts count its claims |
| `AlertModel.TerminalIsFinal` | internal/alerts/store.go:288-321 | No logged status follows succeeded or failed |
| `AlertStore.Store.Prepare` | internal/alerts/store.go:150-233 | The batch-local working maps compute what applying the events one at a time to the live state would compute, and refuse exactly when an event fails validation |
| `AlertStore.Store.PrepareOne` | internal/alerts/store.go:173-233 | One event on the working copies does what it would do to the live state |
| `AlertStore.Store.Ingest` | internal/alerts/store.go:150-259 | Succeeds iff the batch is acceptable and the append works; then the store is the specified next state, and the stored and returned delivery carries the batch's source, hash and time and answers each event in order: a duplicate with the event and incident already stored, a new one with its own event, its incident and a job iff it fires and opens one; the wake token is set iff there are new jobs; otherwise nothing changes |
| `AlertStore.Store.CommitIngest` | internal/alerts/store.go:240-258 | Copying the appended record into memory reaches the state the operation specifies |
| `AlertStore.Store.ClaimNext` | internal/alerts/store.go:261-286 | Claims the oldest pending job, which is then running since now with one more attempt and nothing else different; reports none iff none is pending, and changes nothing when the append fails |
| `AlertStore.Store.CompleteJob` | internal/alerts/store.go:288-321 | Succeeds iff the status is final, the job is running and the append works; then the job has that status, time and bounded diagnostics, its run is linked to its incident, nothing else changes, and the waiters of exactly that job are served |
| `AlertStore.Store.NotifyWaiters` | internal/alerts/store.go:570-576 | Sends the job once to each waiter, closes each channel and drops the list; every channel has room |
| `AlertStore.Store.RecoverRunning` | internal/alerts/store.go:323-348 | Returns the number of running jobs, all pending afterwards and nothing else different, with the wake token set |
| `AlertStore.Store.StartWait` | internal/alerts/store.go:363-376 | Answers at once for a finished job, otherwise registers a channel; fails iff the job is unknown |
| `AlertStore.Store.CancelWait` | internal/alerts/store.go:380-393 | Removes exactly the cancelled waiter |
| `AlertStore.Store.LoadLine` | internal/alerts/store.go:494-525 | One log line is refused iff malformed, and otherwise applied to the tables |
| `AlertStore.Store.DeriveIndexes` | internal/alerts/store.go:529-536 | The index loop over incidents and events yields the indexes of the tables |
| `AlertStore.Store.OpenStore` | internal/alerts/store.go:122-148 | Opening succeeds iff every line is well formed, and holds the replayed tables, derived indexes and no waiters |
| `AlertStore.Store.Restart` | internal/alerts/store.go:487-539 | Closing and opening a store gives a store in the same state |
| `AlertProtocol.RegisterKeeps` | internal/alerts/store.go:363-376 | Registering keeps: waiters only for unfinished jobs, each channel empty, open and listed once |
| `AlertProtocol.CancelKeeps` | internal/alerts/store.go:380-393 | So does cancelling |
| `AlertProtocol.NotifyKeeps` | internal/alerts/store.go:570-576 | So does serving the waiters of a job that finishes |
| `AlertProtocol.NotifyNeverBlocks` | internal/alerts/store.go:570-576 | Every channel about to be sent to is empty, open and not repeated in the list, so no send blocks under the lock |
| `AlertProtocol.NewPendingSignals` | internal/alerts/store.go:563-568 | An operation that does not signal creates no pending job |
| `AlertProtocol.StepKeepsWorldInv` | internal/web/alerts.go:193-214 | Store operations, waiting, cancelling, the worker's claim, process and select steps, and a restart keep the protocol invariant |
| `AlertProtocol.RestartKeepsWorldInv` | internal/alerts/store.go:122-148 | A restart at any moment, replaying the log and deriving the indexes, gives the store as it was, without token and waiters, and keeps the invariant |
| `AlertProtocol.EveryInterleavingIsSafe` | internal/web/alerts.go:193-214 | In every interleaving, with restarts at any moment: a worker that drained without error and now selects while a job is pending has the wake token; waiters exist only for unfinished jobs; a channel received nothing or exactly its finished job |
| `AlertProtocol.FinishedJobReachesWaiter` | internal/alerts/store.go:363-395 | A finished job has been sent to every waiter not cancelled |
| `ChangeApply.Verify` | internal/change/approval.go:82-105 | Accepts only originals that still match and targets that are still absent; without faults accepts all of those |
| `ChangeApply.StageAll` | internal/change/approval.go:107-141 | Either every temporary and backup is in place with all targets untouched, or the workspace is as before |
| `ChangeApply.CommitAll` | internal/change/approval.go:143-170 | Either every target is replaced, or a rename failed and every target is back |
| `ChangeApply.RollbackAppliedChanges` | internal/change/approval.go:178-185 | Undoes exactly the renames already done, newest first |
| `ChangeApply.Cleanup` | internal/change/approval.go:107-114 | Removes what staging left and nothing else |
| `ChangeApply.DropBackups` | internal/change/approval.go:171-175 | After a commit only backups disappear; without faults all of them do |
| `ChangeApply.ApplyPendingChange` | internal/change/approval.go:74-176 | All or nothing for every fault pattern: on failure the workspace is byte for byte as before; on success exactly the updated paths hold the new contents (apart from backups that could not be removed); a stale original or existing target always fails; without faults success iff the preview is fresh |
| `ChangeApply.BackupNamesDiffer` | internal/change/approval.go:121-124 | Distinct temporaries have distinct backups |
| `ChangeDiff.LinesDetermineContent` | internal/change/structured.go:702-711 | The lines and the final-newline flag determine the content |
| `ChangeDiff.ParseRender` | internal/change/structured.go:684-699 | Parsing the printed hunk gives it back, counts and start lines included, and what follows it |
| `ChangeDiff.DiffIsLineExact` | internal/change/structured.go:646-700 | For all old and new contents, the hunk applied to the old lines gives the new lines |
| `ChangeDiff.DiffIsByteExactIff` | internal/change/structured.go:646-700 | With final newlines counted, applying the hunk is exact iff: with a common suffix the two files agree on the final newline; without one, no unterminated last line ends up as leading context |
| `ChangeDiff.TerminatedFilesAreExact` | internal/change/structured.go:646-700 | That condition holds whenever each side is empty or newline-terminated, or the two differ only in the final newline |
| `ChangeDiff.UnterminatedFilesCanLoseBytes` | internal/change/structured.go:687-698 | Two concrete pairs for which a final newline is lost |
| `ChangeDiff.PrintedDiffApplies` | internal/change/structured.go:646-700 | Parsing the printed text and applying it has both properties |
| `ChangeDiff.RawsDetermineContent` | internal/change/structured.go:702-711 | Lines with their ends determine the bytes, so raw exactness is byte exactness |
| `ChangeDiff.ChangeIsTight` | internal/change/structured.go:649-675 | Up to three context lines on each side; between them the lines differ at both ends, or are just the last line when only the final newline changed |
| `ChangeDiff.OldLineIsReplaced` | internal/change/structured.go:637-644 | Replacing the first occurrence of the old side's header line in a printed diff hits the header, whatever the path, if that has no newline |
| `ChangeDiff.PatchReadsBackIff` | internal/change/structured.go:637-700 | A printed patch of any number of files, created ones included, reads back as exactly its changes (paths, which files are new, hunks) iff no path holds a newline |
| `ChangeDiff.NewlinePathIsMisread` | internal/change/structured.go:581-598 | The path rules let a newline through: a concrete path whose patch does not read back |
| `ChangeDiff.ShownWithNewline` | internal/change/structured.go:535 | Trimming the shown diff drops its final newline and nothing else |
| `ChangeDiff.BuildHostUnifiedDiffForOperation` | internal/change/structured.go:637-644 | The builder prints the change of one file; for a created one what was there before does not matter |
| `ChangeDiff.FindSpan` | internal/change/structured.go:649-661 | The counting loops find the longest common prefix, then suffix, then adjust for a changed final newline |
| `ChangeDiff.BuildHostUnifiedDiff` | internal/change/structured.go:646-700 | The builder prints the file header and the rendered hunk |
| `ChangeDiff.WriteChangeDiffLine` | internal/change/structured.go:713-720 | One printed line with its optional marker |
| `GreedyMatch.FindsFirst` | internal/change/structured.go:563-579 | The search finds the first occurrence from a position, or there is none |
| `GreedyMatch.StartsAreApart` | internal/change/structured.go:454-455 | Counted occurrences are occurrences, in order, not overlapping |
| `GreedyMatch.CountsOnceIff` | internal/change/structured.go:454-461 | A text counts once iff it occurs somewhere with no occurrence before it and none after its end; occurrences overlapping it are not excluded |
| `GreedyMatch.OverlapsCountOnce` | internal/change/structured.go:454-461 | "aa" occurs twice in "aaa" and counts once |
| `GreedyMatch.ReplacementIsLocal` | internal/change/structured.go:454-462 | A unique replacement keeps what surrounds the occurrence and changes the content iff the texts differ |
| `GreedyMatch.ExactMatchLines` | internal/change/structured.go:563-579 | The start lines of the first counted occurrences, at most the given number |
| `Materialize.FoldIsPathwise` | internal/change/structured.go:394-470 | The fold over the workspace equals, path by path, that path's creation and replacements in order; created paths are outside the snapshot; untouched files keep their content |
| `Materialize.AcceptedIff` | internal/change/structured.go:394-470 | Stated on each path's own content before each edit: the edits are accepted iff every replacement names a snapshot path and a non-empty text that occurs there at some place with no occurrence before it and none after its end, every creation has no old text, some new one and a creatable path absent so far, and every new content fits; otherwise the error is that of the first edit that is not, and a count reported is that of the text and not one |
| `Materialize.OneWorkspace` | internal/change/structured.go:394-470 | Path by path contents leave one workspace, so deliverability is a property of the edits |
| `Materialize.LoadSnapshot` | internal/change/structured.go:382-392 | The working copy holds the snapshot's files, the last one of a path that is listed twice |
| `Materialize.RunEdits` | internal/change/structured.go:394-470 | The edit loop computes the fold, with the error of the first refused edit |
| `Materialize.FormatChanged` | internal/change/structured.go:483-505 | Exactly the changed Go files are formatted; fails iff the formatter refuses one of them |
| `Materialize.TotalBytes` | internal/change/structured.go:507-524 | The total of snapshot and created files, whatever the order |
| `Materialize.ShowChanges` | internal/change/structured.go:525-535 | Fails iff a replaced file ended up unchanged; otherwise the shown diff is the patch of every changed path in order, less its final newline |
| `Materialize.Collect` | internal/change/structured.go:536-551 | Originals and updates are as listed and both path lists sorted |
| `Materialize.Deliver` | internal/change/structured.go:471-551 | Succeeds iff something changed, the changed Go files format, the total fits and every replaced file ended up different; every error has its cause; the diff is that of the changes delivered |
| `Materialize.MaterializeChangeSimulation` | internal/change/structured.go:352-561 | A proposal with edits succeeds iff every edit is accepted in the sense of AcceptedIff and the result can be delivered; every error has its cause. Then ChangedFiles is sorted, non-empty and the domain of updatedFiles, which is the set of paths some edit touches; each content is the path's own fold, formatted; replaced files differ from their originals; created ones are new; other files are unchanged; the diff shows exactly these changes; the total is within 256 KiB |
| `ChangePipeline.StaleIffTouched` | internal/change/approval.go:82-105 | A change approved from a materialized proposal is stale iff a path it changes is no longer as it was in the snapshot |
| `ChangePipeline.AppliedIsFolded` | internal/change/approval.go:43-56 | What applying it is meant to give: every edited path holds its own edits in order, formatted; file modes stay and no other file changes |
| `ChangePipeline.ShownDiffIsApplied` | internal/change/structured.go:526-561 | The k-th change shown is of the k-th path, marked new iff the path is not on disk, and its hunk applied to the file on disk gives the lines of the file that is written |
| `ChangePipeline.ShownDiffReadsBackIff` | internal/change/structured.go:525-561 | A preview's diff parses back into exactly its changes, file by file, iff no changed path holds a newline |
| `ChangePipeline.Approve` | internal/change/approval.go:43-176 | Approving a materialized proposal fails without effect, or leaves exactly the folded workspace; without faults it succeeds iff no path it changes was touched since |
| `CorpusModel.PackRoundTrip` | internal/corpus/corpus.go:149-181 | Concatenated shards are the documents in order; no shard is empty, none exceeds the target unless it holds one document, none is closed early |
| `CorpusModel.ValidateCorpusManifest` | internal/corpus/corpus.go:723-767 | Accepts exactly the manifests whose sources are complete, whose shards are well formed and whose totals are the sums |
| `CorpusModel.ValidateCorpusSources` | internal/corpus/corpus.go:769-804 | Accepts exactly lists of complete sources with distinct ids and well-formed inputs |
| `CorpusWriter.Writer.Add` | internal/corpus/corpus.go:149-181 | Accepts exactly valid documents while open and appends them |
| `CorpusWriter.Writer.SetSources` | internal/corpus/corpus.go:185-201 | Accepts complete sources exactly before the first document and while open |
| `CorpusWriter.Writer.FinishCurrentShard` | internal/corpus/corpus.go:251-290 | Writes the open shard and its manifest entry with matching counts |
| `CorpusWriter.Writer.Close` | internal/corpus/corpus.go:203-220 | The files on disk are the greedy packing of what was added, and the manifest passes validation given valid digests, paths and sizes |
| `CorpusReader.ResumeIsDrop` | internal/corpus/corpus.go:481-535 | Every cursor returned is valid, and resuming from it yields exactly the remaining visits |
| `CorpusReader.RestIsDroppedCorpus` | internal/corpus/corpus.go:338-408 | The documents read from a cursor are the flattened corpus dropped at it |
| `CorpusReader.IterateShard` | internal/corpus/corpus.go:592-644 | Visits a prefix of the shard's remaining documents, all of them unless the visitor stops or the data is bad |
| `CorpusReader.Iterate` | internal/corpus/corpus.go:338-408 | Succeeds iff the cursor is valid, the remaining shards are good and the visitor takes everything; visits exactly the specified sequence, or a prefix of it on failure |
| `CorpusReader.Iterator.Next` | internal/corpus/corpus.go:481-535 | Returns the next visit of the same sequence, or its end; passes a shard only when it is good, reports the end only past the last one, and never fails on good shards; the closed error iff it is closed |
| `CorpusReader.NewIterator` | internal/corpus/corpus.go:450-477 | Refuses exactly the invalid cursors and otherwise stands at the cursor |
| `CorpusReader.Iterator.FinishShard` | internal/corpus/corpus.go:574-590 | At the end of the data a shard is passed iff it is good: complete, of the manifest's counts, valid and openable |
| `CorpusReader.ReadAll` | internal/corpus/corpus.go:481-535 | Repeated Next succeeds iff every remaining shard is good, and returns exactly what Iterate visits, or a prefix of it |
| `CorpusReader.WithShardOrder` | internal/corpus/corpus.go:420-448 | Accepts exactly the permutations and reorders the shards |
| `CorpusReader.PermutedCorpus` | internal/corpus/corpus.go:420-448 | A permuted corpus is well formed iff the original is |
| `CorpusReader.WrittenCorpusReadsBack` | internal/corpus/corpus.go:311-415 | Reading a written corpus from the start gives the added documents |
| `RagSplit.SplitRagText` | internal/rag/rag_index.go:387-418 | Windows start strictly later each time, are at most chunkRunes long, leave no gap and reach the end; there are none iff the text is blank; the chunks are their trimmed non-blank texts, non-empty and at most chunkRunes long, and every non-space rune lies in one |
| `RagSplit.WindowEnd` | internal/rag/rag_index.go:394-404 | A window that would not reach the end of the text is cut after the last space of its second half, or is full if that half has none |
| `RagSplit.SplitIsUnique` | internal/rag/rag_index.go:387-418 | These rules determine the windows of a text, so the split of a text is one |
| `RagSplit.WindowsCover` | internal/rag/rag_index.go:387-418 | Every position lies in some window |
| `RagSplit.EveryRuneIsKept` | internal/rag/rag_index.go:387-418 | Every non-space rune lies in some returned chunk |
| `RagIndex.CountTerms` | internal/rag/rag_index.go:127-138 | Adds weight per occurrence to the table, for exactly the occurring terms |
| `RagIndex.ChunkFrequencies` | internal/rag/rag_index.go:127-138 | A chunk's table holds its text counts plus the boosted title counts of a first chunk |
| `RagIndex.CountIsOccurrences` | internal/rag/rag_index.go:127-138 | A count is the number of places where the term stands |
| `RagIndex.AppendPostings` | internal/rag/rag_index.go:139-141 | Appends one posting per term, whatever order the map is visited in |
| `RagIndex.AppendKeepsFaithful` | internal/rag/rag_index.go:114-142 | Postings stay exactly the direct scan of all chunks grouped by term, in chunk order |
| `RagIndex.AddDocument` | internal/rag/rag_index.go:114-142 | The chunks grow by exactly one per window that has terms, the first of them marked, and the postings stay faithful |
| `RagIndex.CountTokens` | internal/rag/rag_index.go:143-150 | The total over all chunks, at least one token each, so the average is positive |
| `RagIndex.BuildRagIndex` | internal/rag/rag_index.go:89-153 | Refuses exactly the bad parameters as such, and the documents as unsearchable iff their considered prefix yields no chunk; otherwise the index holds exactly the chunks of those documents in order, faithful postings and the mean token count, and validation accepts it |
| `RagIndex.Validate` | internal/rag/rag_index.go:344-361 | Accepts exactly the indexes whose header and postings are in range |
| `RagIndex.FaithfulIsValid` | internal/rag/rag_index.go:344-361 | Faithful postings pass it |
| `RagSearch.SumTakesAny` | internal/rag/rag_index.go:174-206 | The order in which the query's terms are added up does not matter |
| `RagSearch.ScoreIsPositiveIffHit` | internal/rag/rag_index.go:174-206 | A direct scan scores a chunk above zero iff it contains a query term |
| `RagSearch.RarerWeighsMore` | internal/rag/rag_index.go:179-180 | A term in fewer chunks has the larger weight, and every weight is positive |
| `RagSearch.AskedMoreWeighsMore` | internal/rag/rag_index.go:182 | A term asked once counts as it is, one asked more often counts more |
| `RagSearch.MoreScoresMore` | internal/rag/rag_index.go:183-189 | In chunks of equal length more occurrences score more, below a bound |
| `RagSearch.LongerScoresLess` | internal/rag/rag_index.go:183-189 | Of equal frequencies the one in the longer chunk scores less |
| `RagSearch.AverageScoresWeight` | internal/rag/rag_index.go:183-189 | One occurrence in a chunk of average length scores exactly the term's weight |
| `RagSearch.TitleMatchScoresMore` | internal/rag/rag_index.go:191-206 | Of two chunks alike in length and frequency the one with the term in its title scores more |
| `RagSearch.RarerTitleScoresMore` | internal/rag/rag_index.go:191-206 | In titles too the rarer term, or the one asked more often, scores more |
| `RagSearch.RarerScoresMore` | internal/rag/rag_index.go:174-206 | Of two untitled chunks alike in length and frequency, each hit by one term asked once, the one with the rarer term scores more |
| `RagSearch.PostingsCount` | internal/rag/rag_index.go:175-180 | The length of a term's list is its document frequency |
| `RagSearch.AddPostings` | internal/rag/rag_index.go:183-189 | Adds the term's share to exactly the chunks on its list |
| `RagSearch.ScoreBodies` | internal/rag/rag_index.go:170-190 | After all terms, exactly the chunks containing one are scored, by the sum of their shares |
| `RagSearch.TitleBonus` | internal/rag/rag_index.go:191-206 | A first chunk gains the title score of every query term in its title; others gain nothing |
| `RagSearch.ScoreChunks` | internal/rag/rag_index.go:166-206 | The scores from postings are the direct-scan scores, chunk by chunk |
| `RagSearch.Rank` | internal/rag/rag_index.go:207-220 | All scored chunks, score descending then index ascending |
| `RagSearch.TakeDocuments` | internal/rag/rag_index.go:221-238 | Distinct documents, each by its best chunk, best first, at most k, none omitted that beats a returned one |
| `RagSearch.Search` | internal/rag/rag_index.go:155-239 | On faithful postings: an error iff the header, top-k or query is bad; otherwise the top documents under the direct-scan scores |
| `RagSearch.RarerRanksFirst` | internal/rag/rag_index.go:155-239 | If the chunk with the common term is returned, the document of the one with the rarer term is returned no later |
| `RagSearch.ToDisk` | internal/rag/rag_index.go:273-286 | The terms in strictly increasing order with their postings |
| `RagSearch.FromDisk` | internal/rag/rag_index.go:330-337 | Accepts exactly non-empty strictly sorted terms and rebuilds the map |
| `RagSearch.SaveAndLoad` | internal/rag/rag_index.go:241-342 | Saving then loading gives the postings back |
| `AuditMetadata.SanitizedIsClean` | internal/audit/store.go:355-382 | Whatever a caller passes, at most 32 pairs are kept, with non-empty lower-case keys of at most 512 runes that name no credential, and values of at most 512 runes |
| `AuditMetadata.Sanitize` | internal/audit/store.go:355-382 | The loop over sorted keys keeps the first 32 and lets later collisions win |
| `AuditMetadata.Merge` | internal/audit/store.go:384-392 | Both groups sanitised, the later winning, and the result sanitised again |
| `AuditMetadata.LaterGroupWins` | internal/audit/store.go:384-392 | What is stored under a name comes from the last of the two groups' sanitised keys stored under it, and for a key both groups hold it is the later group's value |
| `AuditMetadata.KeptIsLast` | internal/audit/store.go:355-382 | Of several keys that normalise to one name the last in key order gives the value |
| `AuditModel.RecordReplays` | internal/audit/store.go:130-289 | The record of every successful live operation is accepted by the checked replay and does the same to the replayed runs, up to one more bounding of the error |
| `AuditModel.FinishReplaysExactlyIff` | internal/audit/store.go:240-264 | The replayed run equals the live one iff the trimmed error is at most 512 runes or its 512th rune is not a space |
| `AuditModel.ReplayCanDropABlank` | internal/audit/store.go:394-400 | A concrete error text on which live and replayed runs differ |
| `AuditModel.LiveKeepsRunOk` | internal/audit/store.go:171-289 | Every live operation leaves the run it touches in order |
| `AuditModel.LiveKeepsTallies` | internal/audit/store.go:171-289 | The log holds one start, as many events as the run, and at most one finish and one investigation per run |
| `AuditModel.StepKeepsInv` | internal/audit/store.go:103-289 | Live operations and restarts keep the store invariant |
| `AuditModel.EveryLogReplays` | internal/audit/store.go:103-289 | In every run with failures and restarts anywhere, the log is accepted and replays to the live runs up to one bounding of errors; event sequences are 1..n; the one investigation is normalised, valid and cites only tool-call events of its run |
| `AuditModel.FinishedRunsAreFinal` | internal/audit/store.go:209-289 | Events are only appended, an investigation is never replaced, and a finished run's status, time, metadata and investigation never change |
| `AuditModel.AcceptedIffAllowed` | internal/audit/store.go:171-289 | An operation is accepted iff source and actor, or the event type, have a character that is no space, its JSON is valid or empty, the run exists and is running where that is needed, a finish names a final status, and a finding is the first of its run and acceptable against its evidence |
| `AuditModel.RunsShowTheirOperations` | internal/audit/store.go:103-289 | Whatever the store went through, refused operations and restarts anywhere, every run shows exactly the accepted operations on it: the fields of its one start, one event per added event in order with its time, type, status, metadata, arguments and result, the status, time, error and merged metadata of its one finish, and its one finding; after a finish only events that do not need a running run were added |
| `AuditModel.ReferencesGrow` | internal/audit/store.go:428-442 | Appending an event never removes evidence |
| `AuditStore.RunEvidenceReferences` | internal/audit/store.go:428-442 | Collects exactly the references of the run's tool-call events |
| `AuditStore.CopyRun` | internal/audit/store.go:413-426 | The copy sanitises metadata and events and changes nothing else |
| `AuditStore.Store.StartRun` | internal/audit/store.go:171-195 | New state and result, or an error and no change |
| `AuditStore.Store.AddEvent` | internal/audit/store.go:209-238 | New state and result, or the first failing check in order and no change |
| `AuditStore.Store.FinishRun` | internal/audit/store.go:240-264 | New state and result, or an error and no change |
| `AuditStore.Store.SetInvestigationResult` | internal/audit/store.go:266-289 | New state and result, or an error and no change |
| `AuditStore.Store.Apply` | internal/audit/store.go:130-169 | Replays one record, or reports why it cannot be |
| `AuditStore.Store.Load` | internal/audit/store.go:103-128 | Accepts a log iff every record has the store's version and applies in turn, and then holds its replay; otherwise the error is that of the first record that does not |
| `AuditStore.Store.Reopen` | internal/audit/store.go:79-128 | Opening the log of a live store always succeeds and bounds each error once more |
| `Investigation.NormalizedTwice` | internal/investigation/result.go:106-115 | Normalising is idempotent, sorting and trimming included |
| `Investigation.ValidateList` | internal/investigation/result.go:140-159 | Accepts exactly lists within the limits, non-blank and distinct after trimming, and names the first defect |
| `Investigation.ValidateHead` | internal/investigation/result.go:61-80 | Accepts exactly the allowed enumerations and text sizes |
| `Investigation.Validate` | internal/investigation/result.go:61-104 | Accepts exactly complete, bounded results without production writes whose evidence is well formed and available |
| `Investigation.AcceptableGrows` | internal/investigation/result.go:61-104 | More evidence never invalidates a result |
| `BudgetModel.StepKeepsInv` | internal/runbudget/budget.go:86-175 | Every operation, refused or not, keeps the ledger balanced and every counter within its limit |
| `BudgetModel.EveryRunBalances` | internal/runbudget/budget.go:86-175 | After any interleaving of calls, finished in any order or never: model tokens are the open grants plus the settled charges and within the limit; iterations count the grants; tool calls, result bytes, retrieved bytes and context are the sums over the accepted recordings |
| `BudgetModel.RecordingFits` | internal/runbudget/budget.go:133-175 | A recording is accepted iff its size is not negative and its whole cost fits every limit; then exactly that cost is added, and otherwise nothing changes |
| `BudgetModel.GrantIsMost` | internal/runbudget/budget.go:86-108 | A model call is granted iff something is requested and an iteration and a token are left; the grant is the request or all that is left, whichever is less |
| `BudgetModel.FinishAnswers` | internal/runbudget/budget.go:112-131 | Stated on the history of calls: an unknown or finished reservation is refused, a report above its grant is an error, anything else settles |
| `BudgetModel.RequestGrantedInFull` | internal/runbudget/budget.go:86-108 | With room for a full request per iteration, a request is granted whole or refused for iterations alone |
| `BudgetModel.TotalsFinish` | internal/runbudget/budget.go:112-131 | Finishing a call moves its grant out of the open total and charges the report if it is within the grant, else the grant |
| `RunBudget.Tracker.BeginModelCall` | internal/runbudget/budget.go:86-108 | The specified grant and ledger, a positive allowance of at most the request |
| `RunBudget.Tracker.FinishModelCall` | internal/runbudget/budget.go:112-131 | The specified settlement, including the over-report error |
| `RunBudget.Tracker.RecordToolCall` | internal/runbudget/budget.go:133-141 | The specified charge or refusal |
| `RunBudget.Tracker.RecordToolResult` | internal/runbudget/budget.go:143-160 | The specified charge or refusal |
| `RunBudget.Tracker.RecordContextBytes` | internal/runbudget/budget.go:164-175 | The specified charge or refusal |
| `RunBudget.New` | internal/runbudget/budget.go:59-78 | A tracker iff the limits are valid |
| `ToolLoop.CompleteSpends` | internal/clients/openai/tool_client.go:398-434 | A budgeted model call uses one iteration iff it is sent, charges its report or its whole grant, and touches no tool counter |
| `ToolLoop.CompleteInFull` | internal/clients/openai/tool_client.go:398-434 | Below the iteration limit it is sent with all it asked for, and only a reply reporting more can exhaust tokens |
| `ToolLoop.CompleteHasCause` | internal/clients/openai/tool_client.go:398-434 | A model call that fails was refused by a counter at its limit or by a request over the context bytes, was answered by an error, or was answered by a reply that charged too much |
| `ToolLoop.CompleteBudgeted` | internal/clients/openai/tool_client.go:398-434 | The calls on the tracker and the client do exactly that, with or without a tracker, and the request carries the given messages |
| `ToolLoop.RenameCalls` | internal/clients/openai/tool_client.go:508-514 | Only unusable ids are replaced, by the call's position in the whole run |
| `ToolLoop.RenamedCallsDiffer` | internal/clients/openai/tool_client.go:508-514 | Generated ids at different positions differ |
| `ToolLoop.AnsweredAppend` | internal/clients/openai/tool_client.go:515-549 | Transcripts in which every request is followed by its one tool message compose |
| `ToolLoop.AnsweredAligns` | internal/clients/openai/tool_client.go:543-549 | In such a transcript calls and results agree by id and name |
| `ToolLoop.ChargedExecute` | internal/clients/openai/tool_client.go:528-542 | One call is charged and executed once, unless the calls are exhausted, and its result charged |
| `ToolLoop.ExecuteOne` | internal/clients/openai/tool_client.go:516-556 | One request: its call, its result and its message, or the cause of the failure |
| `ToolLoop.ExecuteRequests` | internal/clients/openai/tool_client.go:516-556 | Executes the requests in order: each call has its request's id and arguments and the name its alias stands for, each result is the output of its own execution, with one tool message each; on failure the calls made are those of the first requests |
| `ToolLoop.ToolTurn` | internal/clients/openai/tool_client.go:508-556 | One round: the reply with its calls named goes into the transcript, then one tool message per request |
| `ToolLoop.Iterate` | internal/clients/openai/tool_client.go:490-557 | One iteration sends the history as one request, executes at most the calls left, which are those the reply asks for, adds the reply and their messages to the transcript, ends the loop iff there were none, and fails only for the cause it names |
| `ToolLoop.Rounds` | internal/clients/openai/tool_client.go:490-557 | The same for the loop from a checked history on |
| `ToolLoop.RunToolLoop` | internal/clients/openai/tool_client.go:467-558 | For every model behaviour, in success and failure: at most maxCalls + 1 model calls, each carrying the history it began with and the transcript up to its reply; the calls executed are, in order, the first of those the replies ask for, with their arguments, the tool their alias names and their ids where usable, each charged and executed once, at most maxCalls. On success they are all of them, the transcript is the replies with ids named and one message per request with the encoded output of its execution, the answer is the last reply's text, and without an observer the history grows by exactly the transcript. Every error has its cause in the last reply or the ledger; with enough budget never short of iterations or calls |
| `OpsChat.OpsLimitsAreValid` | internal/web/server.go:143-163 | The derived limits are valid, with three iterations more than tool calls |
| `OpsChat.HostCall` | internal/web/server.go:760-788 | A host-made call is charged, executed and written into the transcript as an answered request |
| `OpsChat.PrefetchRag` | internal/web/server.go:745-789 | One charged call with the trimmed question iff calls are allowed and the tool is there; its result and messages are added |
| `OpsChat.PlanInvestigation` | internal/web/server.go:800-924 | At most one model call of at most 2048 tokens, made from the question and what the prefetch found; the plan tool is called with the arguments of the reply's one request; an accepted plan has at most the allowed checks, all for offered tools; a refusal has its cause in the reply, the plan or the ledger |
| `OpsChat.ExecutePlan` | internal/web/server.go:926-968 | Executes and charges exactly the planned checks in order, each with its tool, arguments and number, and adds their rounds to the history |
| `OpsChat.SkillsAreMild` | internal/web/server.go:728-735 | Putting selected skills into the system prompt leaves every other message as it is |
| `OpsChat.PlanChecks` | internal/web/server.go:703-727 | With a planner: the plan call, then exactly the checks the reply's arguments decode to; the history has the answered rounds of both |
| `OpsChat.Prepare` | internal/web/server.go:687-728 | The opening calls are the prefetch and, while calls are left, the plan and its checks; each has its own result and its round in the history; on failure the calls made are the first of these |
| `OpsChat.LoopStage` | internal/web/server.go:728-742 | The loop started with the calls made so far returns them first, stays within the calls and iterations left, sends the prepared history and the transcript, and fails only for the cause it names; a refusal for too many calls means that those made in the whole chat and those asked for exceed maxToolCalls |
| `OpsChat.CompleteChat` | internal/web/server.go:664-743 | On success the calls are the prefetch, the plan and its checks, then those the loop's replies ask for, each with its own result, and the history is the input's, then the rounds of the opening and of the loop, up to the system prompt; the planning request is the specified one and every loop request carries the history up to its reply. In success and failure exactly the calls executed are charged, at most maxToolCalls, in that order; at most maxToolCalls + 1 model calls, each sent with all it asked for; no chat runs out of iterations or tool calls, and every error has its cause in the input, the last reply, a tool or the ledger |
| `OpsChat.StructureFinding` | internal/web/investigation.go:40-99 | One more model call, made from the answer and the calls with their results; the finding is what the one request of its reply decodes to, normalised, and cites only calls of the chat; it is refused only if the reply did not hold an acceptable one |
| `OpsChat.Investigate` | internal/web/alerts.go:242-256 | Chat and structuring together make at most maxToolCalls + 2 model calls and never lack iterations or calls; the finding is what the reply to the last request submits, which was made from that chat |
| `OpsAudit.KnownMetadataIsKept` | internal/web/audit.go:58-69 | Every key of a tool event survives metadata sanitising with its value bounded |
| `OpsAudit.AcceptedFindingIsAuditable` | internal/web/audit.go:58-110 | A finding accepted against the chat's calls is acceptable to a run that recorded them |
| `OpsAudit.AddToolEvents` | internal/web/audit.go:58-77 | Exactly the calls whose JSON is valid and whose write works are recorded, in order, one event each after those there were: kind, status by outcome, tool, call id and error code, arguments and result; ok iff all were |
| `OpsAudit.RecordInvestigation` | internal/web/alerts.go:247-257 | Recorded iff every call could be; then setting the accepted finding is refused only by the disk |
| `McpProtocol.StepKeepsInv` | internal/mcp/stdio.go:175-380 | Registering, writing, the three select arms, removal, dispatch, fail and Close keep the protocol invariant in any order |
| `McpProtocol.EveryInterleavingIsSafe` | internal/mcp/stdio.go:175-380 | The invariant holds after every interleaving |
| `McpProtocol.SendNeverBlocks` | internal/mcp/stdio.go:290-305 | Whenever the read loop or fail is about to send, the channel is empty and nothing was sent on it before |
| `McpProtocol.AnswersAreOwn` | internal/mcp/stdio.go:175-237 | A channel gets at most one message, and a response only for its own id |
| `McpProtocol.DoneClosesOnce` | internal/mcp/stdio.go:348-374 | done is closed once iff the client is closed |
| `McpProtocol.FailTakesAllPending` | internal/mcp/stdio.go:348-363 | fail empties the table and owes an error to every request in it |
| `McpProtocol.GrabbedGetTheError` | internal/mcp/stdio.go:348-363 | When the read loop has stopped, each of them was sent exactly that error |
| `McpProtocol.NothingRegistersAfterClose` | internal/mcp/stdio.go:185-195 | After closing, the table only shrinks and registration is refused |
| `McpProtocol.NoRequestIsLost` | internal/mcp/stdio.go:209-236 | A finished request leaves nothing in the table; a waiting one is in the table, owed a message, has one, or sees done |
| `McpStdio.StdioClient.Register` | internal/mcp/stdio.go:185-195 | Enters the table, or is refused iff closed |
| `McpStdio.StdioClient.RemovePending` | internal/mcp/stdio.go:342-346 | Removes the request's own key from the table |
| `McpStdio.StdioClient.Take` | internal/mcp/stdio.go:290-293 | Removes and returns the request of a key, if any |
| `McpStdio.StdioClient.BeginFail` | internal/mcp/stdio.go:348-359 | Closes once and takes the whole table |
| `McpStdio.StdioClient.FinishFail` | internal/mcp/stdio.go:360-362 | Sends one error per request taken, without blocking |
| `McpStdio.StdioClient.Close` | internal/mcp/stdio.go:365-375 | Closes once and reports whether it was closed |
| `Dialogue.ValidateDialogue` | internal/web/dialogue.go:21-48 | Accepts exactly non-blank dialogues alternating from the user after an optional system message |
| `Dialogue.BuildOpsChatHistory` | internal/web/server.go:1016-1055 | Accepts exactly the chats within limits that validate and end with the user, and keeps their messages after one system prompt |
| `Dialogue.TrimRequestHistory` | internal/web/bots.go:276-281 | Drops whole exchanges, as few as needed |
| `Dialogue.TrimStoredHistory` | internal/web/bots.go:250-257 | Drops whole exchanges, as few as needed, down to nothing |
| `Dialogue.PromptIsAcceptable` | internal/web/bots.go:147-149 | A kept history with a prompt is accepted by the server as soon as it fits |
| `BotGateway.AcceptKeepsFarApart` | internal/web/bots.go:88-110 | An id is accepted again only after at least 4096 others |
| `BotGateway.SessionKeyIsInjective` | internal/web/bots.go:225-227 | Joining type, receiver, conversation and thread by NUL characters gives different keys for different conversations, given that types and receiver names hold no NUL |
| `BotGateway.Gateway.Enqueue` | internal/web/bots.go:88-110 | Duplicate iff among the last 4096 accepted ids, full iff the queue is, otherwise appended; nothing else changes |
| `BotGateway.Gateway.Dequeue` | internal/web/bots.go:112-122 | Takes messages in the order they were accepted |
| `BotGateway.Gateway.PruneSessions` | internal/web/bots.go:283-289 | Removes exactly the expired sessions |
| `BotGateway.Gateway.SessionHistory` | internal/web/bots.go:229-235 | The kept history unless expired, always even, alternating and within the limits; the expired sessions are gone and the others unchanged |
| `BotGateway.Gateway.EvictOldest` | internal/web/bots.go:263-272 | Removes one least recently updated session |
| `BotGateway.Gateway.StoreSession` | internal/web/bots.go:250-274 | Keeps the longest even suffix that fits; every unexpired session stays as it was, except that a full table loses one least recently updated session to a new key |
| `BotGateway.Gateway.PrepareTurn` | internal/web/bots.go:147-149 | The request is one system prompt and the conversation with the prompt less the fewest oldest exchanges, and is accepted iff the prompt has at most 256 KiB |
| `BotGateway.TrimmedKeepsPrompt` | internal/web/bots.go:147-149 | The trimmed request ends with the prompt and is accepted iff the prompt has at most 256 KiB, so always for the 32 KiB a receiver lets through |
| `BotGateway.Gateway.ChatTurn` | internal/web/bots.go:147-174 | A prompt is accepted iff it has at most 256 KiB; the model is given the system prompt and the conversation with that prompt less the fewest oldest exchanges; iff answered and delivered, that conversation and the answer are kept, less the fewest oldest exchanges the session limits need; the sessions are otherwise the unexpired ones, less one least recently updated when a new conversation finds no place |
| `BotGateway.Gateway.Process` | internal/web/bots.go:124-175 | A chat message does that to its own conversation; a reset removes exactly its session, a status query exactly the expired ones, and any other command or a blank prompt changes nothing |
| `TelegramPolling.Deliver` | internal/notifications/telegram_polling.go:100-112 | The handler is called until it takes the message or polling is cancelled; its failures are reported once |
| `TelegramPolling.HandleBatch` | internal/notifications/telegram_polling.go:82-113 | Messages are taken once, in id order; no update above all earlier ones of the batch is confirmed unhandled; the branch for negative ids is never taken |
| `TelegramPolling.RetryDelayIs` | internal/notifications/telegram_polling.go:56-75 | The wait after k failures in a row is 2^(k-1) seconds, at most thirty |
| `TelegramPolling.PollTelegram` | internal/notifications/telegram_polling.go:43-115 | Over any number of polls: offsets never decrease, taken ids strictly increase, nothing is confirmed unhandled; waits double from one to thirty seconds per run of failures, are 100 ms after an empty poll, and there is none after a cancelled poll |
| `Text.BoundedIdempotentIff` | internal/audit/store.go:394-400 | Trimming and cutting twice equals once iff the cut does not end in a space |
| `Text.BoundedTwiceIsFixed` | internal/audit/store.go:394-400 | Doing it a third time never changes anything |

## Left out

- Alert provider adapters, HTTP handlers, routing, the embedded UI, request decoding, configuration, environment and command line: plumbing with one-branch claims.
- JSON, gob and gzip encodings, SHA-256, regular expressions for redaction, gofmt, external validators and subprocesses: parameters or opaque values. A log record is modelled as the value it encodes.
- A record written whose Sync then fails: an append either happens or does not.
- Short writes, records over the size limit and other I/O errors of the append: one parameter says whether it succeeds.
- Identifiers are opaque numbers in the alert store, with zero for the empty string; index keys are pairs rather than NUL-joined strings.
- `SanitizeErrorDetail`: only the bounding of the stored detail is modelled, not the redaction patterns.
- Event validation in the alert store beyond its verdict; names, severities and entities are carried but not interpreted.
- Listing and lookup operations of both stores (`Get`, `List` and the like).
- ChangeApply.ApplyPendingChange: recovery renames and removes fail only when their file is missing; symbolic links, concurrent writers, partial writes and collisions of backup names are not modelled.
- Materialize.MaterializeChangeSimulation: path rules, creatable places and the formatter are parameters; warnings and validation notes of the result are not modelled, nor are two paths of which one is a directory of the other.
- I/O failures of the corpus writer, saved cursors and `ReadCorpusJSONL`.
- CorpusWriter.Writer.Close: digests, paths and file sizes are parameters assumed valid for the manifest claim.
- RagSearch.Search: stated for faithful postings, which is what the builder makes and loading gives back; scores are reals, so rounding and the order in which a map is summed are not modelled.
- The tokenizer and the logarithm are parameters: terms are not blank, the logarithm is zero at one and strictly increasing.
- Case mapping in metadata keys is modelled for ASCII letters only; strings are sequences of characters, and invalid UTF-8 is not modelled.
- OpsAudit.AddToolEvents: the events for selected skills and retrieved documents that follow the tool events are not modelled.
- Raw JSON in audit events keeps only its text and validity; encoding may respace it.
- The negotiation that resends a model request under the other token-limit parameter is part of one request here; a reply is arbitrary.
- The tool registry's own checks (registration, policy, arguments, timeout, size): the output of a call is arbitrary and carries the call's id and name.
- Tool aliases are a given map; that the alias of every tool is distinct is not claimed.
- OpsChat.CompleteChat: exhaustion of context or result bytes is possible and only excluded as a cause of the other refusals; deadlines and cancellation are not modelled; skills enter only as texts put into the system prompt.
- The text of prompts and notifications: the messages of a planning or structuring request are some function of the question, the prefetch and the number of checks, or of the answer and the calls; tool lists and temperatures of a request are not recorded; deciding which command a bot message is.
- McpProtocol.StepKeepsInv: safety only; that a waiting request is eventually answered depends on the server and the scheduler. Messages to the server, notifications and requests from it have no state here.
- BotGateway.Gateway.Process: the answer and its delivery are parameters; fixed replies and audit records of the gateway are not modelled.
- TelegramPolling.PollTelegram: stated for every finite run of requests; decoding and authorisation are the outcome attached to an update.
- Corpus quality statistics, the VictoriaMetrics client and skill parsing.
- At most one running job at a time is not claimed: a completion whose append fails leaves its job running while the worker goes on.
