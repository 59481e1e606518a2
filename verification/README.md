# OmniCheck AI: verified model of the durable state machines

OmniCheck AI turns collected database output into a health-check report. Several workers, engineers and an untrusted
AI act on one job at the same time, and the repository promises that none of them loses or overwrites the work of
another. This project models the parts that carry this promise and proves what they keep, over every run.

| file | models |
|---|---|
| `Common.dfy` | white space, decimal text |
| `SectionWorkflow.dfy` | one report section: draft, review, approve, the fail-closed validator, rendering |
| `SectionPersistence.dfy`, `SectionRuns.dfy`, `SectionStore.dfy`, `SectionPromotion.dfy` | section tables with revision check and append-only log; their runs; the store object; bulk approval with others writing in between |
| `JobQueue.dfy`, `JobQueueRuns.dfy`, `JobLifecycle.dfy`, `JobLease.dfy`, `JobStore.dfy`, `SharedWorkerId.dfy` | leased job queue and event log; its interleavings; the steps of one job; which leases survive; the store object; a run with a shared worker id |
| `AiBatch.dfy`, `AiBatchRuns.dfy`, `AiBatchAccounting.dfy`, `AiBatchOutcome.dfy`, `AiBatchRepeats.dfy`, `BatchCreation.dfy`, `BatchStore.dfy` | batches of items waiting for an AI draft; their interleavings with workers and engineers; counters; a run that counts twice; which batches are created; the store object |
| `Worker.dfy`, `BatchSteps.dfy`, `WorkerDrain.dfy` | one pass over a batch; the calls as steps of the interleaved machine; the drain loop |
| `V4Report.dfy`, `V4Delivery.dfy` | building a workflow from a report and applying it back; from stored history to printed text |
| `CveVersion.dfy`, `CveMatcher.dfy`, `CveSelection.dfy`, `CveStore.dfy` | version strings; choice and decision of the CVE matcher; the rows it may use; cache, enrichment, report |
| `ArtifactRegistry.dfy`, `ArtifactGraph.dfy`, `ArtifactArchive.dfy`, `ArtifactRuns.dfy`, `ArtifactOverwrite.dfy`, `ArtifactOutputs.dfy`, `ArtifactStore.dfy` | output versions and relations; acyclicity and idempotence; copy-verify archiving over a file map; runs; a run that blocks archiving; files and their rows; the store object |
| `ScopeLedger.dfy`, `ScopeEntries.dfy` | node resolution and the Primary-only evidence ledger; what its entries say about the files |
| `History.dfy`, `HistoryChanges.dfy` | comparison of two snapshots; what the reported changes say about the records |

Tables are maps and sequences, with numbers for generated ids and for times. Every `engine.begin()` block is one
atomic step. An object that updates rows in place is a class whose methods are proved against functions on table
values; the run theorems are about those functions. A machine of interleaved steps is a sequence of steps folded over
a state, and a theorem about all runs quantifies over all such sequences.

Assumptions about the environment, each visible in the model:

- A worker id names one sequential process (`SharedWorkerId.SharedWorkerIdStrandsJob` shows what happens
  otherwise, `JobQueueRuns.StaleReadCondition` exactly when).
- `fail` reads and writes in two steps. The guard of `run_job` and the selection of `recover_stale` are taken together
  with their writes, although the source has no row lock there.
- A claim may take any claimable job, which covers rows skipped because another worker has them locked.
- A batch is taken as it is at its claim; `finalize` reads and writes in one step.
- Outside writers keep out of the archive tree, and no job writes outputs under a directory called `artifacts`
  (`ArtifactRuns.Tidy`). One registrar runs per job and does not crash between its transactions.
- SHA-256 is an injective constructor.

Where code and documentation differ, the model follows the code:

- `docs/M10_3_2_SECTION_PERSISTENCE.md:48` lets a wrong approval be revised and approved again. The revision is stored
  without running the validator, and nothing is accepted from then on: `SectionWorkflow.ReapprovalCondition` gives the
  exact condition, `SectionWorkflow.ReapprovalWitness` a run.
- `docs/M10_3_2_SECTION_PERSISTENCE.md:36` says an AI draft never reaches the report. The code renders drafts in
  documents that have one, as `docs/M14_5_AI_COMPLETE_DELIVERY.md` describes; see `SectionRuns.DeliveredTextOfDocument`.
- `finish_item` counts without looking at the item's state. Two live workers on a recovered batch over-count, and
  `finalize` then raises although every item is done: `AiBatchRepeats.RecoveredWhileAlive` is such a run,
  `AiBatchAccounting.FinalizeIffNoRepeats` the exact condition.
- `archive_due` stops at the first due artifact whose source was overwritten by a newer version:
  `ArtifactOverwrite.OverwrittenSourceBlocks` is such a run, `ArtifactArchive.ArchivesAllIff` the exact condition.
- Repeated section numbers can make a hidden item of a V4 report receive visible text:
  `V4Report.SharedNumberOverwritesHidden` is such a report, `V4Report.SafeSlotIff` the exact condition.

## Model

| member | source | states |
|---|---|---|
| SectionWorkflow.WordLanguage | src/omni_healthcheck/section_persistence.py:280-292 | The sequences of requests that all succeed on a fresh item are exactly: any mix of drafts and reviews, then approvals only if a review occurred, then at most one more draft or review; both directions |
| SectionWorkflow.ReplayFollowsPhase | src/omni_healthcheck/section_persistence.py:280-292 | A word is accepted exactly when its phase is not Refused; the item is then in that phase, at revision 1 + number of requests, with unchanged facts |
| SectionWorkflow.ValidatorBoundary | src/omni_healthcheck/section_workflow.py:64-83 | The stored item passes the fail-closed validator exactly when the last accepted request did not edit an item that had been approved; from the failing state no request of any kind is accepted |
| SectionWorkflow.LoadableMeans | src/omni_healthcheck/section_workflow.py:38-83 | Which stored items the schema and its validator accept, status by status: every fact given, no empty text, every text from its own source, the texts that the status needs, approved text selected only when approved |
| SectionWorkflow.TextsFollowHistory | src/omni_healthcheck/section_workflow.py:283-317 | Draft, review and approval present in an item are those of the last accepted draft, review and approval; approved text is selected exactly when something was approved |
| SectionWorkflow.RenderedFromHistory | src/omni_healthcheck/section_workflow.py:92-100 | For every item that loads, the rendered text is the last reviewed text if anything was approved, else the last draft, else the template |
| SectionWorkflow.ReapprovalCondition | src/omni_healthcheck/section_workflow.py:352-363 | Revising any loadable item is accepted; approving the revision afterwards is accepted exactly when no approved text was selected before (the documentation expects it always) |
| SectionWorkflow.ReapprovalWitness | docs/M10_3_2_SECTION_PERSISTENCE.md:48 | Concrete run: review, approve, review is accepted and the second approval is refused, against the documented correction procedure |
| SectionPersistence.PersistedInv | src/omni_healthcheck/section_persistence.py:126-168 | Persisting a baseline keeps: every item has a chain of revisions from its baseline that its row mirrors, one workflow per job, one row per key, and drafts only in documents that render them |
| SectionPersistence.TransitionedInv | src/omni_healthcheck/section_persistence.py:251-318 | Every transition, accepted or refused, keeps that invariant |
| SectionPersistence.ChainGrows | src/omni_healthcheck/section_persistence.py:294-309 | The appended revision has the next number and extends the chain of accepted edits |
| SectionPersistence.RequestReadBack | src/omni_healthcheck/section_persistence.py:170-176 | The request that produced a revision can be read back from the logged action and payload |
| SectionRuns.RunInv | src/omni_healthcheck/section_persistence.py:126-318 | The invariant holds after every run of persists and transitions |
| SectionRuns.HistoryAppendOnly | src/omni_healthcheck/section_persistence.py:170-176 | Whatever happens later, the revisions an item already has stay the same and in the same order |
| SectionRuns.ChainReplays | src/omni_healthcheck/section_persistence.py:294-309 | Replaying the requests of a revision chain from its baseline gives its last payload |
| SectionRuns.ReachableHistory | src/omni_healthcheck/section_persistence.py:126-176 | Every item of every run: revisions numbered 1..current, the last one is the stored payload, and facts equal the baseline in each |
| SectionRuns.ReachableWord | src/omni_healthcheck/section_persistence.py:251-318 | The logged actions of every stored item form a permitted word, and the item loads exactly when the word does not end in an edit after an approval |
| SectionRuns.DeliveredTextOfDocument | src/omni_healthcheck/section_persistence.py:178-196 | In every document that loads, the rendered text of each item is the one its action history determines; unapproved review text is never rendered |
| SectionRuns.PermittedWordHappens | src/omni_healthcheck/section_persistence.py:251-318 | Conversely every permitted word, submitted against a fresh document, is accepted request by request |
| SectionStore.SectionWorkflowStore.PersistBaseline | src/omni_healthcheck/section_persistence.py:126-168 | By the stored columns: item k of a new workflow gets the next free number and its baseline state, its first revision is logged as generated by the system, and what was stored is kept; a job with a workflow is left alone, a repeated key fails and changes nothing; the tables are those of the run theorems |
| SectionStore.SectionWorkflowStore.GetItem | src/omni_healthcheck/section_persistence.py:215-227 | Not found, payload refused by the validator, or the payload; exactly when |
| SectionStore.SectionWorkflowStore.Transition | src/omni_healthcheck/section_persistence.py:251-318 | By the stored columns: blank actor, item of another job, other revision and unreadable payload are refused in this order and nothing is written; an accepted request stores one revision more with its text in place, logs it with the actor, and switches rendering on for its workflow only; the tables are those of the run theorems |
| SectionStore.SectionWorkflowStore.ApproveAllAiDrafts | src/omni_healthcheck/section_persistence.py:320-348 | With nobody interfering, whatever the outcome: rows of other jobs, of items not in status ai_drafted and of items without a draft keep every column. On success every item of the job in status ai_drafted with a draft ends approved, two revisions later, with the texts of its draft selected, and the first count is the number of those items; the two counts make up the items of the job |
| SectionStore.PromotionApplied | src/omni_healthcheck/section_persistence.py:320-348 | Review and approval of a loadable draft with its own text are both accepted and change that item alone |
| SectionPromotion.SameRevisionSameItem | src/omni_healthcheck/section_persistence.py:251-318 | In every run, an item found at the same revision later was not written to in between |
| SectionPromotion.PromotionInterleaved | src/omni_healthcheck/section_persistence.py:320-348 | With any steps of others between listing, review and approval: the text left by an accepted review is that of the draft at listing, and the approval is accepted exactly when nobody wrote to the item after the review, otherwise refused with a revision conflict |
| SectionPromotion.ConflictLeavesReviewed | src/omni_healthcheck/section_persistence.py:320-348 | An engineer reviewing in between makes the approval conflict and leaves the item reviewed, with nothing approved |
| JobQueue.EventLogReconstructsRow | src/omni_healthcheck/database.py:179-410 | After any sequence of writes, replaying a job's event log from its creation gives its status, attempts and lease holder |
| JobQueueRuns.RunLog | src/omni_healthcheck/database.py:179-410 | The same in every interleaving of web requests, workers, crashes and recovery |
| JobQueueRuns.RunInv | src/omni_healthcheck/database.py:260-410 | Row invariant and validity of pending fail reads hold in every reachable state |
| JobQueueRuns.ReachableJobs | src/omni_healthcheck/database.py:141-152 | Running exactly when a lease holder is set; 0 <= attempts <= max; a queued job is claimable once its time has come; failed means attempts used up |
| JobLifecycle.RequestedJobWaits | src/omni_healthcheck/database.py:200-258 | Created, given evidence and enqueued, a job is queued from its creation time on with no attempt used |
| JobLifecycle.ClaimTakes | src/omni_healthcheck/database.py:260-293 | A polling worker gets a job exactly when it is queued, its time has come and attempts are left |
| JobLifecycle.FailEnds | src/omni_healthcheck/database.py:318-358 | The two steps of fail by the holder: queued again after the delay, or failed with the last attempt; the worker polls again |
| JobLifecycle.LostLeaseChangesNothing | src/omni_healthcheck/database.py:295-372 | A worker whose lease is gone changes no job, whether it completes, fails or sends a heartbeat |
| JobQueueRuns.TwoStepFailRefinesAtomic | src/omni_healthcheck/database.py:318-358 | The machine with the two-transaction fail goes through exactly the states of a machine with an atomic fail, for every interleaving |
| JobQueueRuns.StaleReadCondition | src/omni_healthcheck/database.py:326-347 | fail with any values read before leaves a row that satisfies the row invariant exactly when the read attempts are below the read maximum just as those of the row are |
| SharedWorkerId.SharedWorkerIdStrandsJob | src/omni_healthcheck/database.py:326-347 | Why one process per worker id is assumed, as writes from the empty queue: three claims under one id with two recoveries, then fail with the attempts read in the first claim; the job is queued and nothing can ever claim it |
| JobQueueRuns.StepAccounting | src/omni_healthcheck/database.py:260-410 | Every step other than an enqueue raises attempts by one exactly when it claims, and lowers the rank by one exactly when it changes the status |
| JobQueueRuns.BoundedBetweenEnqueues | src/omni_healthcheck/database.py:260-410 | Between two enqueues attempts grow by exactly the claims, the rank falls by exactly the status changes, and both are bounded; success stays |
| JobQueueRuns.SucceededForever | src/omni_healthcheck/web.py:468-478 | A succeeded job stays succeeded in every run, enqueues included |
| JobQueueRuns.RecoveredRows | src/omni_healthcheck/database.py:374-410 | Recovering a list of stale jobs changes exactly those rows |
| JobStore.DatabaseMetadataStore.ClaimNext | src/omni_healthcheck/database.py:260-293 | Claims an oldest queued job whose time has come and with attempts left: running, one attempt more, leased to the worker from now; nothing exactly when there is none; row and event are those of the run theorems |
| JobStore.DatabaseMetadataStore.OldestClaimable | src/omni_healthcheck/database.py:141-152 | The row the claim statement selects: claimable and with the least creation time; none exactly when no job is claimable |
| JobStore.DatabaseMetadataStore.Succeed | src/omni_healthcheck/database.py:295-316 | With the lease the row is succeeded, without error and lease; without it nothing changes and the lease-lost error is reported |
| JobStore.DatabaseMetadataStore.Fail | src/omni_healthcheck/database.py:318-358 | With the lease: queued again after the retry delay, or failed when the attempts are used up, lease gone, row and event given by their columns; without the lease nothing changes and the error is reported |
| JobStore.DatabaseMetadataStore.Heartbeat | src/omni_healthcheck/database.py:360-372 | Sets the claim time of the row to now exactly when the worker holds its lease, and nothing else |
| JobLease.LeaseSurvives | src/omni_healthcheck/database.py:360-410 | In every interleaving that spares the lease (its holder does not give it back, no recovery has a later cutoff), a job leased at a time or refreshed since stays running for its holder |
| JobLease.RefreshedLeaseSurvives | src/omni_healthcheck/database.py:360-410 | In every run: after a heartbeat of the holder and any sparing steps, a recovery with a cutoff not after the heartbeat does not select the job, which stays with its holder |
| JobStore.DatabaseMetadataStore.RecoverStale | src/omni_healthcheck/database.py:374-410 | By the columns: a running job claimed or refreshed at the cutoff or later keeps its row, as does a job that is not running; an older lease is taken away and the job is queued, or failed when its attempts are used up, with one event each |
| JobStore.DatabaseMetadataStore.Enqueue | src/omni_healthcheck/web.py:468-478 | Accepted exactly for draft or failed jobs with input files; attempts restart only for failed ones |
| AiBatch.NoProblem | src/omni_healthcheck/ai_batch.py:96-103 | Every line of an accepted creation names a draftable item at its current revision |
| AiBatch.FinalizeWhenAllTerminal | src/omni_healthcheck/ai_batch.py:200-212 | With exact counters, finalize succeeds exactly when every item is terminal |
| AiBatch.FinalStatusMeans | src/omni_healthcheck/ai_batch.py:204-206 | With exact counters and every item terminal: completed when all items are drafted, failed when none is, partial otherwise |
| AiBatch.FinishKeepsExact | src/omni_healthcheck/ai_batch.py:185-198 | Recording a waiting item keeps every counter equal to the number of items in its state |
| AiBatch.FinishAccounting | src/omni_healthcheck/ai_batch.py:185-198 | Recording an item again raises completed over the number of terminal items by one |
| AiBatch.ChunksCover | src/omni_healthcheck/ai_batch.py:146-149 | The chunks of create_all_generated have 1..max items, only the last may be short, and together are the list |
| AiBatchRuns.AtMostOneBatchDraft | src/omni_healthcheck/worker.py:47-102 | Over every interleaving of creations, claims, crashes, recoveries, any number of workers and human edits: at most one batch draft per item and expected revision, it is revision expected + 1, and it replaces a generated or ai_drafted revision |
| AiBatchRuns.RunInv | src/omni_healthcheck/ai_batch.py:96-103 | The invariant behind it holds after every run |
| AiBatchRuns.AcceptedDraft | src/omni_healthcheck/section_persistence.py:276-309 | An accepted draft request is answered by revision expected + 1, and none beyond expected existed |
| AiBatchOutcome.DraftedMeansWrittenOnce | src/omni_healthcheck/worker.py:71-102 | An item recorded as ai_drafted has exactly one draft written for it, however often its batch was recovered |
| AiBatchOutcome.RunOutcome | src/omni_healthcheck/worker.py:47-102 | Every write answers its batch item, and every item recorded or about to be recorded as drafted was written, in every run |
| AiBatchAccounting.CountersOffByRepeats | src/omni_healthcheck/ai_batch.py:185-198 | In every run completed exceeds the number of terminal items by exactly the repeated recordings |
| AiBatchAccounting.FinalizeIffNoRepeats | src/omni_healthcheck/ai_batch.py:200-212 | After every run the surplus of a batch, completed less its terminal items, is the number of repeated recordings; finalize succeeds exactly when the surplus equals the number of waiting items, so with all items terminal exactly when it is 0 |
| AiBatchRepeats.RecoveredWhileAlive | src/omni_healthcheck/ai_batch.py:200-212 | The run that fails: one item, claimed by A, recovered, claimed by B, recorded by both; the item is terminal, completed is 2 and finalize raises |
| AiBatchRepeats.RecordedAgainOnce | src/omni_healthcheck/ai_batch.py:185-198 | In that run exactly one recording is a repeated one |
| AiBatchAccounting.CountersExactWhenExclusive | src/omni_healthcheck/ai_batch.py:185-225 | With one live worker per batch and recovery only after its crash, completed = succeeded + fallback + conflict = number of terminal items after every step |
| AiBatchAccounting.FinalizeNeverRaises | src/omni_healthcheck/ai_batch.py:200-212 | Under the same condition a worker that recorded all its items finalizes without the error |
| BatchStore.AIDraftBatchStore.Create | src/omni_healthcheck/ai_batch.py:76-115 | Accepted exactly when the actor is named, there are 1 to max items, none twice, each a generated or ai_drafted item of the job at its current revision; then one fresh queued batch, otherwise the error of the first failing check and nothing written |
| BatchCreation.CreateProblemMeans | src/omni_healthcheck/ai_batch.py:77-103 | Which error create raises, in the order of its checks, down to the first line that does not fit |
| BatchStore.AIDraftBatchStore.WantedItems | src/omni_healthcheck/ai_batch.py:117-145 | The filter loop lists every eligible item of the job once, at its current revision, and nothing else; it fails exactly when a generated item does not load |
| BatchCreation.CollectContent | src/omni_healthcheck/ai_batch.py:117-145 | The collected list holds every eligible item once, at its current revision, and nothing else |
| BatchStore.AIDraftBatchStore.CreateAllGenerated | src/omni_healthcheck/ai_batch.py:117-149 | With nobody interfering, by the columns: the new batches hold every generated item of the job, without images of normal status unless these are asked for, each once and at its current revision, 1 to max items a batch, and nothing else; it fails, having created nothing, exactly when a generated item does not load or the actor is blank and there is an eligible item |
| BatchCreation.ChunkAccepted | src/omni_healthcheck/ai_batch.py:146-149 | No chunk of the collected list is refused by create unless the actor is blank |
| BatchStore.AIDraftBatchStore.ClaimNext | src/omni_healthcheck/ai_batch.py:172-183 | Claims the oldest queued batch of any job; nothing exactly when none is queued |
| BatchStore.AIDraftBatchStore.FinishItem | src/omni_healthcheck/ai_batch.py:185-198 | Sets the item state, raises completed and the counter of that state, whatever the state was, and refreshes the claim time |
| BatchStore.AIDraftBatchStore.FinalizeBatch | src/omni_healthcheck/ai_batch.py:200-212 | Raises exactly when completed differs from total, otherwise writes completed, failed or partial by the succeeded count |
| BatchStore.AIDraftBatchStore.RecoverStale | src/omni_healthcheck/ai_batch.py:214-225 | By the columns: a running batch claimed or touched at the cutoff or later is left alone, as is one that is not running; an older claim is taken away and the batch queued, items and counters untouched |
| BatchSteps.CreateIsStep | src/omni_healthcheck/ai_batch.py:76-115 | The creation step of the interleaved machine adds a fresh batch exactly when create accepts the request |
| BatchSteps.ClaimIsStep | src/omni_healthcheck/ai_batch.py:172-183 | Its claim step takes queued batches only and hands the worker exactly the waiting items |
| BatchSteps.RecoveryIsStep | src/omni_healthcheck/ai_batch.py:214-225 | Its recovery step over the stale batches does what the store call does |
| BatchSteps.FinalizeIsStep | src/omni_healthcheck/ai_batch.py:200-212 | Its finalize step writes the final status by the counters, or nothing when items are unfinished, and frees the worker |
| BatchSteps.ItemIsThreeSteps | src/omni_healthcheck/worker.py:47-102 | Without interference, its look and ask steps lead an item to the outcome of process_item |
| BatchSteps.OutcomeMeans | src/omni_healthcheck/worker.py:47-102 | That outcome by what is stored and drafted: fallback for an item that cannot be read or gets no draft, conflict at another revision or for a draft with an empty text, drafted otherwise |
| BatchSteps.WriteIsStep | src/omni_healthcheck/worker.py:71-102 | Its write step does what the transition of the store does and ends as drafted exactly when that is accepted |
| Worker.ProcessItem | src/omni_healthcheck/worker.py:47-102 | An item handed out as terminal is left alone; otherwise the item gets the outcome its stored state determines and no other section item changes. The section tables change exactly for a drafted outcome: one revision is logged after the expected one, with the text of the gateway, by the model asked, the vision model for an image |
| Worker.PassStep | src/omni_healthcheck/worker.py:47-102 | Processing one more ordinal extends the pass: outcomes are those of the state before the pass, because items are distinct |
| Worker.DraftApplied | src/omni_healthcheck/worker.py:71-86 | For a drafted outcome the transition is accepted and leaves the attached draft |
| WorkerDrain.RunAiBatchOnce | src/omni_healthcheck/worker.py:30-115 | Claims the oldest queued batch; raises exactly when a waiting item cannot be read, with the error of such an item, and then only the claim is written; otherwise every item ends terminal with its outcome, completed equals total and the batch gets its final status |
| WorkerDrain.Drain | src/omni_healthcheck/worker.py:272-294 | Terminates because each pass takes a batch off the queue. It stops with an exception only at a batch queued at the start with an unreadable waiting item. When the queued items are readable at the start, it ends with all delivery batches finalized exactly when none of them was running at the start, otherwise with the RuntimeError |
| WorkerDrain.PassKeepsReadable | src/omni_healthcheck/worker.py:47-102 | A pass leaves every item that loads loadable: a draft is attached only to a draftable revision |
| WorkerDrain.ReachableAsked | src/omni_healthcheck/ai_batch.py:96-103 | After every run of creations, claims, crashes, recoveries and edits each batch asks for revisions that were draftable, the condition under which readable items stay readable |
| V4Report.KeyInjective | src/omni_healthcheck/section_workflow.py:163-164 | A section key determines section number, ordinal and check id, even if numbers contain colons |
| V4Report.SameKeyMeans | src/omni_healthcheck/section_workflow.py:163-164 | Two slots have the same key exactly when section number, ordinal and check id agree |
| V4Report.EntriesAreVisibleSlots | src/omni_healthcheck/section_workflow.py:167-220 | The builder makes one entry for each visible item and nothing else |
| V4Report.EntriesRecord | src/omni_healthcheck/section_workflow.py:175-220 | Every entry records a visible item: section number, check id, node, status, texts or the default ones, evidence, trace and media by suffix, nothing drafted or approved, under the key of its place |
| V4Report.EntriesDistinct | src/omni_healthcheck/section_workflow.py:167-220 | The keys of the entries are pairwise different exactly when no two visible slots share a key |
| V4Report.BuildV4SectionWorkflow | src/omni_healthcheck/section_workflow.py:167-220 | Returns those entries in document order; fails exactly when a visible item lies in a section without a number |
| V4Report.ApplyWorkflowToV4Report | src/omni_healthcheck/section_workflow.py:223-241 | The nested overlay loops compute the overlay of the report |
| V4Report.OverlayFrame | src/omni_healthcheck/section_workflow.py:223-241 | For any workflow, applying changes no more than observation and recommendation of items that have an entry |
| V4Report.BuildThenApply | src/omni_healthcheck/section_workflow.py:167-241 | For every report: building and applying back is the identity exactly when each slot with the key of a visible slot has the texts of that slot, and these are not empty |
| V4Report.BuildThenApplyApart | src/omni_healthcheck/section_workflow.py:167-241 | When no other slot has the key of a visible one, it is the identity exactly when every visible item has both texts |
| V4Report.EditedWorkflow | src/omni_healthcheck/section_workflow.py:223-241 | A workflow with the builder's keys, however edited, reaches exactly the slots that share a key with a visible slot, and gives each the text of the item with its key |
| V4Report.SafeSlotIff | src/omni_healthcheck/section_workflow.py:223-241 | A slot, hidden or not, is left alone by every workflow with the builder's keys exactly when no visible slot has its key |
| V4Report.SharedNumberOverwritesHidden | src/omni_healthcheck/section_workflow.py:223-241 | Concrete report with a repeated section number in which a hidden item receives visible text |
| V4Delivery.SlotShowsHistory | src/omni_healthcheck/cli.py:86-89 | After any run, the report slot with the key of a stored item shows the text its accepted requests determine |
| V4Delivery.SlotUntouched | src/omni_healthcheck/cli.py:86-89 | Slots whose key is stored nowhere are printed as they were |
| V4Delivery.BuilderMakesBaseline | src/omni_healthcheck/section_workflow.py:167-220 | The builder's items are all baselines, as the run theorems assume of the documents they persist |
| V4Delivery.BuiltDocumentStored | src/omni_healthcheck/section_persistence.py:126-168 | A built document is stored for a job without a workflow exactly when no two visible slots share a key; distinct section numbers suffice |
| CveVersion.ParserIsGrammar | src/omni_healthcheck/cve.py:181-185 | The parser accepts exactly the regular expression over ASCII text and yields its group values, missing groups 0 |
| CveVersion.DisplayVersion | src/omni_healthcheck/cve.py:188-195 | The popping loop drops a zero third component only |
| CveVersion.DisplayMeans | src/omni_healthcheck/cve.py:188-195 | A readable version is shown as major.minor, with the third component only when it is not zero; anything else is shown as it is |
| CveVersion.DisplayParsesBack | src/omni_healthcheck/cve.py:181-195 | The display of every parseable version parses to the same triple |
| CveVersion.DisplayCanonical | src/omni_healthcheck/cve.py:188-195 | Displays are equal exactly when the triples are |
| CveVersion.DisplayIdempotent | src/omni_healthcheck/cve.py:188-195 | Displaying twice is displaying once, for every value |
| CveVersion.FloorIsBelow | src/omni_healthcheck/cve.py:336-343 | For an installed version without surrounding white space the inferred floor major.0 parses and is never above it |
| CveMatcher.SortThenFirst | src/omni_healthcheck/cve.py:325-330 | Stable sorting and taking the first row of a CVE picks its least row by (own product first, source priority), earliest among equals |
| CveMatcher.BestIsLeast | src/omni_healthcheck/cve.py:325-326 | The chosen row is a row of the CVE that no other is below |
| CveMatcher.OrderIndependence | src/omni_healthcheck/cve.py:325-330 | The choice is independent of the database row order exactly when the least row is unique |
| CveMatcher.OwnAdvisoryDecides | src/omni_healthcheck/cve.py:326-326 | A CVE with an advisory for the installed product is never decided by an upstream row |
| CveMatcher.MatchesAreBest | src/omni_healthcheck/cve.py:327-356 | The loop with its seen set yields exactly one match per CVE with an eligible row, decided by the least row |
| CveSelection.EligibleMeans | src/omni_healthcheck/cve.py:311-325 | Which rows the query selects, by their columns: a known CVE, the product itself or for EPAS PostgreSQL, no component, a first unaffected version, the installed major or all of them, and a source of the vendor |
| CveSelection.ForeignRowsIgnored | src/omni_healthcheck/cve.py:311-325 | Taking any rows of another major, source or product, of a component or without a first unaffected version out of the table leaves the selected rows as they are |
| CveSelection.MatchOrigin | src/omni_healthcheck/cve.py:325-352 | Every match was decided by a row of the table that may speak about the product and that no such row of its CVE precedes; CVE, bounds, source and source product are that row's |
| CveSelection.MatchedIffRelevant | src/omni_healthcheck/cve.py:317-330 | A CVE is matched exactly when a row about it may speak about the product |
| CveSelection.InferredMeans | src/omni_healthcheck/cve.py:336-343 | The lower bound is inferred exactly for EDB rows without one whose first unaffected version has the installed major, and is then major.0 |
| CveMatcher.ApplicableMeans | src/omni_healthcheck/cve.py:331-350 | applicable exactly when not rejected, about the installed product and installed (a version without surrounding white space) in [from, before) with the inferred floor; an upstream row gives at most potentially applicable |
| CveMatcher.OtherwiseMeans | src/omni_healthcheck/cve.py:344-350 | not_applicable exactly when rejected; pending_confirmation exactly when a bound or version cannot be read; fixed exactly when it can and the version is outside the range |
| CveStore.EnrichmentFrame | src/omni_healthcheck/cve.py:285-302 | Enrichment creates no entry and changes a rejected flag only by a record that states it |
| CveStore.StatedFlagWins | src/omni_healthcheck/cve.py:298-298 | The last record that states the rejected flag of a known CVE decides it |
| CveStore.FactsKept | src/omni_healthcheck/cve.py:297-299 | Enrichment adds the facts of a record to its CVE, takes none away, and leaves a CVE without a record unchanged |
| CveStore.EnrichmentDoesNotInterfere | src/omni_healthcheck/cve.py:285-302 | For every cache and every record list, matching before and after gives the same CVEs and ranges, and the same match where the rejected flag is unchanged |
| CveStore.CVECacheStore.EnrichNvd | src/omni_healthcheck/cve.py:285-302 | The loop computes the enriched entries, touches nothing else and returns the number of records whose CVE is known |
| CveStore.CVECacheStore.MatchProduct | src/omni_healthcheck/cve.py:304-356 | Over some order of exactly the eligible rows: one best match per CVE, stored over the previous ones of the job; each decided by a row that may speak about the product, and every CVE with such a row is matched |
| CveStore.CVECacheStore.MatchJob | src/omni_healthcheck/cve.py:304-357 | All products of a job, each over its own eligible rows: every match was decided by a row that may speak about its product and that no other such row of its CVE precedes, every CVE with such a row is matched, and nothing else is stored |
| CveStore.RecordedContent | src/omni_healthcheck/cve.py:353-355 | Storing matches replaces the rows of their CVEs for the job and product and leaves every other row |
| CveStore.LatestIsMaximal | src/omni_healthcheck/cve.py:359-373 | The latest release is a counting release that none is numerically above |
| CveStore.CountsMeans | src/omni_healthcheck/cve.py:366-372 | A release counts exactly when it is active, of the installed major, parseable, and of the product or of one EPAS shares releases with |
| CveStore.LatestOffered | src/omni_healthcheck/cve.py:366-373 | The latest release is such a release, and none of them is above it in the first component that differs |
| CveStore.MinorsCompareAsNumbers | src/omni_healthcheck/cve.py:359-373 | For any major and minors, the two-part versions parse and compare as their minor numbers do, so 17.10 is above 17.9 |
| CveStore.ReportFollowsUpToDate | src/omni_healthcheck/cve.py:375-392 | The report lists a CVE exactly when the installation is not up to date and its match is applicable or potentially applicable |
| ArtifactRegistry.RegisteredInv | src/omni_healthcheck/artifact_lifecycle.py:183-244 | Registration keeps: versions of each (job, type) exactly 1..n, supersedes edges exactly the consecutive pairs, derivation edges of the six kinds, no duplicate row or relation |
| ArtifactRegistry.AppendVersions | src/omni_healthcheck/application_data.py:589-596 | One more than the greatest version continues 1..n |
| ArtifactRegistry.AppendConsecutive | src/omni_healthcheck/artifact_lifecycle.py:208-217 | The new row makes exactly one new consecutive pair |
| ArtifactGraph.NoCycle | src/omni_healthcheck/artifact_lifecycle.py:113-120 | Supersedes and derived_from edges together have no cycle |
| ArtifactGraph.RegisterTwice | src/omni_healthcheck/artifact_lifecycle.py:183-244 | Registering the same files again changes nothing |
| ArtifactGraph.RegisterKnown | src/omni_healthcheck/artifact_lifecycle.py:188-206 | When every present output is registered with its present content, no artifact and no version edge is added |
| ArtifactOutputs.PresentFilesStored | src/omni_healthcheck/artifact_lifecycle.py:183-225 | After a registration every one of the output files that is present has a row of the job with its type, its key and its present content |
| ArtifactOutputs.DerivationsRecorded | src/omni_healthcheck/artifact_lifecycle.py:228-243 | Whenever both files of one of the six derivations are present, the rows of their present contents are related as derived |
| ArtifactStore.ArtifactRegistryStore.RegisterArtifact | src/omni_healthcheck/application_data.py:564-622 | A new active row with the columns of the request and a version one above all of its line, or the error for a job of another customer |
| ArtifactStore.ArtifactRegistryStore.RegisterOutputs | src/omni_healthcheck/artifact_lifecycle.py:167-244 | The loops compute the registration; fails exactly when the job is not associated and a present file is unregistered, writing nothing |
| ArtifactArchive.ArchiveRunMeans | src/omni_healthcheck/artifact_lifecycle.py:255-298 | However the loop ends, the due artifacts before the one it raised for are archived, all of them if it did not raise, and nothing else changed; archived files have their registered digest; no file outside the archive tree is touched |
| ArtifactArchive.ArchivesAllIff | src/omni_healthcheck/artifact_lifecycle.py:275-287 | The loop ends without an exception exactly when every due source still has its registered content and is copied faithfully; otherwise it stops at the first due artifact for which that fails, names it, and has archived exactly those before it |
| ArtifactOverwrite.OverwrittenSourceBlocks | src/omni_healthcheck/artifact_lifecycle.py:275-287 | The run that fails, for every output kind and any two contents: written and registered, overwritten and registered again; archiving then ends in the mismatch of version 1, both versions stay active, and every later attempt ends the same way |
| ArtifactArchive.TargetsApart | src/omni_healthcheck/artifact_lifecycle.py:266-269 | No target or temporary file of one artifact is the target of another |
| ArtifactOutputs.TurnMeans | src/omni_healthcheck/artifact_lifecycle.py:274-297 | One turn on the files: its error by source, digest and copy; only the target and the temporary file beside it can change; on success the target has the registered content and the temporary file is gone, otherwise row and target are as they were |
| ArtifactOutputs.ArchivingTouches | src/omni_healthcheck/artifact_lifecycle.py:255-298 | Archiving touches only active rows whose retention is over, whatever the files and the disk do |
| ArtifactRuns.RunInv | src/omni_healthcheck/artifact_lifecycle.py:167-344 | After every run of registrations, archivings, delete requests and outside writes: registry order, and every archived or pending_delete artifact has its file with the registered digest |
| ArtifactStore.ArtifactRegistryStore.ArchiveArtifact | src/omni_healthcheck/artifact_lifecycle.py:275-297 | One copy-verify turn: which of its failures occurs by source, digest and copy; the row is moved to the archive exactly when none does |
| ArtifactStore.ArtifactRegistryStore.ArchiveDue | src/omni_healthcheck/artifact_lifecycle.py:246-298 | Archives the due list as specified; by the columns, a row that is not active, or whose retention is not over, keeps its row, every other one only gets its archive key and status, all of them without an exception; a dry run changes nothing |
| ArtifactStore.ArtifactRegistryStore.RequestDelete | src/omni_healthcheck/artifact_lifecycle.py:308-325 | Only an archived artifact of the customer, with a reason, becomes pending_delete |
| ArtifactStore.ArtifactRegistryStore.CancelDelete | src/omni_healthcheck/artifact_lifecycle.py:327-344 | Only a pending_delete artifact returns to archived |
| ScopeLedger.ResolveNodeMeans | src/omni_healthcheck/topology.py:73-170 | A resolved node is a configured one with its role; resolved exactly with one match, unresolved exactly with none |
| ScopeEntries.ResolvedByTier | src/omni_healthcheck/topology.py:73-170 | The hosts in the path decide; only without any the services in the path do, and only without those the content; one hit resolves to that node with its role, several are ambiguous, none is unresolved |
| ScopeEntries.PathDecides | src/omni_healthcheck/topology.py:73-96 | A path that mentions exactly one hostname resolves to that node, whatever its services and content say |
| ScopeEntries.MappedEntry | src/omni_healthcheck/topology.py:316-322 | With an operator mapping, and no PEM-backend output, the entry has the domain and the node of the mapping, and is allowed exactly when that node is the Primary, excluded otherwise |
| ScopeEntries.PemBackendMeans | src/omni_healthcheck/topology.py:291-305 | What PEM-backend output is: below a PEM_check directory, no host in the path, and the one node whose service is in the path is a Witness with the service pem |
| ScopeEntries.PemEntry | src/omni_healthcheck/topology.py:306-315 | Mapped PEM-backend output is excluded database evidence of its own node, not of the mapped one |
| ScopeEntries.UnmappedEntry | src/omni_healthcheck/topology.py:323-370 | Without a mapping the entry has the domain of its file and the resolution by tier, except that an unnamed monitoring image and a sole unnamed database output go to the Primary |
| ScopeEntries.DecisionMeans | src/omni_healthcheck/topology.py:224-249 | Allowed: resolved os and monitoring evidence of any node and database evidence of the Primary; excluded: system metadata and database evidence of another node; everything else is pending |
| ScopeLedger.BuildScopeLedger | src/omni_healthcheck/topology.py:278-401 | One entry per file, each as specified and characterised by the rows of ScopeEntries; the three counts are those of the entries and add up |
| ScopeLedger.AllowedDatabaseIsPrimary | src/omni_healthcheck/topology.py:224-234 | A database entry is allowed exactly when it is resolved to the configured Primary |
| ScopeLedger.OneNamedPrimary | src/omni_healthcheck/config.py:145-147 | All resolutions to the Primary name the same host |
| ScopeLedger.PemBackendStaysOut | src/omni_healthcheck/topology.py:291-323 | PEM-backend output with an operator mapping is excluded database evidence of a Witness |
| ScopeLedger.PemBackendNeverAllowed | src/omni_healthcheck/topology.py:224-323 | PEM-backend output, mapped or not, is attributed to a Witness and never allowed database evidence |
| ScopeLedger.DefaultBindsSoleOutput | src/omni_healthcheck/topology.py:345-373 | The single-output default binds a file exactly when it is the only database entry and names no node |
| ScopeEntries.SoleMeans | src/omni_healthcheck/topology.py:345-360 | That file by the inventory: it is unmapped, classified as database and names no node, and no other file is mapped or classified as database |
| ScopeLedger.BindSole | src/omni_healthcheck/topology.py:350-373 | The two index lists and the overwrite do just that |
| ScopeLedger.LedgerPermutes | src/omni_healthcheck/topology.py:278-401 | Permuting the inventory permutes the ledger |
| ScopeLedger.CountsAddUp | src/omni_healthcheck/topology.py:390-400 | Allowed, excluded and pending entries add up to all |
| History.CompareSnapshots | src/omni_healthcheck/history.py:32-77 | The loop over the sorted keys computes the specified changes and their summary, characterised by the rows of HistoryChanges |
| History.DirectionFollowsSeverity | src/omni_healthcheck/history.py:65-66 | worsened and improved follow the order normal, pending, attention, critical, a missing assessment counting as normal; changed exactly when the two are equal then |
| HistoryChanges.EntryMeans | src/omni_healthcheck/history.py:52-68 | Every reported change, by the records of the two snapshots: added and removed by which of them checks the key, the statuses those of its last assessments; for a key in both, worsened exactly when the current status is above the prior one, improved exactly the other way round, changed when they differ but are equally severe, evidence_changed when they are the same and the evidence differs |
| HistoryChanges.ListedMeans | src/omni_healthcheck/history.py:52-68 | No change is reported for a key exactly when neither snapshot checks it, or both do with the same last evidence and status |
| HistoryChanges.SortedByNode | src/omni_healthcheck/history.py:52-52 | The changes are sorted by node and then check id in the order of Python text |
| HistoryChanges.SummaryMeans | src/omni_healthcheck/history.py:69-69 | Each count of the summary is the number of changes of its kind |
| History.ComparisonIsDual | src/omni_healthcheck/history.py:42-77 | Swapping the snapshots gives the dual change at every place and the dual summary |
| History.ListedIffNotUnchanged | src/omni_healthcheck/history.py:52-68 | A key is absent exactly when no snapshot has it or both have it with equal status and evidence |
| History.ListedOnceInOrder | src/omni_healthcheck/history.py:52-52 | Changes are in key order, no key twice |
| History.OrderedUnique | src/omni_healthcheck/history.py:52-52 | The sorted key list is determined by its set of keys, whichever snapshot comes first |
| History.SelfComparisonIsEmpty | src/omni_healthcheck/history.py:42-77 | A snapshot compared with itself shows no change |
| History.SummaryAddsUp | src/omni_healthcheck/history.py:69-69 | The five counts and the uncounted changed entries make up all changes |

## Left out

- BatchStore.AIDraftBatchStore.CreateAllGenerated: nobody acts between the list read and the chunk creations in the method; a creation that meets changed items is a `CreateBatch` step of `AiBatchRuns`.
- SectionStore.SectionWorkflowStore.ApproveAllAiDrafts: nobody acts between its transactions in the method; `SectionPromotion` states what holds for one item when others do.
- Web routes, sessions, roles and uploads, apart from the guard and the update of `run_job`.
- The model call itself: a draft, or none, is any function of the item; prompts, sanitising, audit rows and stale discards are not modelled.
- Threads of the heartbeat and of the image pool: `Worker.ProcessList` takes image items one at a time; their concurrency is covered by the interleaved steps of `AiBatchRuns`.
- Time: `updated_at` and completion times, retention arithmetic, lease and polling delays; times are numbers passed in.
- JSON payloads, content digests of revisions, event details beyond what a replay needs, and the order in which lists are returned.
- `AIDraftBatchStore` with a limit outside 1..20, `vision_concurrency` outside 1..4, non-positive retention or staleness: refused with ValueError before anything happens.
- White space and digits outside ASCII, Python's limit on the length of integers in text, and case folding, which is a parameter.
- Regular-expression matching of host names, domain classification, `PEM_check` path parts and derived check ids: their results are inputs; of check ids only that they are not empty and hold no colon.
- `build_section_workflow` and `apply_approved_narratives`: the flat counterparts of the V4 builder and overlay.
- `import_snapshot`, release notes, end-of-life messages, staleness of the cached snapshot and the wording of the report.
- Advisory scores and texts are one value per CVE; `match_job` receives the product versions found by `parse_product_versions`.
- Symbolic links and unsafe storage keys (`_safe_path`, `_storage_key`), file sizes and media types of artifacts.
- The system id of an artifact and its foreign keys: a job is associated with a customer only.
- `build_job_history` and its choice of the predecessor job.
- Crashes between the artifact row and its relation rows: the version chain theorem is for runs without them.
- `config_compare.py`, `quality.py`, `v4_quality.py`, `pipeline_persistence.py`, parsers, rules, rendering: counting or single-branch checks, or text processing.
