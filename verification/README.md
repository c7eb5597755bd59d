# Verification of the job board and its auto-apply worker

A Dafny model of the parts of the repository where many things can happen in many orders: the worker that applies to
jobs, the control server it talks to, the ingest of postings and their life until they are delisted, the mirror of the
local corpus, the refresh queue, the profile editor's writer, the provider budget, week keys and the board's addresses.
`dafny verify dfyconfig.toml` checks the project.

How each part is modelled:

- **Protocols** (submission, journals, the lock file, the refresh queue, link checks beside ghost passes) are state
  machines. A world holds the server, the disk, the processes and every message ever sent; `Step` is one action of one
  of them; a theorem is about every list of actions. Requests and replies may be lost, repeated, delayed and reordered,
  and a process may crash between any two file or network operations. The control server is not assumed: its
  transactions (`Control.dfy`) are those of `lib/applications/`.
- **Objects and tables changed in place** (`RevisionWriter`, the lease guard, the ingest transaction, the ghost pass,
  the merge, the push, the budget ledger) are classes. Each method is proved equal to a function of the old state, and
  the properties are proved of those functions, over all runs where the object lives through many calls.
- **Algorithms** (dedupe, pagination) are methods with loops, proved equal to functions whose laws are proved.
- **Pure code** (week keys, query strings, rebasing a draft) is functions and lemmas.

| file | models |
|---|---|
| `Control.dfy`, `ControlLaws.dfy` | the control server: leases, checkpoint events, question batches, intents, receipts; what each takes and leaves |
| `Submission.dfy`, `SubmissionProgress.dfy` | stages that submit applications, their kept receipts, and the server; where undisturbed and crashed ones end |
| `Journals.dfy`, `SharedJournals.dfy` | the worker's checkpoint and question journals, for one application and for all it serves |
| `JournalRecovery.dfy` | how a worker gets from a lease to an applied checkpoint, and from a crash to empty journals |
| `FileLock.dfy` | the lock file and its recovery |
| `LeaseGuard.dfy` | the clock-checked lease |
| `Dedupe.dfy`, `DedupeLaws.dfy`, `DedupeOrder.dfy` | collapsing reports into jobs; conservation; order independence |
| `DedupeParts.dfy`, `DedupeRows.dfy`, `DedupeShown.dfy` | how a group's sources are laid out; the rows made of them; what their order shows |
| `DedupeMerging.dfy`, `DedupeDisplay.dfy` | which reports become one job, and what its posting shows, said of the reports |
| `DedupeOutput.dfy`, `DedupeApart.dfy` | whole postings and the order of a batch; reports with nothing in common |
| `Ingest.dfy`, `IngestLaws.dfy` | storing the jobs of a batch |
| `IngestChoice.dfy`, `IngestSights.dfy` | which posting a job goes to and what it writes there; what a batch writes in the source rows |
| `IngestFates.dfy`, `IngestCases.dfy` | what later jobs of a batch do to the rows and postings of earlier ones |
| `Lifecycle.dfy`, `IngestLifecycle.dfy` | ghost passes and link checks; why they may assume what they do of ingest |
| `MergeDuplicates.dfy`, `MergeLaws.dfy` | merging stored duplicates |
| `Mirror.dfy` | pushing to the hosted database and pulling back |
| `RefreshQueue.dfy` | refresh requests |
| `Rebase.dfy`, `ProfileDrafts.dfy`, `ProfileShown.dfy` | the profile editor's writer; what it shows, keeps and sends |
| `Budget.dfy` | the structured provider's budget |
| `Decimal.dfy`, `Weeks.dfy` | ISO week keys |
| `UrlCodec.dfy`, `UrlParams.dfy`, `UrlLaws.dfy`, `UrlChoices.dfy` | the board's addresses: how they are written and read back; what they ask for |
| `Options.dfy` | options, text order, rows of a table in the order of their ids |

Seven things that the code was expected to promise turn out false of it. Each has a lemma with the run that shows it,
and the exact condition under which the promise holds (for the last, among
batches whose keys do not tie):

- *The lock file excludes every other process.* An owner that releases while a recovering process is judging its record
  opens the lock to two holders (`ReleaseUnderJudgementIsReachable`), and no other step does
  (`BreaksIffReleasedUnderJudgement`).
- *A receipt is dropped only when it was refused for good* (the comment at `worker/runtime.ts:222`). A receipt dated
  further ahead than the allowed skew is refused with 400 and dropped, though the server would take it later
  (`FutureDatedReceiptIsLost`). `RefusalMeans` and `AcceptableIff` say which refusals leave a receipt acceptable.
- *A reserved call is always charged.* A call that reserves before a UTC midnight and settles after it is never charged
  (`CallAcrossMidnightIsLost`). Nor is one that settles after its reservation ran out, once another call has reserved
  (`ExpiredReservationIsLost`); since request and body are cut off at a minute each (`worker/providers.ts:52`), that
  takes a suspended host or a moved clock. `SettlesIff` says exactly after which operations of other calls a reservation
  can still be settled: those that succeeded on its day, settled others, and reserved before it expired.
- *A complete push always leaves the mirror equal to the corpus.* It does for one corpus (`PushesConverge`), and exactly
  from a good state (`WholePushSyncsIff`); an edit undone between an interrupted push and the next leaves a bad one
  (`UndoneEditIsMissed`).
- *A batch does not delist a job that it reports, nor take its sources.* Of three jobs on one page, the first ends
  delisted as a ghost and the second listed without a source (`JobsOnOnePage`). `JobIsEmptiedIff` and `JobIsDelistedIff`
  say exactly when: later jobs pull every row the job had when it was stored; and, to be delisted, some job pulled a
  row that was at its posting before the batch, or the posting was a clone. Jobs that refer to no common stored row can do this too
  (`JobsWithoutACommonRow`), unless none of them contradicts a stored row under its own URL (`ReportedJobsStay`).
- *Unsaved edits of a writer that is not blocked always have a save coming.* Edits recovered from a draft wait for the first call of the writer, and
  nothing else makes unsaved edits wait (`SavesComeIff`).
- *The deduped output does not depend on input order* (the comment at `lib/dedupe.ts:283-285`). It can when the best
  records of two keys tie on priority, date and URL (`TiedKeysShow`). When none do, groups, keys and dates do not depend
  on it (`DedupeIgnoresBatchOrder`), but the URL that a posting shows can (`UrlDependsOnOrder`), and the whole output
  does not exactly when every final group is settled (`OrderIgnoredIff`): the record each row is made of shows the same,
  its date aside, as every other record of its key, identity and rank; tied rows first appear under different keys; and
  the records of the group's own key have one location. A batch that is unambiguous as reported has only such groups
  (`PostingsIgnoreBatchOrder`).

## Model

| member | source | states |
|---|---|---|
| Submission.SubmittedAtMostOnce | worker/application-runner.ts:43-88 | In every run from a fresh start, with crashes, lost, late and repeated messages and lease handovers, an application is submitted at most once, by the stage whose intent is the one on file; a receipt is on file only after that, and is one read off the employer's page |
| Submission.PressFollowsIntent | worker/main.ts:367-377 | Whatever step adds a submission is a press of submit, the first one, with that stage's intent already on file |
| Submission.PressIsFirst | worker/application-runner.ts:43-70 | A stage permitted to submit finds that nobody has submitted, and that the intent on file is its own |
| Submission.ReportedOnlyWithReceipt | worker/application-runner.ts:52-65 | A stage that reports `submitted` was the only one to submit, its receipt is the one on file, and the server's row says submitted |
| Submission.FailuresAreReportedTruly | worker/application-runner.ts:67-88 | In every run, a stage that has ended reports that it did not submit if and only if its intent is not on file; it has then not submitted. With its intent on file it reports `submitted` or unknown |
| Submission.StepKeepsInv | worker/runtime.ts:213-260 | Every action of stages, reconcile leases, the network and the server keeps the invariant tying intents, submissions, confirmations, kept receipts and answers together |
| Submission.AcceptableIff | lib/applications/submissions.ts:58-98 | Some later state of the server takes a receipt if and only if it matches the intent now and is either the one on file or the application is still ambiguous |
| Submission.HopelessForever | lib/applications/submissions.ts:58-98 | A receipt that the row and the intent rule out stays ruled out, whatever the server is asked afterwards |
| Submission.RefusalMeans | lib/applications/submissions.ts:58-98 | A refused receipt is still acceptable later exactly when the lease was lost, or its date is too far ahead while the application is ambiguous |
| Submission.KeptReceiptIsResolved | worker/runtime.ts:213-235 | A receipt on the worker's disk is never replaced; it goes only when it is on file, can no longer be accepted, or was refused as future-dated |
| Submission.DroppedForGood | worker/runtime.ts:219-229 | In every run, no later server would take a dropped receipt, unless it was refused as future-dated |
| Submission.AnswersClearTheDisk | worker/runtime.ts:213-235 | The answer to a kept receipt keeps it exactly when the lease was lost, and clears it otherwise |
| Submission.ReceiptsAreNotLost | worker/main.ts:377-384 | A receipt read off the page is held, by the stage, on disk or by the server, through every run in which no stage crashes while holding one and no kept one is refused for its date |
| Submission.FutureDatedReceiptIsLost | worker/runtime.ts:217-229 | A run from a fresh start in which a receipt is dropped and no longer kept, none is on file, and the server would take it later |
| SubmissionProgress.StageSubmits | worker/application-runner.ts:43-65 | A stage with a lease on a ready application that nobody disturbs files its intent, submits once more and reports that it submitted, with its receipt on file |
| SubmissionProgress.ReceiptIsReconciled | worker/runtime.ts:213-235 | An undisturbed reconciliation clears the kept receipt unless its lease is no longer live, and has it on file if the server could still take it and it is dated at most five minutes ahead |
| SubmissionProgress.FailureKeepsReceipt | worker/runtime.ts:216-228 | One that fails, or crashes in the middle, keeps the receipt |
| SubmissionProgress.CrashedStageIsGone | worker/application-runner.ts:43-88 | Whatever comes after a stage crashed, it never acts again: if it had not submitted, it never will have |
| Control.ServeKeeps | lib/applications/worker-store.ts:36-43 | Each server transaction keeps the row, the intent, the receipt and the event log consistent, and only adds facts: fences and revisions never go back, no event, intent or receipt is replaced |
| Control.EventKeeps | lib/applications/events.ts:11-55 | A checkpoint event, accepted, refused or replayed, keeps those facts |
| Control.BatchKeeps | lib/applications/questions.ts:387-460 | So does registering a batch of questions, whatever else blocks the application |
| Control.ServedKeeps | lib/applications/leases.ts:18-113 | And so does any sequence of transactions |
| ControlLaws.TransitionIff | lib/applications/state.ts:34-51 | The moves of an application, as a list of pairs of states with the evidence each needs: a move is allowed if and only if it is on the list |
| ControlLaws.EventTakenIff | lib/applications/events.ts:11-55 | A new event of the worker's own is applied if and only if its lease is held, its move allowed and its checkpoint the next, with a reason when it ends the lease; the row is then as the event says. A refusal leaves everything, but for a lease found lost, and names the first of these that fails |
| ControlLaws.OldEventIsAnswered | lib/applications/events.ts:16-26 | A repeated event is answered as it was, another command under its id is refused, a foreign one is not found; none changes anything |
| ControlLaws.BatchTakenIff | lib/applications/questions.ts:387-460 | A batch is registered if and only if its lease is held, it names the stage, the next checkpoint and the profile as it is, and fits; it then ends the lease, to hold or to screen again. One too large, foreign, or not under its lease is refused as that |
| ControlLaws.IntentTakenIff | lib/applications/submissions.ts:32-55 | An intent is filed if and only if the application is ready, its lease held, the role admitted and no intent on file; else nothing changes |
| ControlLaws.IntentRepeatedIff | lib/applications/submissions.ts:23-31 | A repeated intent is confirmed exactly while it is the one on file and its submission is under way |
| ControlLaws.ReceiptTakenIff | lib/applications/submissions.ts:58-97 | A receipt is filed if and only if it matches the intent, none is on file, it is dated at most five minutes ahead, the outcome is open and the lease live; a refusal names the first of these that fails |
| ControlLaws.PollGrantsIff | lib/applications/leases.ts:28-95 | A poll gives back a lost or read-only lease, and grants the row it then finds exactly when that is queued, at a stage or of an open outcome, under a new fence and revision |
| ControlLaws.HeartbeatIff | lib/applications/leases.ts:96-113 | A heartbeat is answered exactly while the lease is held, and changes nothing but a lease it finds lost |
| ControlLaws.EditOutdatesBatches | lib/applications/questions.ts:406-407 | A profile edit is one revision of it, and outdates every batch that names an earlier one |
| ControlLaws.StatesFollow | lib/applications/state.ts:34-51 | Whatever the server is asked: an application comes to be submitting only from ready, submitted only from an open outcome, and never leaves a final state |
| Journals.JournalsAreSafe | worker/runtime.ts:306-317 | In every run each event is applied at most once and one revision past the one it names, the two journals are never both pending, and a command recorded as rejected was never applied and never will be |
| Journals.PendingEventIsResolved | worker/runtime.ts:127-138 | No step overwrites a pending checkpoint; one that clears it does so with the event applied, or never to be accepted again |
| Journals.PendingBatchIsResolved | worker/question-client.ts:50-102 | The same for the question journal, a batch that is oversized or for an unknown application included |
| Journals.RefusedForGood | worker/question-client.ts:68-72 | A 404, 409 or 413 answer to a command that carries an id of its own and an issued revision is final |
| Journals.DeadForever | worker/question-client.ts:68-72 | A command refused for good is never applied, whatever the server is asked later |
| Journals.OnlyTakenIsApplied | lib/applications/events.ts:11-55 | A transaction adds to the event log only the command it delivers, and only when the row takes that command |
| Journals.AcceptedMeansApplied | lib/applications/events.ts:11-55 | An accepted command is in the event log, as itself |
| SharedJournals.SharedJournalsAreSafe | worker/runtime.ts:306-317 | In every run of one worker over any number of applications, whose commands share the two journals: every application keeps those promises, and of all the applications at most one has a command pending, in one of the journals |
| SharedJournals.SharedEventIsResolved | worker/runtime.ts:127-138 | No step for any application overwrites a pending checkpoint; one that clears it is for the application the checkpoint names, whose server applied it or will never accept it |
| SharedJournals.SharedBatchIsResolved | worker/question-client.ts:50-102 | The same for the question journal |
| Journals.AcknowledgementsMatch | worker/runtime.ts:127-138 | An acknowledgement that reaches the worker always matches its request: it clears the journal and never stops the worker |
| JournalRecovery.EventExchange | worker/runtime.ts:127-138 | A worker waiting on a checkpoint settles it in one undisturbed exchange if and only if it is applied, or is being recovered and answered with 409; else it goes down with the journal as it was |
| JournalRecovery.BatchExchange | worker/question-client.ts:50-102 | The same for a batch of questions: a final answer of any kind settles one being recovered, and one too large leaves its stage to go on |
| JournalRecovery.CleanRestart | worker/runtime.ts:174-187 | From a crash anywhere with nothing on disk, the worker is polling again after its recovery |
| JournalRecovery.EventRecovery | worker/runtime.ts:174-187 | From a crash anywhere with a checkpoint on disk, an undisturbed recovery ends with the checkpoint applied or dead and the worker polling, unless the answer is neither acceptance nor 409 |
| JournalRecovery.BatchRecovery | worker/question-client.ts:83-90 | From a crash with a batch on disk it ends with the batch registered or dead, unless the answer is neither acceptance nor final |
| JournalRecovery.LeaseIsWorked | worker/runtime.ts:196-324 | An undisturbed worker that is granted a lease and writes the next checkpoint for it has it applied if and only if the server takes such a move, and then polls again; else it stops with the checkpoint on disk |
| JournalRecovery.LeaseIsAsked | worker/runtime.ts:267-287 | The same with questions: registered, or too large and dropped with the stage still held, or stopped with the batch on disk |
| JournalRecovery.UnjournaledIsSent | worker/runtime.ts:288-305 | An event sent without a journal reaches the server as any other, and leaves the disk as it was |
| FileLock.QuietRunsAreSafe | worker/storage.ts:74-108 | Over any interleaving of acquire, recovery and release steps, crashes, reused pids and reboots, as long as no owner releases while another process judges its record, at most one live attempt owns the lock, and a live owner's file is removed only by its own release |
| FileLock.QuietRunsFromTheStartAreSafe | worker/storage.ts:74-108 | So in every such run that begins with an empty directory and no process |
| FileLock.BreaksIffReleasedUnderJudgement | worker/storage.ts:91-104 | A step from a safe state makes two live holders reachable exactly when it is a release of a record that another process is judging |
| FileLock.ReleaseUnderJudgementIsReachable | worker/storage.ts:83-104 | From an empty directory, a run leads to such a release |
| FileLock.StepKeepsInv | worker/storage.ts:74-108 | Every other step keeps the invariant of the file, the recovery directory and each attempt's place in `lock` |
| FileLock.AloneGetsLockIff | worker/storage.ts:74-108 | An attempt that nobody disturbs gets the lock if and only if there is no file, or one that is whole and whose maker is gone while no recovery directory is there; else it ends with file and directory as they were |
| FileLock.HolderReleases | worker/storage.ts:81-84 | A holder that nobody disturbs removes the file and nothing else |
| LeaseGuard.PassingCheckIsInTime | worker/guard.ts:25-43 | In every run of renewals, advances and checks, for clocks of equal rate and a server that read its clock no earlier than the request began, a passing check leaves more than a second of the lease by the server's clock; application, owner, worker, run and fence are the first lease's and the revision has not gone back |
| LeaseGuard.RevocationIsPermanent | worker/guard.ts:17-32 | A revoked guard stays exactly as it is whatever is called, and no check passes |
| LeaseGuard.RunIsSafe | worker/guard.ts:47-62 | Over every run the binding never changes, the revision never goes back and the reason for a revocation stays the first one |
| LeaseGuard.SlowReplyOnlyShortens | worker/guard.ts:33-43 | An accepted deadline counts from the start of the request, so each millisecond a reply takes is one the lease loses |
| LeaseGuard.AcceptsIff | worker/guard.ts:22-62 | A guard outlives a check, renewal or advance if and only if its clocks agree to two seconds over half a minute at most, the deadline has not passed, and the new lease or revision is the same application's, in numbers; what it leaves, and the reason when it does not |
| LeaseGuard.HeldIff | worker/guard.ts:22-62 | After any run a lease is still held if and only if every call of the run was such a one |
| LeaseGuard.CreatedIff | worker/guard.ts:7-45 | A guard is created exactly for the worker's own lease in a timely reply, with that reply's deadline |
| LeaseGuard.LeaseHolder.Revoke | worker/guard.ts:17-20 | The first reason stays |
| LeaseGuard.LeaseHolder.SampleClock | worker/guard.ts:22-28 | The sample and the failure are those of the specification: a clock that stopped, jumped or drifted revokes |
| LeaseGuard.LeaseHolder.CheckLease | worker/guard.ts:29-32 | A check passes exactly as specified, and fails by revoking |
| LeaseGuard.LeaseHolder.SetLeaseDeadline | worker/guard.ts:33-43 | The deadline, or the revocation, of a lease just granted |
| LeaseGuard.LeaseHolder.RenewLease | worker/guard.ts:48-53 | A renewal is accepted only for the same binding and revision |
| LeaseGuard.LeaseHolder.AdvanceLease | worker/guard.ts:55-62 | An intent moves revision and state on under the same fence; a replayed one changes nothing |
| Dedupe.GroupByKey | lib/dedupe.ts:325-372 | The loop computes the groups by exact key, in order of first appearance |
| Dedupe.FindTarget | lib/dedupe.ts:374-390 | The first kept group that may take a candidate |
| Dedupe.MergePass | lib/dedupe.ts:374-390 | One greedy pass over the groups ranked by their best records |
| Dedupe.FindRecord | lib/dedupe.ts:452-474 | The row already held under an identity |
| Dedupe.CollapseSourceUrls | lib/dedupe.ts:452-474 | One row for each publisher id or address, the best-ranked record under it with the earliest date |
| Dedupe.DedupePostings | lib/dedupe.ts:292-323 | The whole pipeline: grouping, the three passes in their order, one posting for each group |
| Dedupe.MaterializeAll | lib/dedupe.ts:322-322 | One posting for each group, in their order |
| DedupeLaws.DedupeConservesRecords | lib/dedupe.ts:292-390 | The multiset of source records in the groups is that of the batch, and no two groups share a dedupe key |
| DedupeLaws.PassConserves | lib/dedupe.ts:374-390 | Each pass conserves records, and keeps distinct keys distinct |
| DedupeLaws.GroupedKeys | lib/dedupe.ts:325-372 | Grouping gives each key one group |
| DedupeLaws.RankedIsSorted | lib/dedupe.ts:374-376 | The order in which groups are merged: none is behind a worse one |
| DedupeLaws.DedupedGroupsAreSound | lib/dedupe.ts:248-266 | After all passes every group has one company, the key of its best-ranked record and at most one id from each publisher |
| DedupeOrder.GroupsIgnoreBatchOrder | lib/dedupe.ts:292-390 | When no two keys tie, that is when the best records under two keys differ in priority, date or URL, every permutation of a batch gives, position by position, groups with the same records, key, ids and pages |
| DedupeOrder.DedupeIgnoresBatchOrder | lib/dedupe.ts:415-474 | And postings with the same dedupe key, the same posted date and the same records behind them |
| DedupeParts.PartsIgnoreBatchOrder | lib/dedupe.ts:325-390 | For every two permutations of a batch whose keys do not tie, a final group of one and its counterpart are the batch's records under the same keys, key by key in the same order, and under each key in the order of their own batch |
| DedupeOutput.OrderIgnoredIff | lib/dedupe.ts:283-323 | When keys do not tie, every permutation of a batch gives the very same postings, rows, dates, locations and URLs, in the same order, if and only if in every final group the record that each row is made of shows the same, its date aside, as the others of its key, identity and rank, tied rows first appear under different keys, and the records of the group's key share a location |
| DedupeOutput.PostingsIgnoreBatchOrder | lib/dedupe.ts:283-323 | So it does when the reports of one key, identity and rank differ only in their dates, those under two identities differ in rank or URL, and those of one key share a location |
| DedupeOutput.TiedKeysShow | lib/dedupe.ts:374-390 | Of any two reports under two keys that tie, and that no pass may merge, the postings stand in the order of the batch, so that its two orders give two outputs |
| DedupeOutput.UrlDependsOnOrder | lib/dedupe.ts:415-474 | Two reports of one id under two URLs, of one key, give one posting, whose URL is that of the report that comes first |
| DedupeShown.SettledShowTheSame | lib/dedupe.ts:415-474 | Two layouts of the same records, with their keys in one order, show the same rows in the same order when leaders and ties are settled |
| DedupeRows.CollapsedIsBest | lib/dedupe.ts:452-474 | Each row of a posting is the first of the best-ranked records under its identity, with the earliest date among all of them |
| DedupeRows.RowsStand | lib/dedupe.ts:415-416 | The rows stand by rank, and tied ones in the order in which their identities first appear among the group's sources |
| DedupeApart.ApartJobs | lib/dedupe.ts:292-323 | Reports that no pass may merge become one job each, with their own key, record and date |
| DedupeMerging.TokensAreWords | lib/dedupe.ts:170-178 | The tokens of a title are its maximal runs of letters and digits, without case |
| DedupeMerging.PassJoins | lib/dedupe.ts:374-390 | In each pass a ranked group joins the first kept group that holds the same job, said of the records: one company, no conflicting ids, and what the pass asks; one that finds none stands alone |
| DedupeMerging.TwoReportsAreOneIff | lib/dedupe.ts:292-323 | Two reports are one job if and only if they have one key, or one company, no conflicting ids, and a shared id, a shared page with an ATS report, or titles at least 0.90 alike in one place, or 0.95 alike with exactly one remote |
| DedupeDisplay.OutranksIff | lib/dedupe.ts:392-407 | Which of two reports is believed: an ATS, then an aggregator, a feed, a scraped page, a list; then the earlier date, then the lesser URL |
| DedupeDisplay.RowsAre | lib/dedupe.ts:452-474 | Every row of a posting is the first best report of its id or address, with the earliest date any of them gives; every report has its row; and no row is outranked by a later one |
| DedupeDisplay.BatchDisplays | lib/dedupe.ts:415-446 | Every posting of a batch has the key of a report of its job that none outranks, the page of its first row, the earliest date of all or of the ATS if that is later, and the location first reported under its key |
| Ingest.Database.Persist | scripts/ingest.ts:447-466 | The transaction for a batch of reports: dedupe, store each job, retire what was emptied; an empty batch changes nothing |
| Ingest.Database.StoreJobs | scripts/ingest.ts:531-727 | Storing the jobs one after another, each seeing the claims and the tables the earlier ones left |
| Ingest.Database.WriteRow | scripts/ingest.ts:548-661 | Choosing a job's row and updating it, or releasing its key and inserting one |
| Ingest.Database.MoveSources | scripts/ingest.ts:677-684 | Moving the rows a job refers to, or dropping those whose URL its posting already holds |
| Ingest.Database.UpsertSources | scripts/ingest.ts:685-718 | A row for each of the job's URLs |
| Ingest.Database.Retire | scripts/ingest.ts:720-727 | Marking the postings left without a source |
| IngestLaws.AnyBatchKeepsTables | scripts/ingest.ts:447-731 | For every batch of reports: both unique indexes and the foreign key hold afterwards, no posting is deleted, the stored URLs are exactly the old ones and the batch's, and the jobs go to distinct postings |
| IngestLaws.DedupedJobsAreDistinct | scripts/ingest.ts:466-466 | The jobs that dedupe hands to the transaction have pairwise distinct keys |
| IngestLaws.BatchKeepsTables | scripts/ingest.ts:531-727 | The same of any jobs with distinct keys |
| IngestLaws.DistinctJobsGetDistinctRows | scripts/ingest.ts:506-571 | Distinct jobs of a batch go to distinct postings |
| IngestLaws.RowIsWritten | scripts/ingest.ts:548-661 | Writing a job's row keeps the unique key even when another posting holds it, changes no source row, and never goes to a posting claimed for another key |
| IngestLaws.MovesKeepTables | scripts/ingest.ts:677-684 | Moving the rows a job refers to keeps the unique index on posting and URL, orphans no row and loses no URL |
| IngestLaws.UpsertsKeepTables | scripts/ingest.ts:685-718 | Upserting a job's sources keeps it too, leaves every other posting's rows alone, and puts each of the job's URLs at its posting |
| IngestLaws.JobIsStored | scripts/ingest.ts:548-718 | After one job its posting is claimed for its key, its URLs are all there, and everything stored before still is |
| IngestSights.UpsertsSight | scripts/ingest.ts:685-718 | Upserting a job's reports: a row at its posting under a reported URL is seen in this run, and has the source and rank of the last report that outranked it and the last id brought at its rank; a new row is as its first report says; every other row is as it was |
| IngestSights.JobSights | scripts/ingest.ts:674-718 | The same of storing one job, its rows moved first |
| IngestSights.BatchSights | scripts/ingest.ts:531-727 | After a batch, whatever row is at a job's posting under one of its URLs was seen in this run; a stored row that no job reports is as it was but for its posting; every stored row left keeps its absences, date and URL |
| IngestSights.ReportsAreSighted | scripts/ingest.ts:447-731 | The same of the reports of any batch |
| IngestLifecycle.ReportsAreIngest | scripts/ingest.ts:685-727 | Storing any batch of reports is one of the ingests over which the ghost rule holds: rows left keep their counters, new rows have new ids and count from zero, and a mark changes only to a ghost's on a posting left without a row |
| IngestChoice.ReferencesIff | scripts/ingest.ts:522-533 | A job refers to a stored row exactly when a report of it has the row's URL, or the row's publisher id at the same company, and is not another id of that publisher |
| IngestChoice.OpenIff | scripts/ingest.ts:534-546 | A posting is open to a job exactly when no other job claimed it and no report of the job contradicts the row that speaks for it: the first by priority, date, URL and id among those on its page, or among all |
| IngestChoice.ChosenIff | scripts/ingest.ts:548-561 | A job goes to the oldest open posting it refers to; without one, to the open holder of its key; without that, to its only open namesake; and to a new one exactly when there is none of these |
| IngestChoice.JobsArePlaced | scripts/ingest.ts:548-672 | Of every job of every batch: it rewrites the posting so chosen, taking names, text and page exactly when its best report ranks with the stored rows, the key if no other posting has it, and the earlier date unless every ATS date is later; or it makes a posting as reported, and frees its key |
| IngestLaws.MovesAreExact | scripts/ingest.ts:677-684 | The rows that leave their postings are exactly the referenced ones that were elsewhere |
| IngestLaws.RowKeptIff | scripts/ingest.ts:677-718 | Another posting keeps its row for a URL through a job if and only if the job does not take that row |
| IngestLaws.JobKeepsItsUrl | scripts/ingest.ts:531-718 | A job's URL is still at its posting after later jobs, when none of them refers to a stored row with that URL |
| IngestLaws.MarksChangeIff | scripts/ingest.ts:720-727 | A stored posting's mark changes exactly when its sources were moved away, or it was a clone, and it ends with none: it is then a ghost as of now, whatever its mark was |
| IngestChoice.BatchRetiresIff | scripts/ingest.ts:507-727 | A batch delists a stored posting if and only if it ends without a row and a job took one from it, or it was shadowed by a posting shown alike; every other mark stays |
| IngestFates.RowLastsIff | scripts/ingest.ts:674-718 | A row at a job's posting when the job is stored is there after any later jobs if and only if none of them refers to it from a snapshot that had it elsewhere |
| IngestFates.JobIsEmptiedIff | scripts/ingest.ts:531-727 | A reported job's posting ends the batch without a source if and only if later jobs pull every row it had |
| IngestFates.MovedFromIff | scripts/ingest.ts:507-517 | The postings to retire are exactly the clones and those that the snapshot had a pulled row at |
| IngestFates.JobIsDelistedIff | scripts/ingest.ts:674-727 | A batch delists a job it reports exactly when later jobs pull every row it had and the posting is one of those; else its mark is the one it had before |
| IngestFates.JobWithItsPageStays | scripts/ingest.ts:531-727 | A job with a URL under which no other job refers to a stored row keeps its posting, a source and its mark |
| IngestFates.UnsharedJobsStay | scripts/ingest.ts:531-727 | So does every job of a batch whose jobs refer to no common stored row, if it contradicts no stored row under its URLs |
| IngestFates.ReportedJobsStay | scripts/ingest.ts:447-731 | The same from the reports: under those two conditions no job of a deduped batch is emptied or delisted |
| IngestCases.JobsOnOnePage | scripts/ingest.ts:674-727 | Three reports of different jobs on one page, deduped to three jobs: the posting of the first ends the batch delisted as a ghost, that of the second listed without a source |
| IngestCases.JobsWithoutACommonRow | scripts/ingest.ts:674-727 | Three reports, deduped to jobs no two of which refer to one stored row: the posting of the first still ends the batch delisted |
| Lifecycle.GhostRule | scripts/ghost.ts:47-113 | After any history of ingests, merges, passes and link checks, a pass for a run with an eligible connector leaves a posting with sources and no link-check mark delisted if and only if each of its sources was missing from at least the last two passes that judged it, as a ghost of now or of whenever it was delisted |
| Lifecycle.PassJudges | scripts/ghost.ts:47-78 | A pass judges exactly the rows of connectors that ran without an error, gave all they have and had something: a row sighted in the run counts from zero, any other is missed once more, up to twice; a posting without a source stays as it is |
| Lifecycle.GhostsKeepInv | scripts/ghost.ts:68-80 | The stored counter is the unbounded count of missed passes, clamped at two |
| Lifecycle.PassDecides | scripts/ghost.ts:95-113 | So the clamped counters decide as the unbounded ones would |
| Lifecycle.IneligibleRowsAreUntouched | scripts/ghost.ts:47-80 | A connector that is not eligible in a run ages none of its rows |
| Lifecycle.GhostPassOwnsGhosts | scripts/ghost.ts:95-113 | A ghost pass never changes a link-check mark, and clears a ghost mark only when a source is back |
| Lifecycle.LinkCheckOwnsItsMarks | scripts/linkcheck.ts:392-422 | A link check, whatever ran since its snapshot, never changes a ghost mark, keeps the date of a link-check mark, and clears one only when it found the link live and had read the mark |
| Lifecycle.CheckMarksIff | scripts/linkcheck.ts:392-422 | A check delists a listed posting, as of now, if and only if it found its link dead and had not read a link-check mark; it clears a link-check mark if and only if it had read one and found the link live; all else stays |
| Lifecycle.OnlyOpenAreChecked | scripts/linkcheck.ts:331-369 | After any history, a check changes only postings it was to look at that extraction kept and no ghost pass had delisted |
| Lifecycle.AllOpenAreChecked | scripts/linkcheck.ts:331-369 | And it can change each of those |
| Lifecycle.DelistedIffReason | scripts/linkcheck.ts:392-422 | In every interleaving a posting is delisted exactly when it has a reason |
| Lifecycle.Tables.Age | scripts/ghost.ts:68-80 | The counters of eligible rows: reset when seen, else one more, up to two |
| Lifecycle.Tables.DelistGhosts | scripts/ghost.ts:92-99 | Marks, and counts, the postings whose every source is a ghost and that nobody has delisted |
| Lifecycle.Tables.RestoreReturned | scripts/ghost.ts:101-113 | Clears, and counts, the ghost marks of postings with a live source |
| Lifecycle.Tables.RunGhostPass | scripts/ghost.ts:47-117 | The whole pass; with no eligible connector it changes nothing |
| Lifecycle.Tables.WriteCheck | scripts/linkcheck.ts:392-422 | The two loops of the link check's transaction |
| MergeDuplicates.Corpus.FindDuplicateGroups | scripts/merge-duplicates.ts:87-135 | The groups to merge, in the order of their first rows |
| MergeDuplicates.Corpus.MoveSources | scripts/merge-duplicates.ts:166-193 | Each row goes to the survivor unless it holds the URL; the two counts add up to the rows |
| MergeDuplicates.Corpus.MergeGroup | scripts/merge-duplicates.ts:165-233 | One group's transaction |
| MergeDuplicates.Corpus.MergeNorm | scripts/merge-duplicates.ts:148-233 | One identity's group, if it has rows |
| MergeDuplicates.Corpus.RunMerge | scripts/merge-duplicates.ts:137-236 | The whole run, group after group |
| MergeLaws.DuplicateGroupsAreAll | scripts/merge-duplicates.ts:87-135 | A group is found exactly when two stored postings share its normalized identity and no publisher knows two of their rows under two ids; each is found once |
| MergeLaws.SurvivorFacts | scripts/merge-duplicates.ts:72-85 | The survivor is the best row of its group by the score, and the losers are all the others |
| MergeLaws.SurvivorIsKept | scripts/merge-duplicates.ts:68-85 | Said of the rows: it beats every other by being live, then by more rows, a longer description, a lower id |
| MergeLaws.SurvivorRecovers | scripts/merge-duplicates.ts:205-223 | It keeps its description, fields and enrichment, and has what it lacks from the one of the others that all others with it beat |
| MergeLaws.MergeLeavesSurvivor | scripts/merge-duplicates.ts:165-233 | After a merge the group is the one row that beats all others, with the URLs of all, the earliest date, live if any was, and with what it lacked from the others |
| MergeLaws.MergeKeepsUrls | scripts/merge-duplicates.ts:166-193 | The survivor's URLs are exactly those of the group |
| MergeLaws.MergeLeavesOthers | scripts/merge-duplicates.ts:165-233 | Every other group keeps its rows and its sources |
| MergeLaws.MergeKeepsValid | scripts/merge-duplicates.ts:165-233 | A merge keeps the unique index on posting and URL, and orphans no row |
| MergeLaws.MergeWholeDatabase | scripts/merge-duplicates.ts:137-236 | Over the whole database each group of duplicates ends as that one row, and every other group, the conflicting ones included, is as it was |
| MergeLaws.MergeIsIdempotent | scripts/merge-duplicates.ts:137-236 | A second run finds no group and changes nothing |
| Mirror.InterruptedPushKeepsGood | scripts/push-remote.ts:145-195 | A push cut off after any statement leaves every row that looks pushed on the remote |
| Mirror.WholePushSyncsIff | scripts/push-remote.ts:213-239 | A complete push leaves exactly the local ids, with equal columns that count, each recorded, if and only if every row that looked pushed was on the remote |
| Mirror.WholePushSyncs | scripts/push-remote.ts:213-239 | From such a state it always does |
| Mirror.PushesConverge | scripts/push-remote.ts:213-239 | Any number of pushes of one corpus, each interrupted anywhere, then a whole one: the remote is the corpus |
| Mirror.SyncedPushIsEmpty | scripts/push-remote.ts:145-195 | A further push issues no statement |
| Mirror.EditsAfterSyncAreGood | scripts/push-remote.ts:145-195 | Any edit of a corpus in step with the remote can be pushed |
| Mirror.FreshTargetIsGood | scripts/push-remote.ts:92-98 | So can any corpus to a target never recorded, whatever the target holds |
| Mirror.ProgramRun | scripts/push-remote.ts:213-239 | From a good state no statement of a push fails: children are deleted first and parents sent first |
| Mirror.PushSendsChanges | scripts/push-remote.ts:66-77 | A push sends exactly the rows whose recorded hash is missing or differs, deletes exactly the remote rows that are gone, and no statement is about more than a hundred |
| Mirror.RunKeepsForeignKey | scripts/push-remote.ts:213-239 | Whatever statements run, and wherever they stop, no remote source is left without its posting |
| Mirror.UndoneEditIsMissed | scripts/push-remote.ts:169-186 | An edit that reaches the remote unrecorded and is then undone leaves a difference that a complete push does not repair |
| Mirror.Pusher.DeleteStrays | scripts/push-remote.ts:70-77 | The batched loop runs exactly the delete statements |
| Mirror.Pusher.Note | scripts/push-remote.ts:179-185 | Recording a batch, row by row |
| Mirror.Pusher.SendBatch | scripts/push-remote.ts:169-186 | A batch is recorded only after the remote took it; one the remote refuses changes nothing |
| Mirror.Pusher.Send | scripts/push-remote.ts:169-186 | The batches in order, up to the first the remote refuses |
| Mirror.Pusher.ForgetGone | scripts/push-remote.ts:188-194 | The records of rows that are gone |
| Mirror.Pusher.MirrorTable | scripts/push-remote.ts:145-195 | One table's part of a push |
| Mirror.Pusher.Push | scripts/push-remote.ts:213-239 | The push runs its statements in order up to the first that fails, and ends in step with the corpus exactly when it began in a good state |
| Mirror.PullTable | scripts/pull-remote.ts:74-92 | Keyset pagination inserts each row with a positive id exactly once, and counts them |
| Mirror.NextPage | scripts/pull-remote.ts:74-92 | A page holds two hundred rows or all that are left, and what is above its last id is exactly what follows it |
| Mirror.PullIsWholeIff | scripts/pull-remote.ts:74-92 | The pull gives back the whole table if and only if no id is zero or negative |
| Mirror.PullRestores | scripts/pull-remote.ts:74-92 | From a remote in step with a corpus of positive ids, the pull gives back exactly the local ids, with equal columns that count |
| Mirror.PushedCorpusIsPulledBack | scripts/pull-remote.ts:74-92 | So after any interrupted pushes of one corpus and a whole one, for every table |
| RefreshQueue.QueueIsSafe | lib/refresh-queue.ts:19-94 | In every run, with reads and writes as separate steps and any clocks: at most one request is uncompleted, the others completed exactly once, and no two runners hold one claim |
| RefreshQueue.RequestsOnlyAdvance | lib/refresh-queue.ts:60-94 | A step leaves a request alone, claims it later than the last claim by more than the timeout, or completes a claimed one; a completed request never changes |
| RefreshQueue.SupersededFinishIsIgnored | lib/refresh-queue.ts:80-94 | A finish writes exactly when its claim is still the row's, and then it is the latest of all claims held |
| RefreshQueue.AskersShareTheActiveRequest | lib/refresh-queue.ts:36-58 | An asker is answered with the only active request, and with a new one exactly when there was none |
| RefreshQueue.StepIsLocal | lib/refresh-queue.ts:19-94 | A step changes no other asker or runner, and one that goes away leaves the rows alone |
| RefreshQueue.AskerAloneIsAnswered | lib/refresh-queue.ts:36-55 | An undisturbed asker is answered, with a new request exactly when none is active; and so is one whose active request completed before it was read |
| RefreshQueue.WaitingIsServedIff | lib/refresh-queue.ts:19-94 | An undisturbed runner claims and completes a request if and only if it is uncompleted and unclaimed, or claimed more than 130 minutes ago; else it does nothing |
| RefreshQueue.FirstWriterClaims | lib/refresh-queue.ts:61-78 | Of two runners that read one waiting request, the first to write has it and the other none |
| RefreshQueue.Table.RequestRefresh | lib/refresh-queue.ts:36-58 | The insert under the partial unique index, and the request it answers with |
| RefreshQueue.Table.ClaimRequest | lib/refresh-queue.ts:60-78 | A claim read and written without interruption succeeds exactly when the active request waits |
| RefreshQueue.Table.FinishRequest | lib/refresh-queue.ts:80-94 | The compare-and-set completion |
| Rebase.RebaseKeepsDraft | lib/profile-drafts.ts:9-34 | Rebasing a draft on an acknowledged profile changes nothing but versions and confirmations, at any depth |
| Rebase.RebasedKeepsContent | lib/profile-drafts.ts:18-33 | The same of rebasing any value on a table of versions |
| Rebase.RebasedContent | lib/profile-drafts.ts:22-31 | One object keeps its content, its id and whether it has a state |
| Rebase.ObjectsAreRebased | lib/profile-drafts.ts:9-34 | Every object that the rebase visits, at any depth, carries the version of the last acknowledged object with its id, 1 when there is none or it has none, and the acknowledged confirmation exactly when both hold the same content; any other object is as it was |
| ProfileDrafts.WriterIsSafe | lib/profile-drafts.ts:145-277 | In every interleaving of edits, flushes, pauses, retries, reconciles, a dispose and late replies, a pending request carries the acknowledged revision, at most one write of the current generation is outstanding, and one request id stands for one request |
| ProfileDrafts.StepKeepsInv | lib/profile-drafts.ts:145-277 | Every event keeps the invariant of state, flight, promises and waiting flush loops |
| ProfileDrafts.SupersededRepliesAreIgnored | lib/profile-drafts.ts:241-265 | The reply of a superseded write changes nothing but its own promise |
| ProfileDrafts.RetrySendsTheSameRequest | lib/profile-drafts.ts:196-203 | After a failure that is no refusal, a retry and a flush send the very same request |
| ProfileDrafts.PauseKeepsTheRequest | lib/profile-drafts.ts:185-195 | So they do after a pause in the middle of a write |
| ProfileDrafts.FlushReturnsClean | lib/profile-drafts.ts:223-265 | In every run, a flush that returns, after whatever events came meanwhile, to a writer neither blocked nor disposed, returns with nothing pending and with the revision and profile that the server last confirmed as revision and draft |
| ProfileDrafts.SaveKeepsComing | lib/profile-drafts.ts:180-184 | Once a timer, a write or a flush loop is coming for unsaved edits, one keeps coming until they are saved or the writer is blocked |
| ProfileDrafts.SavesComeIff | lib/profile-drafts.ts:155-184 | Over a writer's whole life, unsaved edits have a save coming if and only if it did not begin with recovered edits, or one of its methods has been called |
| ProfileDrafts.DraftFollowsServer | lib/profile-drafts.ts:173-253 | What any event makes of the draft: an edit sets it, an acknowledgement or reconciliation replaces or rebases it so, and nothing else changes it |
| ProfileShown.WriterShowsItsState | lib/profile-drafts.ts:145-277 | In every run, a writer is blocked exactly while it shows an error, shows a conflict exactly for 409, and otherwise shows that all is saved exactly when it is; it shows that it is saving only while a write is under way |
| ProfileShown.BlocksIff | lib/profile-drafts.ts:185-259 | It blocks exactly at a pause or the error of its own write, and goes on exactly at a reconciliation, or a retry that is not of a conflict |
| ProfileShown.TimerIs | lib/profile-drafts.ts:173-230 | The timer after any event |
| ProfileShown.SendsIff | lib/profile-drafts.ts:223-240 | A write starts exactly when a flush or a timer finds an unblocked writer with something unsaved and no write; it carries the pending request, or a new one of the draft for the acknowledged revision |
| ProfileShown.PendingFallsIff | lib/profile-drafts.ts:210-259 | A pending request is given up exactly when it is acknowledged, reconciled away, or refused with 400, 413 or 415, and never changes |
| ProfileShown.StaleAckBlocks | lib/profile-drafts.ts:243-259 | An acknowledgement of no later revision confirms nothing, and blocks the writer with its request kept |
| ProfileShown.DisposedIsInert | lib/profile-drafts.ts:269-276 | A disposed writer holds nothing, waits for nothing and sends nothing, whatever comes |
| ProfileDrafts.RevisionWriter.constructor | lib/profile-drafts.ts:155-164 | A new writer, or one recovered from a draft, satisfies the invariant |
| ProfileDrafts.RevisionWriter.SetDesired | lib/profile-drafts.ts:173-179 | An edit |
| ProfileDrafts.RevisionWriter.Schedule | lib/profile-drafts.ts:180-184 | The timer is set exactly when an unblocked writer has something to save |
| ProfileDrafts.RevisionWriter.Pause | lib/profile-drafts.ts:185-195 | A pause supersedes the flight and blocks, keeping the pending request |
| ProfileDrafts.RevisionWriter.Retry | lib/profile-drafts.ts:196-203 | A retry unblocks, except in a conflict |
| ProfileDrafts.RevisionWriter.Reconcile | lib/profile-drafts.ts:210-222 | Adopts the server's revision, with the draft rebased or replaced |
| ProfileDrafts.RevisionWriter.Flush | lib/profile-drafts.ts:223-230 | A flush begins a loop: it waits for the flight or starts a write |
| ProfileDrafts.RevisionWriter.Turn | lib/profile-drafts.ts:226-229 | One turn of the loop |
| ProfileDrafts.RevisionWriter.Resume | lib/profile-drafts.ts:226-229 | A loop goes on when the write it waited for has settled |
| ProfileDrafts.RevisionWriter.Start | lib/profile-drafts.ts:231-240 | The pending request is sent again, or a new one becomes pending |
| ProfileDrafts.RevisionWriter.Acknowledge | lib/profile-drafts.ts:241-253 | The reply's handler, with the rebase of later edits |
| ProfileDrafts.RevisionWriter.Catch | lib/profile-drafts.ts:254-259 | A failure blocks; a refusal of the request's form forgets it |
| ProfileDrafts.RevisionWriter.Finish | lib/profile-drafts.ts:260-265 | The flight lands |
| ProfileDrafts.RevisionWriter.Dispose | lib/profile-drafts.ts:269-276 | A disposed writer forgets its state and its flight |
| Budget.LedgerKeepsLimits | worker/providers.ts:208-252 | In every run, on any days and clocks, with settlements no larger than their reservations, spending and live reservations together stay within the day's limit, each run's within the run's, and the runs' spending adds up to the total |
| Budget.DayAddsUp | worker/providers.ts:239-251 | Over the operations of one day, in any order and number, what the ledger says was spent grows by the larger of the reserved and the actual cost of each reservation settled, and its requests by one for each |
| Budget.EmptyLedgerKeepsLimits | worker/providers.ts:202-203 | So from an empty ledger, on any day |
| Budget.ReserveKeepsInv | worker/providers.ts:222-238 | A granted reservation keeps the limits |
| Budget.SettleKeepsInv | worker/providers.ts:239-249 | A settlement no larger than its reservation keeps them |
| Budget.SettlesIff | worker/providers.ts:239-249 | After any operations of any calls, a granted reservation can be settled if and only if the settlement and every operation that succeeded are on its day, none of them settles it, and none reserves once it has expired |
| Budget.HeldIff | worker/providers.ts:222-249 | And until then it is in the ledger as it was granted; else it is gone for good |
| Budget.CallAcrossMidnightIsLost | worker/providers.ts:208-249 | A call of any cost within its limits that reserves on one UTC day and settles on another is refused, and nothing is charged |
| Budget.ExpiredReservationIsLost | worker/providers.ts:222-249 | A run from an empty ledger in which a reservation is purged by another call and its cost is never charged |
| Budget.CostWithinEstimate | worker/providers.ts:359-362 | A reply's cost is at most the estimate when its tokens are at most the bytes sent and the output is within its limit |
| Budget.ChargeIsLeast | worker/providers.ts:359-406 | A call is charged the least amount that pays for a token for each byte sent, the longest reply, and the tokens it reports; what it answers is the least that pays for those, or for the bytes when none are |
| Budget.RefusedIff | worker/providers.ts:222-238 | A reservation is refused as invalid, or as over budget, exactly when amount, limits or run are, or when it exceeds the request's limit or, with what is spent and outstanding, the day's or the run's |
| Budget.SettlementRefusedIff | worker/providers.ts:239-249 | A settlement is refused exactly for a negative amount, or when its day has no such reservation |
| Budget.PolicyAccepted | worker/providers.ts:304-316 | Ordered amounts up to ten thousand dollars are accepted, and accepted limits are ordered and never negative |
| Budget.StructuredProvider.ReserveCost | worker/providers.ts:222-238 | The reservation, or the error with the ledger as it was |
| Budget.StructuredProvider.SettleCost | worker/providers.ts:239-249 | The settlement, or the error with the ledger as it was |
| Budget.StructuredProvider.Conclude | worker/providers.ts:367-412 | Every exit of a reserved call settles once, and an exception tries the ledger again only when nothing was settled |
| Budget.StructuredProvider.Generate | worker/providers.ts:339-412 | With any operations of other calls between its reservation and its reply, a call that reserved is counted once and charged once on every path, its reservation gone, exactly when the day is the same and they spared its reservation; else nothing is charged and even a good result is lost |
| Weeks.YearStartClosedForm | lib/notes.ts:64-72 | The proleptic Gregorian day number of a year, a sum of year lengths, has the closed form of leap days |
| Weeks.WeekKeyIsIso | lib/notes.ts:64-72 | From the ISO year 1000 on, the key is the week date of ISO 8601:2004, section 4.1.4 |
| Weeks.DateIsRead | lib/notes.ts:64-66 | At every time of every Gregorian date, in any year, the date read from the instant is that date; the days of the week follow one another, the first of 1970 being a Thursday |
| Weeks.WeekInClosedForm | lib/notes.ts:64-72 | The week of a day is that of the multiple of seven days nearest to it, counted from the closed form of its year's first day |
| Weeks.EarlyYearsAreTakenForLater | lib/notes.ts:65 | A date of the years 0 to 99 gets the week of the date 1900 years later, as `Date.UTC` reads such years |
| Weeks.RangeOfKey | lib/notes.ts:75-87 | For every instant of the ISO years 1000 to 9999, the range of its key is seven days from a Monday midnight and holds it |
| Weeks.KeyOfRange | lib/notes.ts:75-87 | Every instant of an accepted range has that range's key |
| Weeks.AcceptedKeysAreWeeks | lib/notes.ts:75-87 | A key is accepted if and only if it is the key of an instant of those years |
| Weeks.Week53Accepted | lib/notes.ts:84-85 | Week 53 is accepted exactly in the years that have 53 weeks |
| Weeks.RangesDoNotOverlap | lib/notes.ts:75-87 | Two accepted keys whose ranges share an instant are one key |
| Weeks.RangesTile | lib/notes.ts:75-87 | Where a range ends the next week's begins |
| Weeks.WritableInItsOwnWeek | lib/notes.ts:173-175 | A note written by now may be changed exactly during the ISO week it was written in |
| UrlCodec.QueryReadsBack | lib/params.ts:247-263 | Parsing a written query gives its pairs back, whatever ASCII characters they hold |
| UrlCodec.SplitJoined | lib/params.ts:181-200 | Splitting a joined list gives its words back |
| UrlCodec.DecodedEncoded | lib/params.ts:247-263 | Form encoding reads back |
| UrlCodec.CharIsWritten | lib/params.ts:247-263 | Form encoding leaves exactly letters, digits and four marks as they are, writes a space as a plus and any other ASCII character as its code in two hexadecimal digits; these are read in either case |
| UrlChoices.ChosenIff | lib/params.ts:115-224 | A value is chosen under a filter exactly when the address says it there, once or in any repeat, in at most 200 characters, and the tab offers it, on the side of Design the address is on |
| UrlChoices.PostedIff | lib/params.ts:186-232 | The window is the first of those the address says, and there is none exactly when it says none |
| UrlChoices.SinglesAreRead | lib/params.ts:204-222 | The badge, the open job and the page are exactly what their parameters say within their bounds |
| UrlChoices.BareAddressIff | lib/params.ts:247-263 | The bare path is the address of exactly the first page of Design's employed side without filters or an open job |
| UrlChoices.ReplacingIsExplicit | lib/params.ts:274-282 | A state whose last filter was taken away stays unfiltered rather than fall back to saved defaults |
| UrlLaws.ParsingYieldsParsed | lib/params.ts:204-240 | Whatever the input, the parsed state holds only what its tab offers, in vocabulary order |
| UrlLaws.ListsAndRepeatsAgree | lib/params.ts:175-263 | A comma list and repeated keys, which may be comma lists themselves, with the same members in any order and with any repeats, each of at most 200 characters, are one state with one address, whatever the other parameters |
| UrlLaws.EntriesAreAscii | lib/params.ts:247-263 | Every address the board writes is ASCII |
| UrlLaws.AddressReadsBack | lib/params.ts:204-263 | For every raw input, parsing the address written for its state gives that state back |
| UrlLaws.ReplacedGroup | lib/params.ts:274-282 | Replacing a group's filter by any list sets it to the offered values that the list's joined text says, and leaves every other filter |
| UrlLaws.ReplacedByList | lib/params.ts:274-282 | So by the offered members of any list of values without commas whose text is at most 200 characters |
| UrlLaws.ToggledGroup | lib/params.ts:293-299 | Toggling an offered value changes that choice and no other filter |
| UrlLaws.TogglingTwiceRestores | lib/params.ts:293-299 | Toggling it twice, through the two addresses, restores every filter |

## Left out

- Dedupe.MergePass: groups are values in sequences, so the source's sharing of one mutable group between a map and an array is not captured; `compareSources` orders URLs by code point rather than by UTF-16 unit.
- Dedupe.GroupByKey: the normalizers, `publisherIdOf`, `canonicalSourceUrl` and the URL parser are opaque, a report carries what they return for it, and a dedupe key is the tuple that is hashed; title tokens are ASCII letters and digits, not Unicode ones.
- Ingest.Database.Persist: the display fields of the batch (best report of each URL) are a parameter, and description, source fields and coordinates are one `text`; the counts it returns are not modelled.
- Ingest.Database.StoreJobs: hashes are injective and the transaction is atomic; rows of one priority and date are ordered by the code units of their URLs, where the source uses `localeCompare`; clones are compared on a posting's `text`, which also stands for its description and coordinates, where the source's key is company, title, location and canonical URL.
- IngestLaws.JobKeepsItsUrl: one direction, about a URL; the exact condition, about rows, is `RowLastsIff`.
- IngestLaws.MarksChangeIff: in terms of the run; for the jobs of the batch `JobIsDelistedIff` says it of the rows pulled.
- DedupeOrder.DedupeIgnoresBatchOrder: keys, dates and bags of records; the rows and the URL of a posting are the subject of `OrderIgnoredIff`.
- DedupeOutput.OrderIgnoredIff: batches in which the best records of two keys tie on priority, date and URL are not covered (copies of a report, and other ties within a key, are); source rows are compared on what they hold, which is not a record's company, title, location and page, and on apply URLs only when a browser may navigate to them.
- DedupeOutput.PostingsIgnoreBatchOrder: a condition on the reports alone, which settled groups need not meet.
- Mirror.Pusher.Push: `plan` stands for what the reads of the tables find; the remote's unique indexes other than the ids, migrations and a batch applied in part are not modelled.
- Mirror.InterruptedPushKeepsGood: statements are cut off between one another, not inside a statement.
- Lifecycle.GhostRule: an ingest is any change that gives rows new ids and leaves marks and counters of the rows it keeps alone, and a merge one that only moves rows and deletes rows and postings; which links are found live or dead is a parameter.
- ProfileDrafts.WriterIsSafe: `restorePending`, and a `changed` callback that calls the writer back, are not among the events.
- Rebase.RebaseKeepsDraft: a `version` or `confirmedAt` member that is itself an object is treated as a leaf.
- LeaseGuard.PassingCheckIsInTime: clocks are reals, so non-finite samples are not modelled.
- Journals.JournalsAreSafe: one application; `SharedJournalsAreSafe` is about all that a worker serves.
- SharedJournals.SharedJournalsAreSafe: one worker process at a time, which the lock file gives up to its gap; the intervention journal, which repeats the protocol of the question journal, is not modelled.
- FileLock.QuietRunsAreSafe: a failed write leaves no readable record; a sync or close that fails once the record is wholly written is not modelled.
- Submission.KeptReceiptIsResolved: a file of kept receipts that does not parse, and is dropped, is not modelled.
- Submission.SubmittedAtMostOnce: one application; whether a lease is live is a parameter of each server transaction instead of a clock. A provider error thrown after the submission has begun, which `worker/main.ts:398-399` reports before it looks at that, is not among the failures. `runWorker`, `createStageDispatch` and `runAtsApplication` are steps of the machine rather than methods, since other processes act between any two of their awaits.
- Control.ServeKeeps: of the server's checks, those that read other tables (profile, policy, documents) are booleans of the request.
- Budget.StructuredProvider.Generate: other calls act between the reservation and the settlement, each of theirs whole; the lock around the ledger file, its `last` field, and the reply itself beyond good, bad or failed are not modelled; a ledger that cannot be read or written is not either.
- Weeks.WeekKeyIsIso: years before 1000, where the key is shorter than its pattern, have no accepted range; weekday and date are those of an instant in milliseconds.
- UrlLaws.AddressReadsBack: `Number` is a parameter that reads decimal integers as themselves; percent-decoding of non-ASCII bytes is not modelled, and no address the board writes needs it.
- UrlLaws.TogglingTwiceRestores: only values that the tab offers; toggling another is not modelled.
- MergeDuplicates.Corpus.RunMerge: the report lines and the count of recovered fields, and the dry run.
- RefreshQueue.Table.RequestRefresh: who asked and the error text of a finished request.
- The containment of failing stages, stage timeouts, heartbeats as a schedule, and the fetch loop of `runIngest` with its cursor commits.
- `DraftVault`: encryption and its generations.
- The browser, the ATS adapters, question texts, screening, and provider HTTP: only that a call may fail or repeat is used.
- Link classification and the queue of concurrent checks; only the transaction that writes their results is modelled.
- The user interface, queries, geography, text extraction, validation schemas and SQLite itself.
- Liveness: what is proved is where undisturbed runs lead (`StageSubmits`, `AloneGetsLockIff`, `LeaseIsWorked`, `EventRecovery`, `WaitingIsServedIff`, `HeldIff`) and that the loops shown end.
