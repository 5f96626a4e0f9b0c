# Models and proofs for the bot's task board

The bot runs a board on a master node: issues are dispatched to workers, workers hand in deliveries and
change sets, an automatic review accepts them or sends them back, and everything can be frozen by an emergency
stop. This project models the protocols and exact algorithms at the heart of that and proves what they keep,
over every input, every run and every interleaving.

| module | what it models |
|---|---|
| `WakeSync`, `WakeSyncTicks`, `WakeSyncRuns`, `WakeSyncHistory` | the worker's wake and pull cursor: pushed events, pulled pages, per-thread levels, snapshot and restart |
| `MergeDesk`, `MergeDeskRuns`, `MergeDeskReplies` | where a change set ends up: placed, merged, superseded, parked, queued behind a freeze, replayed on resume |
| `Rendezvous`, `RendezvousRest` | the same merge trigger one shared access at a time, with any number of triggers interleaved |
| `ResumeRace` | the freeze of a project, the queue behind it and the resumes that drain it, one access at a time, with crashes |
| `ReviewLoop`, `ReviewLoopRuns`, `ReviewLoopEnds`, `ReviewLoopStops` | one issue's review, redispatch and retry loop, the streak fuse, the worker history, stops and restarts |
| `ParentRemediation`, `PanelVote`, `DefectQueue` | rework budget of a parent, the panel of checkers, the open P0/P1 declarations |
| `AcpTurns`, `AcpCancels`, `AcpAnswers` | the editor protocol server: prompts, cancels and updates of many sessions |
| `AssetTransfer` | chunked asset download over RPC, both sides |
| `AgentProvisioning`, `AgentProvisioningRuns` | two-phase agent creation, project mirroring and the start-up sweep, with crashes |
| `Calendar` | days since the epoch to a civil date |
| `JsonEscape`, `BraceScanner` | a JSON string writer, and the scanner that finds JSON objects in free text |
| `Text`, `Wrappers` | trimming and decimals; `Option` and `Result` |

The outside world (language model verdicts, git, SQLite, the file system, digests, clocks) appears as
parameters. Code that updates state in place is a class or a loop whose contract equates the new state with a
specification function of the old one; the main results are lemmas about those functions and about runs.

## What the proofs found

Some promises hold only under a condition. Each has its exact condition, and a concrete run where it takes more
than one call to break it.

- The pull cursor may run past rows nobody saw, exactly when a reply is incomplete and no send failed: the page
  is limited and `latest_seq` is read separately (`CursorRunsPastExactlyWhenIncomplete`,
  `RowBetweenTheReadsIsLost`).
- A comment says that a failed entry is pulled again and delivered when the inbox is ready. It is pulled again,
  but it is delivered exactly when no event of its thread at least as new has arrived since, by the same tick or by
  a push (`FailedRowIsRedeliveredExactlyWhen`, `HeldBackYetLost`, `OvertakenByAPush`). With restarts, what counts
  is what has arrived and was in a snapshot before each restart (`ScannedRowWakesExactlyWhen`).
- After a restart an event can be enqueued twice exactly when one has arrived that the levels in the snapshot do
  not cover (`RestartReplaysExactlyWhen`, `StaleRestartReplays`).
- A resume lifts the freeze before it commits the human's resolution and drains the queue. The queue is left
  behind no freeze exactly when that commit fails, a pop fails, or a renewed freeze cannot be written while
  entries remain, and then no resume touches it until a conflict freezes the project again
  (`ResumeStrandsExactlyWhen`, `ResumedIntoAStrandedQueue`, `StrandedUntilFrozenAgain`).
- With a trigger and a resume interleaved no write has to fail for that: the trigger reads the freeze, the resume
  lifts it and finds the queue empty, and the trigger appends (`QueueEndsStrandedExactlyWhen`,
  `AppendedTooLate`). A process that dies in a resume strands the queue too, and a change set is lost exactly when
  the crash finds it in the hands of a trigger or a resume (`EachIsInOnePlace`, `DiedBeforeDraining`,
  `DiedWithAnEntry`).
- A dispatch that fails after its archive landed writes back without a trigger. If no trigger of the task reads
  the failure any more, the change set stays placed until the next retry (`ArchiveStaysExactlyWhen`,
  `FailedAfterItsTrigger`); one that is still under way supersedes it (`FailedDuringItsTrigger`).
- The comment at the dispatch in the redispatch arm says that the decision is recorded only after a successful
  dispatch. The code also records it before the last stop checkpoint, and the model follows the code. So a stop
  that falls between that checkpoint and the dispatch leaves a review that no release takes up again. A restart
  loses a stopped review exactly when such a decision is on record since the last dispatch, also one of an earlier
  review of the same delivery (`IssueIsLostExactlyWhen`, `StoppedWhileSending`, `ParkedAndRestarted`,
  `ResumedAndRestarted`).
- The rework budget holds for all attempts whose clock does not run behind the reset; the others spend nothing and
  never end (`BudgetHolds`, `LateClockSpendsNothing`, `LateClocksOverspend`).
- A main agent that was swept to failed stays failed: seeding, sweeping and removing all leave it
  (`FailedMainIsForGood`, `MainAgentFails`). A new project gets one agent for each time the configuration names it
  (`EveryMentionIsMirrored`, `NamedTwice`).
- An object in a comment is considered by the image scanner exactly when every brace before it is closed before
  it. One stray brace before an object hides it in any case, and everything behind it for as long as the brace is
  not closed (`ObjectIsFoundExactlyWhen`, `StrayBraceHides`).

## Model

| member | source | states |
|---|---|---|
| WakeSync.WorkerWakeState.LoadOrCreate | nemesisbot/src/board_bus.rs:1491-1511 | a snapshot restores levels, watermark and the threads taken part in; a missing one starts empty |
| WakeSync.WorkerWakeState.Peek | nemesisbot/src/board_bus.rs:1514-1516 | an event is new exactly when its number exceeds the thread's level |
| WakeSync.WorkerWakeState.Commit | nemesisbot/src/board_bus.rs:1520-1534 | raises the level of that thread only, joins the thread, and writes the snapshot if the disk allows |
| WakeSync.WorkerWakeState.AdvanceWatermark | nemesisbot/src/board_bus.rs:1542-1554 | the watermark never falls |
| WakeSync.HandleWakePost | nemesisbot/src/board_bus.rs:1658-1684 | the pushed path: a stale event is a duplicate, a failed send leaves no trace, a successful one is enqueued and committed, snapshot file included |
| WakeSync.WorkerSyncOnce | nemesisbot/src/board_bus.rs:1864-1925 | the pull loop: filter, peek, send, commit and cursor advance equal one specification tick over the whole reply, and the snapshot file holds the account of the last write that worked |
| WakeSyncTicks.WorkingInboxWakesExactly | nemesisbot/src/board_bus.rs:1864-1918 | with a working inbox exactly the fresh entries that name the worker or lie in a thread it is or becomes part of are enqueued, once and in order |
| WakeSyncTicks.DeadInboxKeepsEverything | nemesisbot/src/board_bus.rs:1859-1918 | with the inbox down nothing changes, and the failure reported is the first entry that is due, none if none is |
| WakeSyncTicks.OutageIsCaughtUp | nemesisbot/src/board_bus.rs:1859-1936 | an outage of one tick is made up by the next when nothing is pushed in between: everything due before and since is enqueued once and the cursor reaches the end |
| WakeSyncTicks.CursorRunsPastExactlyWhenIncomplete | nemesisbot/src/board_bus.rs:1018-1045 | unseen rows fall behind the cursor if and only if the reply was incomplete and no send failed |
| WakeSyncTicks.RowBetweenTheReadsIsLost | nemesisbot/src/board_bus.rs:1018-1045 | a row written between the two reads that the cursor passes and no later pull asks for |
| WakeSyncTicks.FailedEntryIsRedeliveredUnlessOvertaken | nemesisbot/src/board_bus.rs:1859-1936 | of one tick and the next with nothing pushed in between: an entry due whose send fails is on the next page, and the next working tick delivers it if and only if no later entry of its thread was due with a working send |
| WakeSyncTicks.HeldBackYetLost | nemesisbot/src/board_bus.rs:1859-1936 | two entries of one thread for which the cursor is held back and the first is still never delivered |
| WakeSyncTicks.NextPullStartsAtTheFirstFailure | nemesisbot/src/board_bus.rs:1919-1936 | after a tick over the whole backlog the next pull asks for exactly the rows from the first one that was due and did not get through |
| WakeSyncTicks.CursorKeepsBelowLatest | nemesisbot/src/board_bus.rs:1929-1936 | whatever the reply holds, the cursor neither falls nor passes the latest number |
| WakeSyncTicks.PageIsTheOldestBacklog | nemesisbot/src/board_bus.rs:1018-1045 | a page is as much of the oldest backlog as was asked for, 500 rows by default, at least one and at most 2000 |
| WakeSyncRuns.UninterruptedTickIsTick | nemesisbot/src/board_bus.rs:1799-1926 | scanning row by row without interruption is one tick, snapshot file included |
| WakeSyncRuns.ServePush | nemesisbot/src/board_bus.rs:1658-1684 | the push handler moves account, snapshot file and inbox exactly as one step of the runs |
| WakeSyncRuns.ServePull | nemesisbot/src/board_bus.rs:1799-1926 | so does one call of the pull method, as the steps of a tick that nobody interrupts |
| WakeSyncRuns.Reload | nemesisbot/src/board_bus.rs:1491-1511 | and loading the snapshot file, as a restart |
| WakeSyncRuns.RunKeeps | nemesisbot/src/board_bus.rs:1491-1936 | every interleaving of posts, pushes, pulls, failed sends, failed snapshot writes and restarts keeps the invariant |
| WakeSyncRuns.CursorNeverPassesAnUndeliveredRow | nemesisbot/src/board_bus.rs:1859-1936 | with complete replies, every row at or below the cursor was scanned and, if due, its thread has received an event at least as new |
| WakeSyncRuns.CurrentSnapshotRestoresExactly | nemesisbot/src/board_bus.rs:1491-1511 | the threads taken part in are the threads with a level, so a current snapshot restores the whole decision state |
| WakeSyncRuns.EachThreadArrivesInOrder | nemesisbot/src/board_bus.rs:1514-1534 | the numbers enqueued for one thread strictly increase over any mix of pushes, re-sends, pulls and restarts whose snapshot levels cover every arrived event |
| WakeSyncRuns.RestartReplaysExactlyWhen | nemesisbot/src/board_bus.rs:1491-1511 | a restart lets some push break that order if and only if an arrived event is not covered by the levels on disk |
| WakeSyncRuns.StaleRestartReplays | nemesisbot/src/board_bus.rs:1563-1580 | a run in which a failed snapshot write and a restart let a push arrive twice |
| WakeSyncHistory.ScannedRowWakesExactlyWhen | nemesisbot/src/board_bus.rs:1491-1918 | along every run with restarts and failed writes, a row scanned with a working inbox is enqueued if and only if it is someone else's, it names the worker or an event of its thread has arrived and outlived the restarts, and none at least as new has |
| WakeSyncHistory.PushWakesExactlyWhen | nemesisbot/src/board_bus.rs:1669-1677 | along every such run a push is enqueued if and only if no event of its thread at least as new has arrived and outlived the restarts |
| WakeSyncHistory.FailedRowIsRedeliveredExactlyWhen | nemesisbot/src/board_bus.rs:1658-1936 | after a failed send and any run without a restart, the row is on every page that reads it until an event of its thread at least as new arrives, and is delivered when scanned again if and only if none has |
| WakeSyncHistory.OvertakenByAPush | nemesisbot/src/board_bus.rs:1658-1936 | a run in which the cursor is held back and a push between the ticks keeps the failed row from ever arriving |
| MergeDesk.MergeTables.RegisterPlaced | nemesisbot/src/board_archive_ingest.rs:174-179 | landing places the change set under its task |
| MergeDesk.MergeTables.TryMerge | nemesisbot/src/board_archive_ingest.rs:513-566 | a trigger waits, halts, drops or takes the change set as the specification says |
| MergeDesk.MergeTables.Settle | nemesisbot/src/board_archive_ingest.rs:567-836 | a taken change set is parked, queued, superseded, merged or handed over, and the project frozen, as the specification says |
| MergeDesk.MergeTables.AppendPending | crates/nemesis-board/src/store.rs:1703-1732 | a task already queued is not queued again |
| MergeDesk.MergeTables.ReplayEntry | nemesisbot/src/board_archive_ingest.rs:1121-1255 | one deferred change set, branch by branch |
| MergeDesk.MergeTables.Resume | nemesisbot/src/board_archive_ingest.rs:1039-1110 | the popping loop, with every write and pop that can fail, equals the recursive replay and returns its summary or its error |
| MergeDesk.MergeTables.RetryPlacedMerges | nemesisbot/src/board_archive_ingest.rs:900-918 | every placed task is tried once, in some order |
| MergeDeskRuns.TriggerConserves | nemesisbot/src/board_archive_ingest.rs:513-767 | a trigger neither loses nor copies a change set |
| MergeDeskRuns.ResumeConserves | nemesisbot/src/board_archive_ingest.rs:1039-1110 | nor does a resume, however it ends |
| MergeDeskRuns.ReplayIsFifo | nemesisbot/src/board_archive_ingest.rs:1059-1110 | the replay takes entries in queue order, its summary counts each popped entry, and it stops early only at a conflict or a failed pop, with exactly the entries not popped left |
| MergeDeskRuns.ResumeStrandsExactlyWhen | nemesisbot/src/board_archive_ingest.rs:1039-1110 | once the freeze is lifted, the queue is left behind no freeze if and only if the commit fails with entries queued, a pop fails with entries left, or the first conflicting entry is not the last and its freeze cannot be written |
| MergeDeskRuns.ResumedIntoAStrandedQueue | nemesisbot/src/board_archive_ingest.rs:1059-1074 | a run from the opening that ends with an entry queued behind no freeze |
| MergeDeskRuns.StrandedUntilFrozenAgain | nemesisbot/src/board_archive_ingest.rs:1039-1058 | along every run a stranded queue stays as it is until a conflict freezes the project again |
| MergeDeskRuns.EveryLandingIsAccountedForOnce | nemesisbot/src/board_archive_ingest.rs:513-767 | along every run each landed change set is in exactly one place: placed, queued, or on record once |
| MergeDeskRuns.MergesAreEntitledAndSingle | nemesisbot/src/board_archive_ingest.rs:536-690 | every merge was of a done dispatch on its own baseline; nothing is merged twice or merged and also superseded, parked or handed over |
| MergeDeskRuns.SettledExactlyAsMetFirst | nemesisbot/src/board_archive_ingest.rs:513-767 | along every run a change set is merged, superseded, parked or handed to the resolver if and only if some trigger or resume met it so before anything else disposed of it, and only if it landed |
| MergeDeskReplies.MergedAsLanded | nemesisbot/src/board_archive_ingest.rs:564-700 | along every run, what is merged is the very change set that landed for the task, however long it was queued |
| MergeDeskReplies.SummaryCountsTheRecords | nemesisbot/src/board_archive_ingest.rs:1083-1110 | the summary of a resume counts exactly the merges, the supersessions and, in order, the parked tasks that it left on record |
| MergeDeskReplies.ResumeReplyTells | nemesisbot/src/board_archive_ingest.rs:1039-1110 | each other answer of a resume tells how far it got: nothing changed, only the freeze lifted, or a pop failed |
| MergeDeskReplies.AnswerTells | nemesisbot/src/board_archive_ingest.rs:505-836 | what a trigger answers is what became of the change set: merged, superseded, parked, handed over, deferred, or waiting untouched for the reason given |
| MergeDeskReplies.RetryIsTriggers | nemesisbot/src/board_archive_ingest.rs:900-918 | the round of retries is one trigger for each task, one after the other |
| MergeDeskRuns.QueueIsWhatWasDeferred | nemesisbot/src/board_archive_ingest.rs:597-836 | while nobody resumes a project, its queue grows by exactly the change sets whose triggers met it frozen, in their order, and it is frozen if and only if it was or a conflict was left to a human |
| Rendezvous.StepKeeps | nemesisbot/src/board_archive_ingest.rs:513-767 | every single access of every trigger keeps: one place per change set, one holder, no lost wake-up, one merge at a time |
| Rendezvous.NeverSettledTwice | nemesisbot/src/board_archive_ingest.rs:522-566 | in every interleaving an archive is settled at most once, and merged only when landed, done and under the pipeline |
| RendezvousRest.ArchiveStaysExactlyWhen | nemesisbot/src/board_archive_ingest.rs:536-566 | once all triggers have ended, an archive is still placed if and only if it is outside the pipeline, in flight, done with no trigger that found the stop released after it landed or had passed it before, or dead with no trigger having read that; told from the steps of the run |
| RendezvousRest.FailedAfterItsTrigger | nemesisbot/src/commands/gateway/board_dispatch.rs:172-191 | a run in which a dispatch fails after the landing trigger and the change set stays placed |
| RendezvousRest.FailedDuringItsTrigger | nemesisbot/src/board_archive_ingest.rs:539-553 | a run in which it fails while that trigger is under way and is superseded |
| RendezvousRest.StopHoldsBack | nemesisbot/src/board_archive_ingest.rs:555-563 | from a stop to its release nothing more is merged, in any interleaving, but what was past the check already |
| Rendezvous.RetryCatchesUp | nemesisbot/src/board_archive_ingest.rs:900-918 | the retry after a release settles everything the stop held back |
| Rendezvous.WhicheverLegComesLastMerges | nemesisbot/src/board_archive_ingest.rs:164-168 | with nothing in the way and all triggers ended, a task is merged if and only if it landed and its dispatch is done, whichever leg came last |
| Rendezvous.SomeTriggerCanMove | nemesisbot/src/board_archive_ingest.rs:661-662 | the serial merge lock causes no deadlock |
| Rendezvous.TriggersEnd | nemesisbot/src/board_archive_ingest.rs:513-767 | every trigger ends within six accesses |
| Rendezvous.TriggerAloneIsAtomic | nemesisbot/src/board_archive_ingest.rs:513-767 | a trigger left alone does what the one-piece trigger of the merge desk does |
| ResumeRace.QueueEndsStrandedExactlyWhen | nemesisbot/src/board_archive_ingest.rs:597-620 | along every interleaving of triggers and resumes, the queue ends behind no freeze if and only if a step stranded it and no conflict froze the project since |
| ResumeRace.SmoothRunsStrandNothing | nemesisbot/src/board_archive_ingest.rs:1059-1100 | with working writes, and each freeze read still in place at its append, no queue is stranded |
| ResumeRace.AppendedTooLate | nemesisbot/src/board_archive_ingest.rs:597-620 | a run without any failure that strands a change set |
| ResumeRace.EachIsInOnePlace | nemesisbot/src/board_archive_ingest.rs:564-1110 | in every interleaving of triggers, resumes and crashes a change set taken from the placed table is in one trigger's or resume's hands, in the queue or settled, never twice, and lost if and only if a crash finds it in someone's hands |
| ResumeRace.DiedBeforeDraining | nemesisbot/src/board_archive_ingest.rs:1060-1090 | a run in which the process dies behind the unfreeze and the queue is stranded |
| ResumeRace.DiedWithAnEntry | nemesisbot/src/board_archive_ingest.rs:1090-1100 | a run in which it dies with a popped entry, which is nowhere any more |
| ReviewLoop.FailStreakLedger.RecordAndCheck | crates/nemesis-board/src/fail_streak.rs:131-156 | counts equal signatures in a row for one issue only, and trips at three |
| ReviewLoop.FailStreakLedger.Clear | crates/nemesis-board/src/fail_streak.rs:159-165 | forgets one issue and leaves the others |
| ReviewLoop.IssueReview.ReviewIssue | nemesisbot/src/board_review.rs:821-2300 | one review with its checkpoints, self-failure retry and decision equals the specification |
| ReviewLoop.IssueReview.RedispatchArm | nemesisbot/src/board_review.rs:1690-2240 | the fuses, the record of the decision, and what can still get in the way of the dispatch, in the order of the code |
| ReviewLoopRuns.EveryVerdictIsAccountedFor | nemesisbot/src/board_review.rs:653-670 | over a whole stretch of automation each verdict but the last sent the issue out once and spoke against the delivery, failed reviews sent it nowhere, and the issue ends accepted if and only if the last round is an accepted pass |
| ReviewLoopEnds.RoundEndsExactlyAsTold | nemesisbot/src/board_review.rs:1690-2240 | told from the rounds so far: a verdict against the delivery adds a row, to the worker whose turn it is, if and only if the policy still sends back, no fuse, stop or budget is in the way and the dispatch gets through; and the issue is with a human, stopped, yielded, accepted or reviewed again each exactly for its own causes |
| ReviewLoopEnds.RoundLeavesExactly | nemesisbot/src/board_review.rs:1690-2240 | the decisions a round puts on record, whether it parks the issue, and the streak it leaves in the ledger |
| ReviewLoopEnds.WithoutRowsNobodyIsSent | nemesisbot/src/board_review.rs:2119-2142 | an issue that was never dispatched is not sent to anybody |
| ReviewLoop.LoopIsBounded | nemesisbot/src/board_review.rs:653-670 | outside unlimited mode a first delivery gets at most (max_redispatch + 1) * (failure_retries + 1) reviews and automation never makes more than max_redispatch + 1 rows |
| ReviewLoop.BoundIsReached | nemesisbot/src/board_review.rs:1467-1486 | a run that meets that bound exactly |
| ReviewLoopRuns.SameFailureStops | crates/nemesis-board/src/fail_streak.rs:30-107 | in every mode one and the same failure is sent back at most twice, an unsure verdict at most max_unsure_streak - 1 times when that is set to 1 or 2, and then the loop ends |
| ReviewLoopRuns.WorkersComeInBlocks | nemesisbot/src/board_review.rs:354-405 | the workers of an automatic history form blocks with pairwise distinct workers, all but the last of length two or more |
| ReviewLoopRuns.ThirdChanceOnlyWithoutAlternative | nemesisbot/src/board_review.rs:362-403 | after two rows in a row the next goes to the same worker if and only if no unused candidate was ranked, and otherwise to the best ranked one |
| ReviewLoopRuns.ExactlyTwoChances | nemesisbot/src/board_review.rs:354-405 | with an unused candidate always ranked, every block but the last has length exactly two |
| ReviewLoopRuns.RunsAreAutomatic | nemesisbot/src/board_review.rs:2119-2179 | the rows of every run of the loop are such a history |
| ReviewLoopStops.IssueIsLostExactlyWhen | nemesisbot/src/board_review.rs:5065-5148 | along every run of reviews, stops, releases and restarts the next thing to happen loses the issue if and only if it is a stop between the last checkpoint and the dispatch, or a restart with a decision to redispatch on record since the issue was last sent out |
| ReviewLoopStops.LostForGood | nemesisbot/src/board_review.rs:5065-5148 | what is lost stays lost |
| ReviewLoopStops.TakenUpAnew | nemesisbot/src/board_review.rs:5065-5113 | what a release or a restart takes up is a review with all its retries; the history stays, and the streak only over a release |
| ReviewLoopStops.StopLosesAReviewExactlyWhen | nemesisbot/src/board_review.rs:2030-2218 | a stop leaves a running review, resumed ones included, that no release resumes if and only if it falls between the last checkpoint and the dispatch |
| ReviewLoopStops.StoppedWhileSending | nemesisbot/src/board_review.rs:2205-2218 | a delivered issue that such a stop loses |
| ReviewLoopStops.RestartLosesParkedReviewExactlyWhen | nemesisbot/src/board_review.rs:5124-5148 | after a restart a stopped review is taken for concluded if and only if it had decided to redispatch, or its log already ended in a decision when it began |
| ReviewLoopStops.ParkedAndRestarted | nemesisbot/src/board_review.rs:5124-5148 | a delivered issue that is parked, would be resumed, and is lost by a restart |
| ReviewLoopStops.ResumedAndRestarted | nemesisbot/src/board_review.rs:5077-5148 | one that is parked, resumed, stopped at once, and lost by a restart because of the old decision |
| ParentRemediation.ParentIssue.TryParentRemediation | nemesisbot/src/board_review.rs:3314-3419 | declines without budget or under a stop, opens the child before dispatching it, and keeps it when that fails |
| ParentRemediation.BudgetHolds | nemesisbot/src/board_review.rs:3342-3357 | between two resets a parent gets no more automatic rework children than its budget has left, whatever is opened by hand, attempts with a clock behind the reset left aside |
| ParentRemediation.SpentIsTheNumberOfReworks | nemesisbot/src/board_review.rs:3342-3352 | the budget spent is the number of children with a rework title, in either spelling, dated from the reset on |
| ParentRemediation.ReplyTellsTheRound | nemesisbot/src/board_review.rs:3353-3460 | a reply names a round if and only if a child was opened and its dispatch did not fail, and then it is the number of reworks now counted, within the budget |
| ParentRemediation.LateClockSpendsNothing | nemesisbot/src/board_review.rs:3342-3352 | an attempt spends nothing if and only if its clock runs behind the reset |
| ParentRemediation.LateClocksOverspend | nemesisbot/src/board_review.rs:3342-3357 | runs that open any number of children on a budget of one |
| PanelVote.MergeReasons | nemesisbot/src/board_review.rs:2515-2529 | the two nested loops leave the notes and then every reason where it is first said |
| PanelVote.NotesCountEveryVote | nemesisbot/src/board_review.rs:2497-2523 | the notes name the checkers asked, count every vote and say how many gave no valid output |
| Text.DecimalReadsBack | nemesisbot/src/board_review.rs:2515-2523 | a number is written in decimal digits that read back as it, without a leading zero |
| Text.OnlyBlanksAreTrimmed | nemesisbot/src/board_review.rs:2524-2535 | trimming cuts blanks at both ends and nothing else |
| PanelVote.VerdictIgnoresOrder | nemesisbot/src/board_review.rs:2497-2513 | permuting the outputs keeps the verdict |
| PanelVote.VerdictIsNeutral | nemesisbot/src/board_review.rs:2497-2513 | swapping pass and fail in every vote swaps the verdict |
| PanelVote.PassingMoreNeverHurts | nemesisbot/src/board_review.rs:2497-2513 | turning a vote into a pass never undoes a pass and never causes a fail |
| PanelVote.DecisionsNeedAMajority | nemesisbot/src/board_review.rs:2497-2547 | pass or fail exactly on a strict majority of valid outputs; a request for evidence survives only without one |
| PanelVote.ReasonsAreMergedInOrder | nemesisbot/src/board_review.rs:2515-2529 | adding reasons one by one comes to all reasons at their first mention, trimmed, in order |
| PanelVote.MergedReasonsHold | nemesisbot/src/board_review.rs:2515-2529 | no non-blank reason is lost and none repeats an earlier entry |
| PanelVote.FirstFieldsAreFirst | nemesisbot/src/board_review.rs:2531-2547 | the gap, the experience and the evidence request are those of the first output that has one |
| PanelVote.UnspokenFieldsAreEmpty | nemesisbot/src/board_review.rs:2531-2547 | each of them is empty if and only if no output has one |
| PanelVote.EvidenceOnlyWhenUnsure | nemesisbot/src/board_review.rs:2531-2547 | evidence is asked for if and only if the panel is unsure and some output asks |
| DefectQueue.ScanUnclosedDefects | nemesisbot/src/board_review.rs:3177-3202 | the three nested loops equal the queue fold over all lines in scan order |
| DefectQueue.LineDeclaresExactlyWhen | nemesisbot/src/board_review.rs:3177-3200 | a line declares a defect if and only if it starts with a mark, blanks aside, under its own issue, severity and text, and closes one if and only if it starts with the closing mark in a delivery |
| DefectQueue.EveryLineIsScanned | nemesisbot/src/board_review.rs:3177-3202 | every line of every comment of every issue is scanned once, at its place |
| DefectQueue.OpenIsTheTailOfDeclared | nemesisbot/src/board_review.rs:3184-3200 | what stays open is a suffix of everything declared |
| DefectQueue.OpenCountIsTheWorstTail | nemesisbot/src/board_review.rs:3184-3200 | its length is the maximum over suffixes of declarations minus closings, the empty suffix counting nothing |
| DefectQueue.GateOpensExactlyWhen | nemesisbot/src/board_review.rs:3161-3176 | nothing stays open if and only if every suffix has at least as many closings as declarations |
| DefectQueue.OtherCommentsCloseNothing | nemesisbot/src/board_review.rs:3168-3176 | adding a comment that is not a delivery, anywhere, never leaves fewer defects open |
| AcpTurns.StepKeeps | nemesisbot/src/acp.rs:568-662 | every step of every session keeps the turn lock, the token slot and the frames consistent |
| AcpTurns.SessionSpeaksTurnByTurn | nemesisbot/src/acp.rs:602-646 | in every interleaving a session's frames are one complete block for each ended turn, one after the other, then what the turn in flight has said |
| AcpTurns.EndedBlocksAreComplete | nemesisbot/src/acp.rs:607-645 | a complete block is every update in driver order, the closing text, and last the one answer |
| AcpAnswers.EndedTurnIsAnsweredAsReturned | nemesisbot/src/acp.rs:602-646 | along every run the client reads for an ended turn every update its driver sent, then only "cancelled" if a cancel came in time, the reply and "end_turn" if the driver returned one, else the error and "refusal" |
| AcpAnswers.EachPromptIsHeardOrRejected | nemesisbot/src/acp.rs:568-600 | each well-formed prompt to an open session becomes one turn under its own request number, in order; every other prompt is rejected once |
| AcpAnswers.AtMost64Wait | nemesisbot/src/acp.rs:609-609 | at most 64 updates of a turn wait to be passed on |
| AcpAnswers.TurnsEndAfterTheirMoves | nemesisbot/src/acp.rs:602-646 | a turn takes at most seven moves and two more for each update, and has ended if and only if it has taken them all |
| AcpAnswers.OnePromptIsAnswered | nemesisbot/src/acp.rs:568-662 | a run of one prompt with an update, a reply and a cancel that comes too late, and the frames it gives |
| AcpAnswers.OnePromptIsCancelled | nemesisbot/src/acp.rs:602-662 | the same prompt cancelled in time |
| AcpTurns.CancelHitsTheTurnInFlight | nemesisbot/src/acp.rs:648-662 | a cancel takes only the token of its session's turn in flight, leaves none, and fires it once; no token taken or fired is that of a turn that has not begun |
| AcpCancels.AnsweredCancelledExactlyWhen | nemesisbot/src/acp.rs:602-662 | along every run a turn is answered cancelled if and only if a cancel of its session, and then the firing of its token, came between its registration and the return of its driver |
| AcpTurns.NoTurnIsStuck | nemesisbot/src/acp.rs:602-646 | while a turn has not ended its session can move |
| AssetTransfer.ServeChunk | nemesisbot/src/board_asset_rpc.rs:126-172 | however short the reads are, the handler returns exactly the requested piece, cut at the limits, with the right end mark |
| AssetTransfer.ChunkIsAsAsked | nemesisbot/src/board_asset_rpc.rs:126-172 | a chunk is refused if and only if the request is empty or starts at or beyond the end; else it is the file from there, cut at what was asked, at 1 MiB and at the end, and marked when it reaches the end |
| AssetTransfer.FetchViaRpc | nemesisbot/src/board_asset_tool.rs:420-522 | the download equals the specification and makes the expected requests in order |
| AssetTransfer.SuccessIsChecked | nemesisbot/src/board_asset_tool.rs:446-514 | a corollary of the method: against any provider, success means announced size, within the limit, and expected digest |
| AssetTransfer.FailureNamesItsCause | nemesisbot/src/board_asset_tool.rs:446-514 | a failing fetch names exactly what was wrong, down to the first chunk that was refused |
| AssetTransfer.FetchFromProvider | nemesisbot/src/board_asset_tool.rs:473-514 | however the file changes between chunks, a fetch succeeds if and only if it was long enough for each chunk and what was seen has the expected digest, and returns that |
| AssetTransfer.PatchedAt | nemesisbot/src/board_asset_tool.rs:471-500 | each byte returned is the byte of the file when its chunk was served |
| AssetTransfer.StableFileArrives | nemesisbot/src/board_asset_tool.rs:473-514 | a stable file within the limit arrives byte for byte |
| AssetTransfer.RequestsAreExact | nemesisbot/src/board_asset_tool.rs:471-500 | one request for each started chunk, none beyond the end or over the provider's limit |
| AgentProvisioning.AgentManager.MaterializeHome | nemesisbot/src/agents.rs:306-314 | home first, then memory; a failure or a crash leaves a prefix |
| AgentProvisioning.AgentManager.CreateAgent | nemesisbot/src/agents.rs:126-161 | record, directories, then active; a crash leaves exactly the effects it lived to see |
| AgentProvisioning.AgentManager.EnsureMainAgent | nemesisbot/src/agents.rs:166-186 | nothing when a main agent exists in any state, else the two-phase creation |
| AgentProvisioning.AgentManager.SyncProjectAgents | nemesisbot/src/agents.rs:192-228 | entries in order against the projects known at the start; the first failure ends the round |
| AgentProvisioning.AgentManager.Sweep | nemesisbot/src/agents.rs:232-267 | the sweep's effects and, when it runs to its end, its report |
| AgentProvisioning.AgentManager.Remove | nemesisbot/src/agents.rs:271-278 | a main agent cannot be removed |
| AgentProvisioningRuns.BootsAreSafe | nemesisbot/src/agents.rs:126-267 | over all boots from an empty table, with crashes between any two effects: active agents have both directories, at most one main agent, no project mirrored twice |
| AgentProvisioningRuns.SweepSettlesAll | nemesisbot/src/agents.rs:232-267 | a complete sweep leaves no provisioning record and changes no other |
| AgentProvisioningRuns.DirectoriesAreMade | nemesisbot/src/agents.rs:306-314 | home and then memory are made as far as the disk lets them, and nothing else |
| AgentProvisioningRuns.RoundOpensUpToTheFirstFailure | nemesisbot/src/agents.rs:192-228 | a round opens an active agent for each unknown project in order up to the first entry that fails, what it leaves of that entry, and the reply |
| AgentProvisioningRuns.RemovedIsGone | nemesisbot/src/agents.rs:271-278 | an agent that is not the main one is gone when removed, and nobody else |
| AgentProvisioningRuns.ReportIsExact | nemesisbot/src/agents.rs:233-266 | the report splits the old provisioning records exactly into activated and failed |
| AgentProvisioningRuns.FailedMainIsForGood | nemesisbot/src/agents.rs:166-278 | no operation and no crash ever changes a failed main agent |
| AgentProvisioningRuns.MainAgentFails | nemesisbot/src/agents.rs:166-260 | a run of two boots that ends with a failed main agent |
| AgentProvisioningRuns.EveryMentionIsMirrored | nemesisbot/src/agents.rs:196-226 | a complete round opens one agent for each mention of a project unknown at its start |
| AgentProvisioningRuns.NamedTwice | nemesisbot/src/agents.rs:196-226 | a configuration that names one new project twice and gets two agents |
| Calendar.CivilFromDaysIsExact | crates/nemesis-data/build.rs:147-159 | for every integer the algorithm gives a valid date that counts back to that integer |
| Calendar.EveryDateIsProduced | crates/nemesis-data/build.rs:147-159 | every valid date comes from its own day number |
| Calendar.DaysFollowTheCalendar | crates/nemesis-data/build.rs:147-159 | the next number gives the next calendar day |
| Calendar.DaysFromCivilIsInjective | crates/nemesis-data/build.rs:147-159 | no two valid dates share a day number |
| Calendar.EpochDay | crates/nemesis-data/build.rs:147-159 | day zero is 1 January 1970 |
| Calendar.TodayIsTheUtcDay | crates/nemesis-data/build.rs:135-144 | the stamp is the date whose day number is the number of whole days passed; seconds of one day give one date, of the next day the next date |
| JsonEscape.SerdeJsonString | nemesisbot/build.rs:221-240 | the pushing loop equals the specification literal |
| JsonEscape.QuoteReadsBack | nemesisbot/build.rs:221-240 | read by section 7 of RFC 8259, the literal gives the text back and ends at its own closing quote, whatever follows |
| JsonEscape.QuoteHasNoControls | nemesisbot/build.rs:230-236 | no raw control character is written |
| JsonEscape.OnlyTheNecessaryIsEscaped | nemesisbot/build.rs:221-240 | only quote, backslash and control characters are escaped, the five short forms in two characters and the others in six |
| BraceScanner.FindEnd | nemesisbot/src/board_review_assets.rs:51-76 | finds the shortest balanced stretch or shows that there is none; the depth never underflows |
| BraceScanner.ExtractImageBundlesFrom | nemesisbot/src/board_review_assets.rs:43-87 | the scan's spans, and one bundle for each of them that parses, in order, and no other |
| BraceScanner.BundlesOfExactlyTheSpansThatParse | nemesisbot/src/board_review_assets.rs:77-83 | the bundles accepted are those of exactly the spans that parse, one for each, in order |
| BraceScanner.BundleOfAnObjectIsReturned | nemesisbot/src/board_review_assets.rs:38-87 | the bundle of an object whose earlier braces are all closed before it is among those returned |
| BraceScanner.OneObjectIsReturned | nemesisbot/src/board_review_assets.rs:38-87 | a comment with one written object among other words gives back exactly its bundle |
| BraceScanner.SpansAreDisjointAndShortest | nemesisbot/src/board_review_assets.rs:47-87 | spans are disjoint and increasing, each the shortest balanced one, no brace between them, and the scan stops only at an unclosed brace |
| BraceScanner.ObjectIsFoundExactlyWhen | nemesisbot/src/board_review_assets.rs:38-87 | an object in a text is considered if and only if every brace met before it is closed before it |
| BraceScanner.LiteralIsQuiet | nemesisbot/src/board_review_assets.rs:57-66 | any string literal of section 7 of RFC 8259 leaves the scan where it was |
| BraceScanner.WrittenObjectIsASpan | nemesisbot/src/board_review_assets.rs:51-75 | a JSON object with any blanks and any literals is one span, whatever braces and quotes its texts hold |
| BraceScanner.QuotesAreLiterals | nemesisbot/build.rs:221-240 | what the build script writes is such a literal |
| BraceScanner.StrayBraceHides | nemesisbot/src/board_review_assets.rs:47-87 | one stray opening brace before an object hides it whatever follows, and nothing at all is found if and only if the brace is never closed |

## Left out

- Peek, send and commit of one entry are one step; the code takes the lock for peek and for commit separately.
- `WakeSyncRuns` takes each reply as complete and `WakeSyncTicks.CursorRunsPastExactlyWhenIncomplete` says when that fails.
- MergeDeskRuns.ResumeStrandsExactlyWhen: a process that dies in the middle of a resume, which strands the queue like a failed commit or pop, is modelled in `ResumeRace`.
- ResumeRace.EachIsInOnePlace: one project; which of its outcomes a merge or a replay has plays no part, except a conflict; change sets still in the placed table when the process dies are not followed.
- Rendezvous.StepKeeps: interleaved triggers are steps of a relation on values; the tables as objects are in `MergeDesk`, and `TriggerAloneIsAtomic` ties the two; a queued change set counts as settled there, and `ResumeRace` follows it on.
- Re-landing a task while its merge is in flight, `retry_merge_for_issue` on a task already pending, and a restart that empties the placed and merged tables: an archive lands once, in one process life.
- The conflict resolver after a hand-over, the review spawned after a merge, store reads that fail, other than a pop of the queue, and a queue text that does not parse.
- MergeDesk.MergeTables.Settle: the placement directory is a value read without error, because reading it twice gives the same content.
- ReviewLoop.IssueReview.ReviewIssue: the evidence round (which resets the retry count), the frozen endpoint, the human who changes the status meanwhile, budgets of the provider, comments, audit texts and store errors are not modelled; the ranked candidates are the same at the preview and at the dispatch.
- ReviewLoopRuns.SameFailureStops: signatures are a verdict and a multiset of failed anchors; that joined anchor texts could coincide is not modelled.
- The parent's and the project's closing reviews, selfcheck registry and prompt building.
- DefectQueue.ScanUnclosedDefects: splitting a comment into lines and cutting the description to 120 characters are not modelled; a defect carries its whole line.
- AcpTurns.StepKeeps: the tasks of the server interleave wherever they wait, so they are steps of a relation and not methods of an object; permission requests, a client that disconnects, and lagging event broadcasts are not modelled.
- AssetTransfer.ServeChunk: the file does not change while one chunk is served.
- AssetTransfer.FetchViaRpc: authorization, base64, writing the part file and the second digest check when it is renamed are not modelled.
- AgentProvisioning.AgentManager.CreateAgent: name and credential checks and the other columns of a record are not modelled; ids are drawn anew; directories are not deleted from outside.
- Calendar.TodayIsTheUtcDay: the text form of the date and 64-bit overflow near the end of the range, which a clock does not reach.
- BraceScanner.ExtractImageBundlesFrom: parsing a candidate and the image-name test are one parameter; the scan runs on characters instead of UTF-8 bytes, in which the four ASCII marks appear only as themselves.
- Agent factory, adapters, bridges, request logging and command-line wiring: they connect parts, move frames and parse arguments; nothing proved here depends on them.
