# Incident diagnosis: a verified model

The system ingests runbooks into a vector index and investigates incidents with a bounded agent. An API
writes rows, workers take messages from a queue that may deliver a message any number of times, any
process may stop anywhere, and a sweep sends new messages for rows left behind. This project models the
parts of it that carry the hard guarantees and proves them.

`dafny verify dfyconfig.toml` checks everything.

## How it is laid out

**Rows and protocols.** `RunRows` and `DocumentRows` hold the conditional updates as functions on the
tables and as classes whose methods are proved equal to them. `RunProtocol`, `RunTimeline` and
`IngestProtocol` are transition systems over those functions: rows, a bag of messages, workers at
their program points, the chunk index and one monotone clock. The read-back of the attempt count is a
step of its own, a bulk or delete request may land partly, and a delete removes only what a refresh has
shown. A property is stated for every finite behaviour. `Reconcile` is the sweep: its policy, its SQL predicates and its loop.
`SearchIndex`, `IngestHandler` and `StepReport` are the imperative handlers over the same rows and index.
`DeliveryPath` and `AttemptPath` (over `Paths`) show that what they and the agent loop do, in the time each
call takes, is what the protocols allow. `TimedAttempt` and `TimedDelivery` show that the settings keep it
inside the lease, on that path and in every behaviour of any number of workers each of which acts when its
own work gets to it. `Superseded` follows a worker that reads back too late.

**The agent.** `AgentLoop` is the loop as a class with the original's fields; the model, the tools, the
report callback and the moment of cancellation are arbitrary functions of how many calls were made before,
which covers every adaptive environment one run can meet; its clock is exactly the sum of the calls it
makes. `RunTime` runs the slowest world, which shows the loop's time bound to be sharp. `AgentContext`
builds and measures prompts, `TokenAllowance` says which overhead keeps every run off the token bound,
`Evidence` resolves citations, `Retry` is the client's retry loop and `WorkerConfig` the settings that make
an attempt end inside its lease.

**Data shaping.** `Parse`, `Packing`, `GreedyPacking` and `Chunking` turn a document into chunks,
`MergedHeadings` says which heading paths a merged chunk still shows,
`Summary` is the UTF-8 cap, `LogScan` the windowed log reader, `Streams` the event stream and its
followers, `Embedding` the re-pairing of vectors with texts, `Paging` the cursor walk.

## Where the code and its documentation disagree

Each of these comes with a concrete input, and beside it the exact condition.

- The lease does not by itself fence a run. A worker that reads `attempts` back after another has claimed
  the run reads its successor's number, and can then finish the run its successor is working on, with any
  steps and any outcome (`Superseded.ALateReadBackBreaksTheFence`). Only the latest claimer can finish as
  long as each read-back finds the row under its own claim's stamp, or over (`OnlyTheLatestClaimFinishes`),
  which inside the lease it does; and any that finds another stamp has a continuation in which the
  superseded finish lands (`ASupersededReadBackMayFinish`).
- A READY mark that lands after the document has been claimed again breaks index exactness even when every
  index request was in time (`IngestProtocol.ALateVerdictBreaksExactness`). The index is exact as long as
  every request and every mark that moves a row is under the document's current claim, and a superseded
  mark whose successor has yet to delete always has a continuation that breaks it
  (`ASupersededMarkBreaksExactness`).
- A document is documented as fully indexed or not at all. The clean-up of a failed index deletes what a
  search finds, and a bulk request that is given up on has not waited for its refresh: its row can be FAILED,
  its clean-up clean and every request in the lease, and a chunk stays
  (`IngestProtocol.AFailedDocumentMayKeepAChunk`, and `AnAbandonedChunkOutlivesItsCleanup` from every such
  state). A clean clean-up leaves exactly the chunks of requests that were given up on and that no refresh has
  shown since (`ACleanupLeavesWhatWasAbandoned`). READY documents are exact all the same.
- `INGEST_DOCUMENT_TIMEOUT` is documented as covering everything up to the terminal write. The claim's
  stamp is older than it, the file is read and chunked without it, and the cleanup and the mark each have
  ten seconds of their own. Every delivery is over within its lease exactly when the lease has room for all
  of that (`IngestHandler.EveryDeliveryEndsInItsLeaseIff`); the loader asks for less.
- `RebalanceMargin` is documented as absorbing the retry back-off. It counts the model calls and not the
  retrieval's embedding: at the defaults an attempt may still be at work when the rebalance timeout is
  over (`WorkerConfig.DefaultsOutlastTheRebalanceTimeout`), and a lease the loader accepts can be outlasted
  (`AnAcceptedLeaseMayBeOutlasted`). Every attempt is over by a bound exactly when
  the worst one is (`AttemptsEndWithinIff`), and the default lease covers every attempt exactly when its
  start and two row writes take at most thirty seconds and a nanosecond (`DefaultLeaseHoldsIff`).
- TOKEN_BUDGET is documented as unreachable under an accepted configuration. Nothing caps a tool call's
  arguments, so it is reachable under every budget of two steps or more
  (`AgentLoop.ALongSearchReachesTheTokenBudget`). It stops a run exactly when no bound does and overhead
  and observations are over four bytes a token (`TheTokenNetStopsIff`), and an overhead allowance rules that
  out for every run exactly when it and the longest observations it has room for fit
  (`TokenAllowance.AllowanceIsSafeIff`).
- Merging is documented as never making a heading path a lie. An untitled `##` under `# A` has the path
  [A], counts as a sibling of `# B`, and merging the two drops "A"
  (`UntitledHeadings.AnUntitledSectionLosesItsAncestor`). Over a section's text a merged chunk shows the
  section's path exactly when the section is titled, or follows a titled one of the same path with only
  untitled ones between (`MergedHeadings.AMergedChunkShowsThePathIff`).
- The look at the row is documented as standing in for a finish that was never published. The row turns
  terminal before its finish is published, so a connection that looks in between also ends without one
  that is on its way (`Streams.AnIdleTurnMissesALateFinish`); what an idle ending leaves unread is exactly
  what was published after its last read (`MissedExactlyWhenPublishedLate`).
- The exponential back-off shifts past 64 bits. It is the capped doubling up to attempt 35 and at eight
  attempts between 39 and 55; at every other attempt it is zero or negative and the client does not wait
  (`Retry.BackoffIsTheCappedDoublingIff`). No retry ever waits more than ten seconds.
- A sweep's `ORDER BY id LIMIT n` starves a due row behind n older ones that match and are not due: for every
  n, such a sweep sends nothing (`Reconcile.AFullBatchHidesADueRow`). A matching row is listed exactly when
  fewer than n match before it (`ListedUnlessCrowdedOut`).

## Model

| member | source | states |
|---|---|---|
| RunRows.RunStore.Create | internal/store/runs.go:120-148 | inserts exactly one PENDING row with its incident, no attempts, no result and zero counts, or refuses and changes nothing when the incident already has an active run |
| RunRows.RunStore.Claim | internal/store/runs.go:215-252 | one transaction: claims exactly a PENDING row or a RUNNING one past its lease, makes it RUNNING with one attempt more, the new stamp and zero counts, deletes that run's step rows and no others, and leaves every other row and column |
| RunRows.RunStore.Finish | internal/store/runs.go:266-282 | writes exactly when the row is RUNNING under this attempt; then status, stop reason, final result, error, both counters and both token counts are the outcome's, the finish time is the write's, and incident, attempts and start are as before; no other row and no step row changes |
| RunRows.RunStore.WriteStep | internal/store/steps.go:85-122 | adds one row with a fresh id and no tool call under a run and number that have none; a second is refused and changes nothing |
| RunRows.RunStore.WriteToolCall | internal/store/tool_calls.go:76-105 | adds one tool call to the very step row it names, and changes nothing otherwise |
| RunProtocol.OneActiveRunPerIncident | internal/store/runs.go:120-148 | in every reachable state of every interleaving, two runs of one incident are never both in flight |
| RunProtocol.TerminalRowsAreFinal | internal/store/runs.go:266-282 | a terminal row is the same in every later state, whoever still works on the run |
| RunProtocol.TurnsTerminalAtMostOnce | internal/store/runs.go:266-282 | a run turns terminal in at most one step of a behaviour, which is a finish carrying the row's attempt |
| RunProtocol.OnlyTheLatestClaimFinishes | internal/agentrun/agentrun.go:137-239 | as long as each read-back finds the row under its own claim's stamp, or terminal, a finish lands exactly when its worker holds the run's latest claim and the run is in flight, and otherwise no row moves |
| RunProtocol.TimelyReadBacksSeeTheirClaims | internal/agentrun/agentrun.go:137-145 | read-backs inside their leases all do |
| RunProtocol.ASupersededReadBackMayFinish | internal/agentrun/agentrun.go:137-239 | from every reachable state in which a worker is about to read back and its run is in flight under another stamp, it can go on to finish the run its successor holds |
| RunProtocol.ReadBackFindsOwnAttempt | internal/agentrun/agentrun.go:137-145 | the read-back finds the claim's own attempt exactly while the row carries the claim's stamp, which it does throughout the lease |
| Superseded.ALateReadBackBreaksTheFence | internal/agentrun/agentrun.go:137-239 | for every lease and every terminal outcome with at most one tool call a step, a behaviour in which a superseded worker records that outcome's steps and finishes the run its successor holds |
| RunTimeline.TimelineIsPure | internal/store/runs.go:224-252 | with attempts ending in their leases, a run's step rows are always its current attempt's, numbered 1 to n with no gap |
| RunTimeline.NoReportWriteIsRefused | internal/agentrun/report.go:31-66 | no step insert ever collides on run and number, and no tool call ever loses its step |
| RunTimeline.TerminalCountersAreExact | internal/agent/loop.go:491-506 | unless a report failed, a terminal row's step and tool-call counts are the rows under it |
| AttemptPath.VerdictsMayBeDecided | internal/agentrun/agentrun.go:166-189 | every verdict the agent loop can reach is one the run protocol admits at the point its recorded steps lead to |
| AttemptPath.TrailIsAPath | internal/agentrun/report.go:31-66 | reporting any trail of the loop, in whatever time its steps take, is a path of the protocol that numbers its rows 1 to n and counts its tool calls; if it is over within the lease, every write is inside it |
| AttemptPath.FailedReportIsAPath | internal/agentrun/report.go:31-66 | a report that fails after none, one or both of its rows is a path of the protocol that writes exactly those rows, in whatever time it takes |
| AttemptPath.FailedReportsLeaveTheirRows | internal/agentrun/report.go:31-66 | each of the report's errors leaves the tables as that path does |
| AttemptPath.AnUninterruptedAttemptTellsItsRun | internal/agentrun/agentrun.go:137-239 | an attempt that nothing interrupts is a path of the protocol from claim to finish in the time its parts take; every write is inside the lease if its end is; the terminal row's counts are the rows under it, except that a report that failed after its step row leaves one step row more, and one that failed before its tool call's row one tool call fewer; the terminal row says the verdict, its result and no error or the reverse, stop reason, counts and tokens included |
| AttemptPath.TheRowSaysTheVerdict | internal/agentrun/agentrun.go:166-218 | the row a verdict of the loop leaves: SUCCEEDED with the diagnosis as its result, no error, and the bound that stopped the run as its reason; or FAILED with an error, no result and reason ERROR; with the steps, tool calls and tokens of both kinds counted by the loop, and incident, attempts and start as before |
| TimedAttempt.EveryAttemptStaysInItsLease | internal/config/agentworker.go:56-84 | under settings whose lease has room for the worst attempt, the loop at its world's durations, the rows of a last report that failed part-way, and the terminal write are a path of the protocol on which every write is inside the lease and which ends when the attempt does, with a terminal row whose counts differ from its rows by exactly what that report left; the row says the verdict |
| TimedAttempt.AttemptsOnTimeEndInTheirLeases | internal/config/agentworker.go:56-84 | in every behaviour of any number of workers: if each acts when its own attempt gets to it and the settings have room for the worst attempt, every attempt ends in its lease |
| TimedAttempt.AttemptsOnTimeTellTheirRuns | internal/store/runs.go:224-252 | so in all of them a run's step rows are its current attempt's, numbered with no gap, and a terminal row no report failed for counts them exactly |
| DocumentRows.DocumentStore.Claim | internal/store/documents.go:243-257 | claims exactly a PENDING or FAILED row, or a PROCESSING one past its lease: it is PROCESSING with the new stamp and one attempt more, and every other row and column is as before |
| DocumentRows.DocumentStore.MarkDocumentReady | internal/store/documents.go:262-273 | moves a PROCESSING row and no other to READY with its chunk count and time, without looking at the attempt |
| DocumentRows.DocumentStore.MarkDocumentFailed | internal/store/documents.go:275-284 | moves a PROCESSING row and no other to FAILED with the reason given and the time |
| IngestProtocol.ReadyRowsAreFinal | internal/store/documents.go:243-284 | a READY row is the same in every later state |
| IngestProtocol.IndexMovesOnlyAfterEmbedding | internal/ingest/handler.go:161-228 | a step that changes a chunk is taken by a worker of that document that has every vector in hand |
| IngestProtocol.ReadyDocumentsAreExactlyIndexed | internal/ingest/handler.go:118-228 | as long as every index request and every mark that moves a row is under its document's current claim, a READY document's chunks are exactly the chunker's output at places 0 to n-1 and its count is n, however earlier attempts ended and whatever their deletes missed |
| IngestProtocol.LeasesKeepEffectsUnderTheirClaims | internal/store/documents.go:228-257 | effects inside their leases are all under their document's current claim |
| IngestProtocol.ASupersededMarkBreaksExactness | internal/store/documents.go:262-273 | from every reachable state in which a superseded worker may mark and its successor has yet to delete, the mark lands and, its chunks shown, the delete follows: READY, with a count, and no chunk |
| IngestProtocol.ALateVerdictBreaksExactness | internal/store/documents.go:262-273 | for every lease, a behaviour with every index request in its lease in which a late READY leaves a READY document with no chunk |
| IngestProtocol.UnseenIffAbandoned | internal/search/search.go:301-306 | in every reachable state, a chunk is hidden from deletes if and only if a request that was given up on wrote it at a new place and no refresh has shown it since |
| IngestProtocol.ACleanupLeavesWhatWasAbandoned | internal/ingest/handler.go:253-267 | in every behaviour, a clean clean-up leaves of its document exactly those chunks |
| IngestProtocol.AnAbandonedChunkOutlivesItsCleanup | internal/ingest/handler.go:217-226 | from every reachable state in which a worker has a place yet to write, a continuation inside its lease with a clean clean-up that ends FAILED with that chunk indexed |
| IngestProtocol.AFailedDocumentMayKeepAChunk | internal/ingest/handler.go:154-155 | for every lease, a behaviour from the start that ends so |
| SearchIndex.ChunkIndex.BulkWithRetry | internal/search/search.go:326-348 | leaves exactly the index and call count of the batch as specified, request by request |
| SearchIndex.BatchWritesItsPlaces | internal/search/search.go:326-348 | a batch takes at most three requests, repeated only while an item is refused with 429, 502, 503 or 504; only its own places change; it succeeds exactly when its last request does, and then every place holds its text |
| SearchIndex.ChunkIndex.IndexChunks | internal/search/search.go:307-315 | leaves exactly the index of the batches up to the first that fails |
| SearchIndex.BatchesWriteTheDocument | internal/search/search.go:307-315 | success means every chunk is held; in every case only this document's own places may have changed, and only to their own text |
| SearchIndex.RequestsAreBounded | internal/search/search.go:307-348 | at most three requests a batch of a hundred |
| SearchIndex.AHundredARequest | internal/search/search.go:307-315 | when every request is accepted, all chunks go in with one request for each hundred, the last one short |
| SearchIndex.ChunkIndex.DeleteByDocument | internal/search/search.go:431-471 | removes what the reply says and succeeds exactly on a clean one |
| SearchIndex.DeletingRemovesOnlyTheDocument | internal/search/search.go:431-471 | a delete removes only chunks of its document, and on a clean reply all but those no refresh has shown; on a partial one exactly those named |
| SearchIndex.OnlyAnAbandonedRequestHides | internal/search/search.go:326-397 | a batch leaves a chunk unseen if and only if no answered request wrote it, and it was unseen before or the last request wrote it at a new place and was given up on |
| SearchIndex.OnlyTheLastRequestHides | internal/search/search.go:307-348 | of a document that searches see whole, only a place the last request wrote and was given up on stays unseen |
| IngestHandler.Handler.Process | internal/ingest/handler.go:118-228 | the verdict, the row and the whole index a claimed delivery leaves, and the exact moment it is over |
| IngestHandler.WhatADeliveryLeaves | internal/ingest/handler.go:161-228 | a delivery whose chunks all made it in holds them all, and exactly them if and only if its first delete missed no place beyond them; one that failed between clean deletes leaves exactly what the clean-up missed; always only chunks that were there or its own |
| IngestHandler.OnlyAnAbandonedRequestIsLeft | internal/ingest/handler.go:215-228 | what such a failed delivery leaves of a document that searches saw whole, its last bulk request wrote before it was given up on |
| IngestHandler.Handler.Handle | internal/ingest/handler.go:80-109 | a delivery that is refused, undecodable or not claimed changes nothing; otherwise the row ends as the claim followed by at most one verdict; READY means every chunk is held, and exactly them unless the first delete missed a place beyond them; a failure between clean deletes leaves exactly what the clean-up missed; an unread, refused or unembedded document leaves the index alone; no other document's chunk moves; and the exact moment it is over, the claim's own delay included |
| DeliveryPath.AnUninterruptedDeliveryIsAPath | internal/ingest/handler.go:118-228 | whatever its dependencies answer, a delivery that nothing interrupts is a path of the ingest protocol, request by request and in the time they take, ending in the handler's index and row when the handler does; every effect is inside the lease if that is |
| DeliveryPath.EveryDeliveryStaysInItsLease | internal/config/reconcile.go:39-49 | under a lease with room for the latest end, every effect of every delivery its deadline binds falls inside its lease |
| TimedDelivery.EffectsOnTimeAreInTheirLeases | internal/config/reconcile.go:39-49 | in every behaviour of any number of workers: if each effect comes when its worker's own delivery gets to it and the lease has room for the latest end, every effect is in its lease |
| TimedDelivery.DeliveriesOnTimeIndexExactly | internal/ingest/handler.go:118-228 | so in all of them a READY document's chunks are exactly the chunker's output |
| DeliveryPath.BatchIsAPath | internal/search/search.go:326-348 | each request of a batch is the protocol's partial or whole bulk write, in the handler's order and each in the time it takes |
| IngestHandler.ExactUnlessMissedBeyond | internal/ingest/handler.go:215-226 | deleting a document's chunks and then writing all of them leaves exactly them, whatever was there, if and only if the delete missed no place beyond them |
| IngestHandler.EveryDeliveryEndsInItsLeaseIff | internal/config/reconcile.go:39-49 | every delivery the deadline binds is over within its lease if and only if the lease has room for the claim, the timeout, and the larger of twenty seconds and the file with ten |
| IngestHandler.AnAcceptedTimeoutMayOutlastTheLease | internal/config/reconcile.go:57-95 | with an instant claim and file, accepted settings keep every delivery in its lease if and only if the timeout leaves twenty seconds of it, and the loader accepts some that do not |
| IngestHandler.DefaultLeaseHolds | internal/config/reconcile.go:57-72 | the defaults leave the claim and the file four minutes |
| IngestHandler.AnUnhurriedDeliveryTakesItsTime | internal/ingest/handler.go:118-228 | a delivery whose parts fit in the timeout takes their sum: look-up, file, embedding, delete and every bulk request, a clean-up only if a batch failed, and the mark, these two at most ten seconds each |
| IngestHandler.AShortDeliveryTakesItsTime | internal/ingest/handler.go:118-228 | the same for one that stops before its bulk requests, each part spent only if the one before it went through |
| Reconcile.MinBackoff | internal/reconcile/policy.go:55-64 | returns the least wait of a schedule |
| Reconcile.BackoffIs | internal/reconcile/policy.go:31-53 | a minute after the first attempt and five minutes after any later one |
| Reconcile.DueDocumentIff | internal/reconcile/policy.go:107-140 | a document is due if and only if it is PENDING past the grace, PROCESSING past the lease, or FAILED with attempts left and its back-off over, in the category of its status |
| Reconcile.DueRunIff | internal/reconcile/policy.go:148-176 | a run is due if and only if it is PENDING past the grace, or RUNNING past the lease with attempts left |
| Reconcile.MinBackoffIsBelowEveryBackoff | internal/reconcile/policy.go:43-64 | the query's wait is at most the policy's for every attempt count |
| Reconcile.DocumentQueryAgreesWithPolicy | internal/store/reconcile.go:79-120 | the policy calls a document due in a category exactly when that category's query matches it and, for a failed one, its own back-off is over |
| Reconcile.RunQueryIsThePolicy | internal/store/reconcile.go:132-160 | for runs the two are the same condition |
| Reconcile.DueDocumentsAreClaimable | internal/reconcile/policy.go:107-140 | a due document stays due and claimable at every later time while nothing touches it |
| Reconcile.DueRunsAreClaimable | internal/reconcile/policy.go:148-176 | the same for runs |
| Reconcile.AShorterSweepLeaseProducesRefusedMessages | internal/reconcile/policy.go:184-189 | with different leases, a due run is refused by its claim exactly when its stamp lies between them |
| Reconcile.EveryStuckRunBecomesDue | internal/reconcile/policy.go:148-176 | every reachable non-terminal run with attempts left is due once its waits are over |
| Reconcile.EveryStuckDocumentBecomesDue | internal/reconcile/policy.go:107-140 | every reachable document that is not READY, and has attempts left if it failed, is due once its waits are over |
| Reconcile.ListedUnlessCrowdedOut | internal/store/reconcile.go:79-120 | a matching row is listed exactly when fewer than the limit match before it, and then at the place that many give it |
| Reconcile.AFullBatchHidesADueRow | internal/store/reconcile.go:79-120 | for every batch size, that many older rows not yet due and one due row behind them, of which a sweep sends none |
| Reconcile.Sweep | internal/reconcile/runner.go:186-217 | sends exactly the due candidates whose produce gets through, in their order, goes on past a failed one, and counts each category |
| Reconcile.SentAreTheDeliveredDueOnes | internal/reconcile/runner.go:186-217 | messages and failures together are the due candidates, none lost in the count |
| Reconcile.ASweepMessagesExactlyTheDueItCanSee | internal/reconcile/runner.go:186-217 | a document is sent a message if and only if some query can see it, it is still due when looked at, and its produce gets through |
| AgentLoop.Investigate | internal/agent/loop.go:128-188 | for any model, tools and callback: at most MaxSteps+1 model calls and MaxToolCalls tool calls; the clock is exactly the calls made; it goes on exactly while no bound is reached and nothing is cancelled; a context cancelled before the start gets nothing done; otherwise the outcome is the verdict on the recorded steps, with the stop reason the bounds give and the failure its last call gave; each recorded step says what its reply asked for, and a success has as its result arguments that decode to a root cause that is not blank, with their citations resolved as its evidence |
| AgentLoop.FollowingIsAnswering | internal/agent/loop.go:243-287 | what a recorded step says of its reply: unusable exactly when it calls nothing, its first call has no name or arguments that are not JSON, or asks to finish with arguments that do not decode or whose root cause is blank, or asks a forced call for anything else; a finish exactly when they decode to a root cause that is not blank; a search or a tool by the first call's name |
| AgentLoop.DecideIs | internal/agent/loop.go:243-287 | the call chosen is the first one, name and arguments trimmed, with an empty id, type or arguments filled in; each refusal has exactly its cause |
| AgentLoop.DiagnosisIs | internal/agent/loop.go:327-338 | arguments hold a diagnosis if and only if they decode and the trimmed root cause is not empty; each refusal has exactly its cause |
| AgentLoop.TheBoundsInTheirOrder | internal/agent/loop.go:106-116 | steps before tool calls before time before tokens, each reached at its limit |
| AgentLoop.TurnsAreTheSteps | internal/agent/loop.go:290-388 | a step that observed is replayed as its call and its observation, an unusable one as the reason it was told |
| AgentLoop.EndsByTheWorst | internal/agent/loop.go:100-110 | every run is over by the worst run's time: a last free step begun before the limit and after MaxSteps-1 others at most, and a forced call and its report |
| RunTime.TheWorstRunHappens | internal/config/agentworker.go:56-84 | under every accepted budget and limits, a run that takes exactly that long |
| RunTime.RunsEndWithinIff | internal/config/agentworker.go:56-84 | every run in every world within the limits is over within a bound if and only if the worst run is |
| AgentLoop.Investigation.Run | internal/agent/loop.go:164-187 | ends in a state whose prompts replay exactly the recorded steps and whose record keys are 1 to n; terminates |
| AgentLoop.Investigation.StepOnce | internal/agent/loop.go:192-238 | one model call and at most one action: the run ends, or the loop head holds one step further on, with step number, step count, turns, records and calls in agreement |
| AgentLoop.Investigation.NoToolStep | internal/agent/loop.go:362-388 | an unusable reply is recorded and retried once; the second in a row fails the run |
| AgentLoop.Investigation.ForceFinish | internal/agent/loop.go:396-457 | the forced call past a bound ends the run, in a diagnosis or in a failure that names the bound |
| AgentLoop.Investigation.Report | internal/agent/loop.go:491-506 | a step is counted and remembered under its number exactly when the callback accepted it; otherwise the run is over, cancelled or failed |
| AgentLoop.TokenBudgetStopsNoModestRun | internal/config/agent.go:104-124 | under every accepted budget a prompt whose overhead keeps to forty kilobytes never stops the run on tokens |
| AgentLoop.TheTokenNetStopsIff | internal/agent/loop.go:169-178 | the token net stops a run if and only if no bound does and the next prompt's overhead and observations are together over four bytes a token |
| AgentLoop.ALongSearchReachesTheTokenBudget | internal/agent/loop.go:173-178 | under every accepted budget of two steps or more, a first search with long enough arguments does |
| AgentContext.Build | internal/agent/context.go:73-103 | by position: the system prompt, the incident, each turn in order and the budget line last; an observed turn is its call and then its label with the longest well-formed prefix of its observation within 8 KiB, or the no-output text when it is blank; an unusable one is one message with its number and reason |
| AgentContext.MessagesAddUp | internal/agent/context.go:112-121 | a message adds its role, content and id and every call its id, type, name and arguments, and nothing else |
| AgentContext.EveryCallIsFollowedByItsReply | internal/agent/context.go:80-95 | every message with a tool call is immediately followed by the reply with its id, labelled with its step number, and every reply follows its call |
| AgentContext.PromptBytes | internal/agent/context.go:112-121 | a prompt's size is its overhead and its capped observations and nothing else |
| AgentContext.OverBudgetIff | internal/agent/context.go:112-121 | a prompt is over the token budget if and only if its overhead and observations are over four bytes a token |
| AgentContext.AcceptedIff | internal/config/agent.go:81-124 | a budget is accepted if and only if its four limits are positive and 8 KiB a step with forty kilobytes more fit in four bytes a token |
| TokenAllowance.AllowanceIsSafeIff | internal/config/agent.go:104-124 | an overhead allowance keeps every run off the token bound, over the steps the loop can record, if and only if no prompt is so short or it and the longest observations it has room for fit, a tool turn costing at least eighteen bytes of overhead and a search thirty-three |
| TokenAllowance.AFullAllowanceIsSafeIff | internal/config/agent.go:104-124 | once it has room for MaxSteps-1 turns, if and only if it and MaxSteps-1 full observations fit |
| AgentContext.ModestPromptsFit | internal/config/agent.go:104-124 | at a loop head, an overhead within its allowance and the unused observations' keeps the estimate within the budget |
| AgentContext.LongArgumentsExceedAnyBudget | internal/agent/context.go:112-121 | one turn with long enough arguments exceeds any accepted budget |
| Evidence.ResolveEvidence | internal/agent/evidence.go:90-137 | returns the resolution of the citations, in order, dropping those of steps that never happened or observed nothing |
| Evidence.EvidenceIsSound | internal/agent/evidence.go:90-152 | the rows are an order-preserving selection of exactly the citable citations, and each names its recorded step by the callback's ids, with a cited document only if that step found it, taken from the first hit that names it, and a summary capped from that hit or observation |
| Evidence.FindHit | internal/agent/evidence.go:142-152 | the first hit naming the document, with none before it; an empty id finds none |
| StepReport.Reporter.ReportStep | internal/agentrun/report.go:31-111 | step, tool call, evidence, event in that order: success writes all of them, each failure leaves exactly the rows before it, and the event is published only after every row; each row of evidence is as given but for a document no longer there, whose id is cleared; each error has its cause |
| StepReport.CitedDocuments | internal/agentrun/report.go:120-133 | each cited document once, and no empty id |
| StepReport.TheNextStepIsAccepted | internal/agentrun/report.go:31-66 | on rows numbered 1 to n, reporting step n+1 and its tool call is accepted and leaves 1 to n+1 |
| Retry.Call | internal/llm/llm.go:202-230 | at most one call more than the retries; every call but the last failed in a way worth retrying; the answer is the last call's and says why the loop stopped; and the time taken is exactly the calls and the waits between them |
| Retry.TheWorstCallHappens | internal/llm/llm.go:202-230 | a call that succeeds on its last retry after every timeout and ten seconds a retry |
| Retry.Chat | internal/llm/llm.go:202-230 | a model call ends within every attempt at its timeout and ten seconds a retry; a failure ends it early exactly when the context is done, or it is a bad response or a status from 400 to 499 other than 429; every other one is followed by another call while retries are left and no wait is cut off |
| Retry.EmbedBatch | internal/embed/embed.go:141-171 | the same for an embedding request, which gives up only on a bad response, wrong dimensions and a status of 400, 413 or 422 |
| Retry.NoDelayExceedsTenSeconds | internal/llm/llm.go:374-394 | for every attempt, failure and Retry-After header, 64-bit wrap-around included |
| Retry.RetryAfterIsTheSeconds | internal/llm/llm.go:384-394 | the header's seconds, ten at most; none or a negative number is no wait |
| Retry.TheProviderGoesFirst | internal/llm/llm.go:374-380 | a failure that says how long to wait is waited for as long, any other by the back-off |
| Retry.BackoffDoublesToTheCap | internal/llm/llm.go:374-380 | up to attempt 35 the delay is the doubled half second, capped at ten seconds |
| Retry.BackoffIsTheCappedDoublingIff | internal/llm/llm.go:374-380 | for every attempt: the delay is the doubled half second capped at ten seconds if and only if the attempt is at most 35 or one of eight later ones, and otherwise the client does not wait |
| WorkerConfig.LoadAgentWorker | internal/config/agentworker.go:85-146 | accepts exactly the settings whose lease exceeds the worst case and the margin, and reports exactly the problems there are |
| WorkerConfig.Attempt | internal/agentrun/agentrun.go:137-239 | under accepted settings an attempt has written its outcome by the worst attempt's time, and by the end of its lease whenever back-off, start and row writes fit in the lease's slack, of which the margin is always part |
| WorkerConfig.AttemptsEndWithinIff | internal/config/agentworker.go:56-84 | every attempt, in every world within the settings' limits, is over within a bound if and only if the worst attempt is |
| WorkerConfig.MarginCoversTheAttemptIff | internal/config/agentworker.go:8-16 | every attempt is over by the rebalance timeout if and only if back-off, start, row writes and terminal write are within the margin, to the nanosecond |
| WorkerConfig.DefaultsOutlastTheRebalanceTimeout | internal/config/agentworker.go:8-16 | at the defaults, a world and an attempt in it that is still at work when the rebalance timeout is over |
| WorkerConfig.DefaultLeaseHoldsIff | internal/config/agentworker.go:78-84 | the default lease covers every attempt if and only if its start and two row writes take at most thirty seconds and one nanosecond |
| WorkerConfig.AnAcceptedLeaseMayBeOutlasted | internal/config/agentworker.go:110-120 | settings the loader accepts, and an attempt that outlasts their lease on back-off alone |
| Summary.CapAt | internal/summary/summary.go:34-48 | the text itself when it fits, otherwise its longest prefix within the limit that does not cut a rune; with the original length and whether anything was cut |
| Summary.CapIsTheLongestWellFormedPrefix | internal/summary/summary.go:34-48 | on well-formed UTF-8 (sections 3 and 4 of RFC 3629) the cap is the longest well-formed prefix within the limit |
| Summary.CapsCompose | internal/summary/summary.go:34-48 | capping twice is capping at the smaller limit, on all bytes |
| Summary.OkTextIs | internal/opsmcp/result.go:62-75 | text of 8 KiB or less is emitted as it is; longer text as its longest prefix that leaves room for the marker, and then the marker |
| Summary.LaterCapsLeaveOkTextAlone | internal/opsmcp/result.go:62-75 | what the tool server emits is at most 8 KiB, well formed and as long as fits before the marker, so the caps of the context builder and the store leave it unchanged |
| TokenEstimate.EstimateTokens | internal/ingest/tokens.go:30-40 | the ceiling of two thirds of a token for each CJK rune and a quarter for each other, by counting the two kinds |
| TokenEstimate.CJKIsTheRanges | internal/ingest/tokens.go:46-66 | which runes count as CJK |
| Parse.Join | internal/ingest/parse.go:49-62 | every unit's text in order and nothing else but one newline between two list items and a blank line anywhere else |
| Parse.ParseMarkdown | internal/ingest/parse.go:94-136 | the sections under the heading stack, for any sequence of blocks |
| Parse.StackHoldsTheOpenHeadings | internal/ingest/parse.go:112-121 | after every block the stack is exactly the headings that no later heading at their level or above has closed, in order and at strictly increasing levels |
| Parse.SectionsOpenAtHeadings | internal/ingest/parse.go:121-134 | every section is the preamble or the one its heading opened, with the path of the headings open there |
| Parse.OnlyTitledSectionsNameThemselves | internal/ingest/parse.go:123-134 | a section's path ends with its own title if and only if it has one |
| Parse.UnitsLandInOneSection | internal/ingest/parse.go:94-136 | every unit of every block is in exactly one section, in document order |
| Parse.EverySectionIsItsBlocks | internal/ingest/parse.go:94-136 | there is one section more than headings; section k is the preamble or the k-th heading's, with its level and title, the path of the titled headings open there outermost first, and all and only the units up to the next heading |
| Parse.ParseText | internal/ingest/parse.go:143-163 | one unit for each run of text lines between blank ones, in order: the run's lines trimmed and joined; the units' lines are exactly the file's lines with text on them, and no unit is blank |
| Parse.SplittingUndoesJoining | internal/ingest/parse.go:145-158 | lines joined and cut again are the same lines |
| Parse.JoiningUndoesSplitting | internal/ingest/parse.go:145-158 | a text cut at its newlines and joined again is the same text |
| GreedyPacking.Pack | internal/ingest/chunk.go:214-244 | the packing loop, for any monotone notion of fitting, closes exactly the greedy parts |
| GreedyPacking.GreedyPartitions | internal/ingest/chunk.go:214-244 | the parts are the units in order, nonempty, and only a single unit may not fit |
| GreedyPacking.GreedyStaysAhead | internal/ingest/chunk.go:214-244 | from any later start greedy needs no more parts than any allowed partition |
| Packing.SubRangeIsLighter | internal/ingest/parse.go:49-62 | the estimate is monotone over ranges of joined units |
| Packing.PackUnits | internal/ingest/chunk.go:214-244 | one chunk a greedy part, numbered from the start index, under the path |
| Packing.PackingIsOptimal | internal/ingest/chunk.go:214-244 | no way of cutting the units into consecutive parts, each of which is one unit or has its path, a blank line and its units within the target, yields fewer chunks |
| Packing.FittingTextMakesAFittingChunk | internal/ingest/chunk.go:246-264 | trimming blank lines never makes a chunk heavier |
| Chunking.MergeRun | internal/ingest/chunk.go:152-178 | returns the end of the longest run from a section that is all siblings and fits under their parent |
| Chunking.MergingIsOptimal | internal/ingest/chunk.go:103-121 | no cut of the kept sections into runs, each of which is one section or has all its sections under one parent and its text within the target, leaves fewer |
| Chunking.SectionsAreCutOptimally | internal/ingest/chunk.go:123-133 | nor is there a cut of a section's units, each part one unit or within the target, into fewer pieces |
| Chunking.BuildChunks | internal/ingest/chunk.go:103-134 | the pieces hold all the units in order, and chunk k has index k and tells piece k: its content is the path, a blank line and the body with newlines trimmed at its two ends, and its size their estimate. A part's path is its section's and its body its units' texts and nothing else, joined by one newline between list items and a blank line otherwise; a merged run's path is its parents' and its body each section's, under its heading line if it is titled |
| Chunking.ChunksConserveTheUnits | internal/ingest/chunk.go:103-134 | the pieces hold the units of all sections exactly once, in document order, never split |
| Chunking.OnlyASingleUnitExceedsTheTarget | internal/ingest/chunk.go:103-178 | chunk k has index k; one over the target is a single unit; a merged one fits and joins only sections under one parent |
| MergedHeadings.AMergedChunkShowsThePathIff | internal/ingest/chunk.go:180-204 | every merged chunk of every document starts with the parents' path and holds each titled section's heading as a line of its own where the section's text starts; over a section's text the path shown is the section's if and only if the section is titled, or follows a titled one of the same path with only untitled ones between |
| Chunking.ChunkDocument | internal/ingest/chunk.go:75-99 | each error for exactly its cause, and otherwise between one chunk and the limit, each telling its piece |
| Chunking.SectionsOfAFile | internal/ingest/chunk.go:75-89 | a text file is one section without a heading, its units cut at blank lines; a Markdown file is the sections of its headings |
| Chunking.OnlyEmptyDocumentsHaveNoChunks | internal/ingest/chunk.go:91-99 | a document has no chunks if and only if it has no units |
| UntitledHeadings.AnUntitledSectionLosesItsAncestor | internal/ingest/chunk.go:152-204 | a document whose one merged chunk does not contain its first heading, for every target of three tokens or more |
| LogScan.RawLinesSplitTheFile | internal/opsmcp/logs.go:209-232 | the raw lines are the file cut exactly at its newlines |
| LogScan.Reader.ReadLine | internal/opsmcp/logs.go:209-232 | whatever the window, the next line without its terminator; too long exactly when its raw length exceeds the bound; ended exactly when no newline ends it |
| LogScan.ScanLog | internal/opsmcp/logs.go:158-199 | for every file and every window no larger than the bound: the last limit matches in order and exact counts, or nothing if and only if a polled context was done |
| LogScan.ScanServiceLog | internal/opsmcp/logs.go:27-34 | the same with the 64 KiB window and the 1 MiB bound in use |
| LogScan.TheMatchesAreTheKept | internal/opsmcp/logs.go:172-199 | the matches are, in order, exactly the lines within the bound that parse, have the level or a higher one, are not before `since`, are before `until` and hold the text looked for in any case |
| LogScan.TheCountIsOfTheUnreadable | internal/opsmcp/logs.go:172-180 | the count beside them is that of the lines too long or not parsed, empty ones left out |
| LogScan.TrimEOLIs | internal/opsmcp/logs.go:234-236 | a line loses exactly the newlines and carriage returns it ends with |
| Streams.RunStream.Publish | internal/events/events.go:118-148 | appends one entry with a later id than any before, trimmed or not |
| Streams.RunStream.Range | internal/events/read.go:67-84 | exactly the held entries beyond the cursor |
| Streams.Connection.Deliver | internal/events/read.go:140-155 | writes the readable entries in order up to the one that ends the connection; the cursor advances past malformed ones |
| Streams.Connection.Serve | internal/api/sse.go:60-139 | over any publishes and trims between rounds and between a read and the look at the row, every entry up to the last read was read at most once, those still held were read, and the frames are exactly the readable ones, with a finish only last; each ending has its cause, and one that is neither a finish nor a failure leaves unread exactly what its last turn published after its read |
| Streams.Connection.Turn | internal/api/sse.go:106-135 | one turn ends on the row alone exactly when it was idle, not the first, and the row is terminal; a turn with nothing new to read is idle |
| Streams.FramesAreTheReadableEntries | internal/api/sse.go:92-113 | frame ids strictly increase, every frame is a readable entry beyond the start, and every such entry still held was delivered |
| Streams.MissedExactlyWhenPublishedLate | internal/api/sse.go:113-125 | a held readable entry beyond the start is not among the frames if and only if it was published after the last read |
| Streams.AnIdleTurnMissesALateFinish | internal/agentrun/agentrun.go:207-237 | a connection that ends on a terminal row and was never sent the finish published just after |
| Streams.ReconnectingNeitherRepeatsNorSkips | internal/api/sse.go:234-240 | however the first connection ended, a failed write included, a second at its last frame's id continues it: together strictly increasing, only readable entries, and none still held is missing up to where the second got |
| Embedding.Pair | internal/embed/embed.go:234-252 | accepts exactly a reply of the right count with no faulty item, and puts each vector in the slot its index names, leaving none empty; otherwise the first fault |
| Embedding.FaultIs | internal/embed/embed.go:234-252 | an item is faulty exactly when its index is out of range, or was given before, or its vector does not have 1024 numbers, looked at in that order |
| Embedding.AcceptedRepliesFillEverySlot | internal/embed/embed.go:228-252 | by counting, an accepted reply leaves no slot empty |
| Embedding.EmbedOne | internal/embed/embed.go:178-252 | a request yields vectors exactly when its reply is accepted, each the one the reply's index field gives to that place |
| Embedding.OneVectorForAPlace | internal/embed/embed.go:234-252 | an accepted reply has one vector for a place |
| Embedding.Embed | internal/embed/embed.go:115-137 | from raw replies in any order: succeeds exactly when every reply is accepted, and then text k's vector is the one reply k / batch gives to place k % batch; the requests made are exactly those up to the first failure |
| Paging.Normalize | internal/store/store.go:287-295 | a limit between 1 and 100 is kept, any other replaced |
| Paging.List | internal/store/store.go:297-323 | a page is the first rows beyond the cursor, with a cursor if and only if more follow |
| Paging.OlderIff | internal/store/store.go:343-349 | without a cursor every row is beyond it, with one exactly the rows whose id is less |
| Paging.NewestFirstDecreases | internal/store/store.go:343-349 | ids strictly decrease, so no row comes twice |
| Paging.Walk | internal/store/store.go:261-349 | following the cursors ends, and returns every matching row the first page's table held exactly once, newest first, whatever is inserted between pages |

## Left out

- MySQL, Kafka, Redis, Elasticsearch, MCP and HTTP: their atomic steps are modelled and a failed request is an arbitrary outcome. A request that takes effect after its caller has given up on it is not; that a refresh shows its effect only later is.
- Clock skew between processes: one monotone clock, because stamps of different processes are compared directly.
- The run worker's handler as a class: its claim, read-back, report and finish are steps of the protocol, between which any other process may act; `AttemptPath` puts them in the handler's order.
- Kafka's consumer loop: committing is a step of its own that may come at any time after a delivery, which covers committing after the handler and crashing before it.
- Tracing, metrics, logging, JSON, prompt wording: whether arguments are valid or a root cause is blank are arbitrary predicates. Decoding a diagnosis citation by citation is part of that predicate.
- The markdown library: a document is its sequence of headings and units.
- `agent/tools.go`: what a tool call answers is arbitrary, so its statuses and refusal texts add no constraint.
- Search scores, the query builder and the rest of the API: plumbing.
- TokenEstimate.EstimateTokens: the original sums floating-point thirds and quarters; here the sum is exact, in twelfths.
- Chunking.ChunkDocument: normalising line endings and the byte order mark happens before the text or block sequence given here.
- IngestProtocol.ReadyDocumentsAreExactlyIndexed: a chunk's id is the pair of its document and place rather than the string joining them, and the chunker's settings do not change between attempts.
- SearchIndex.ChunkIndex.BulkWithRetry: a pause between attempts is part of the next request's time, and a context that ends during one is a failed reply.
- IngestHandler.Handler.Handle: the failure reason's truncation to a thousand bytes is not modelled.
- AgentLoop.Investigate: the evidence rows' foreign keys and the step's measured duration are not part of a step here.
- WorkerConfig.Attempt: that a search ends by SEARCH_TIMEOUT is assumed, since the search client shown passes its context through unchanged; and so is that the row's time limit is no longer than the worker's own setting, since a row keeps the limit it was created with.
- Streams.Connection.Serve: heartbeat comments carry no id and are left out, and so are the stream's expiry and the refusal of a client that comes once the run is over.
- Paging.Walk: rows do not move in or out of the filter between pages.
- LogScan.ScanLog: a read error other than the end of the file, which discards the result, is left out.
- Embedding.Embed: a batch's reply is the one its retries end with; the retries themselves are Retry.EmbedBatch's.
