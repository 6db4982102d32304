# Verification of the variable-star classification pipeline

The pipeline turns candidate events into classification commands, commands into
results and results into rows of PostgreSQL, over Kafka. It promises at-least-once
delivery, per-object order, deterministic identity and idempotent persistence. This
project models the code those promises rest on and proves them for all inputs and all
runs. `dafny verify dfyconfig.toml` checks everything.

## What is modelled

- **Consumers.** `CompletionTracker`, `BatchProcessing`, `Grouping` and
  `RebalanceYield` are the imperative pieces of the asynchronous runner, with their
  heap state. `AsyncConsumer` is the protocol around them: any number of members, one
  lane per key group, requests and cancellations at any moment, polls that skip offset
  gaps, commits that fail after having applied, crashes, evictions and fresh sessions.
  `AsyncSafety` proves its guarantees, `PartialBatches` what becomes of half-done batches,
  and `BatchOutcomes` what is committed, when a session yields or ends, and that an
  undisturbed batch can always be finished. `SerialConsumer` and `SerialYields` do the
  same for the serial runner, and `ConsumerGroup` holds what both rely on from the broker.
- **Identity and messages.** `Identity` and `Uuid` cover the job payload and the
  name-based identifiers (section 4.3 of RFC 4122). `CommandCodec`, `CoarseSelection`,
  `RunBuilder` and `ResultCodec` are the stages from a decoded command to the writer's
  decoder; `AcceptanceChain` proves that their separate provenance checks agree.
  `LightCurve` is the canonicaliser in front of them.
- **Persistence.** `Repository` is the save transaction with every way it can end.
  `RepositorySafety` proves what any sequence of saves leaves behind, `CoarseReuse` the
  invariant of the loop through the lookup of older runs, and `TieHistories` when the
  order of whole histories decides which run is current.
- **Handlers.** `WorkerErrors`, `CommandHandlers`, `ResultHandlers` and `RetryObserver`
  are the stacks DLQ(Retry(Worker)) and DLQ(Retry(Writer)). What the inner handler
  answers is a script of arbitrary length; `StillRetrying` is a script that ran out.
  `EndToEnd` composes the stacks with both runners, the database and the dead-letter
  topics.
- **Codecs and tools.** `BinaryTensor`, `InferProtocol`, `Binary32` and
  `TritonClassifier` follow the binary tensor data extension of the Open Inference
  Protocol v2. `RateScheduler` and `Workload` are the paced load generator, `Backlog`
  the lag exporter.

The digest behind the identifiers is a parameter; that it separates the identities at
hand is a hypothesis (`CollisionFree`) only where a statement needs it. Clocks, port
answers, delivery outcomes and commit fates are parameters as well.

## Where a plain claim is false

- A yield does not mean that nothing was committed under the serial runner: for every
  record `SerialYields.YieldAfterCommitHappens` gives a run from the initial state that
  yields with it committed, at either check. `YieldedExactly` says when: the handler
  returned nil and the broker applied the commit, which at the second check is always so.
- `processBatch` can return a partial commit list without an error
  (`PartialBatches.NilPartialHappens`), exactly when no handler failed and a goroutine
  stopped at its context check with records left (`NilPartialExactly`). Then the context
  had ended or a request had come, and the runner's own checks end the session without a
  commit (`NilPartialIsAbandoned`, `NilPartialStopsAtContextCheck`). An ended context
  allows a partial list but does not force one (`EndedContextMayComplete`).
- The decoder accepts messages that no encoder produces
  (`ResultCodec.NarrowingAcceptsMore`). An accepted message comes from an encoder exactly
  when both enumerations fit in eight bits and a present trace is not empty
  (`EncodersImage`); `DecodeDeterminesNarrowedForm` says which ones decode alike.
- The current run of an object depends on the order of two saves exactly when both are
  production runs of the same revision above what is current
  (`RepositorySafety.OrderMattersExactlyForTies`). Whole histories that hand in the same
  runs agree on it exactly when no two production identities tie at the top above what
  was current (`TieHistories.OrderDecidesExactlyForTies`), and on the revision always.
  That reused runs name older runs that were computed themselves is assumed there and
  proved of the pipeline (`ReachableChainsEnd`).
- CANCELLED does not mean that the command's context was cancelled
  (`WorkerErrors.DeadlineReadsAsCancelled`); `CancelledExactly` says what it means. So an
  unreachable light curve is not retried when its request ran into a deadline
  (`TimedOutSourceIsCancelled`).
- Which value error the canonicaliser reports depends on the order of its input
  (`LightCurve.ReportDependsOnOrder`), exactly when it gets as far as the values and two
  invalid epochs have different errors (`ReportIndependentExactly`); whether it reports
  one does not depend on the order.
- A yield check does not notice a multiple of 2^64 requests, and nothing else goes
  unnoticed (`RebalanceYield.Yield.RequestedSince`).

## Model

| member | source | states |
|---|---|---|
| CompletionTracker.PrefixLengthUnique | internal/adapter/kafka/partition_completion_tracker.go:115-137 | the completed prefix is the only maximal run of marked offsets at the head of the tracked sequence |
| CompletionTracker.PrefixLengthMonotone | internal/adapter/kafka/partition_completion_tracker.go:115-137 | marking more offsets never shortens the prefix |
| CompletionTracker.PartitionState.Append | internal/adapter/kafka/partition_completion_tracker.go:45-88 | registers an offset, or rejects a repeated or smaller one and changes nothing |
| CompletionTracker.PartitionState.Mark | internal/adapter/kafka/partition_completion_tracker.go:94-140 | in any order and with repeats, `next` is the longest tracked prefix contained in the marked set; the advance and the last advanced offset are those of that prefix |
| CompletionTracker.Tracker.Track | internal/adapter/kafka/partition_completion_tracker.go:45-88 | the same through the map of partitions, created on first use; an error leaves every partition as it was |
| CompletionTracker.Tracker.MarkCompleted | internal/adapter/kafka/partition_completion_tracker.go:94-140 | an unknown partition or offset is an error; otherwise only the marked partition changes, as its prefix says |
| BatchProcessing.TrackBatch | internal/adapter/kafka/async_consumer.go:219-235 | registration succeeds exactly when offsets increase per partition, and then tracks exactly the batch |
| BatchProcessing.Collect | internal/adapter/kafka/async_consumer.go:283-313 | whatever order completions arrive in, marking never fails, the commit list holds the last record of each completed prefix, and the count is the sum of the prefix lengths |
| BatchProcessing.CommitCoversPrefix | internal/adapter/kafka/async_consumer.go:283-319 | everything at or below a committed record of its partition was handled, gaps or not |
| BatchProcessing.CommitReachesEnd | internal/adapter/kafka/async_consumer.go:283-319 | when every record was handled, each touched partition is committed up to its last record |
| Grouping.GroupRecords | internal/adapter/kafka/async_consumer.go:361-379 | the groups are the batch split by processing key, in batch order |
| Grouping.GroupsPartitionBatch | internal/adapter/kafka/async_consumer.go:361-396 | every record of the batch is in exactly one group |
| Grouping.GroupRunsInOrder | internal/adapter/kafka/async_consumer.go:361-396 | within a group, earlier records of the same partition and key come first |
| Grouping.SameGroupExactly | internal/adapter/kafka/async_consumer.go:361-396 | two records of a batch go to one goroutine exactly when they share topic and key, or have no key and share the partition |
| RebalanceYield.Yield.Generation | internal/adapter/kafka/rebalance_yield.go:24-34 | reading the generation is the capture step of the interleaving machine, modulo 2^64 |
| RebalanceYield.Yield.Request | internal/adapter/kafka/rebalance_yield.go:38-51 | the lock section is the machine's request step and hands out the cancel function bound at that moment |
| RebalanceYield.Yield.CancelTaken | internal/adapter/kafka/rebalance_yield.go:48-50 | the call outside the lock, however late, is the machine's cancel step and ends that context only |
| RebalanceYield.Yield.Bind | internal/adapter/kafka/rebalance_yield.go:58-86 | the machine's bind step, unless a multiple of 2^64 requests came since the capture; the new context starts cancelled exactly for any other number, or with its parent |
| RebalanceYield.Yield.Release | internal/adapter/kafka/rebalance_yield.go:77-85 | the machine's release step: it unbinds and cancels the context and leaves the others alone |
| RebalanceYield.Yield.RequestedSince | internal/adapter/kafka/rebalance_yield.go:90-99 | reports a request after the baseline, up to a wrap of 2^64 |
| RebalanceYield.Linearised | internal/adapter/kafka/rebalance_yield.go:25-99 | in every interleaving of lock sections and late cancel calls, once none is outstanding an unreleased batch is cancelled exactly when the generation left its baseline |
| RebalanceYield.StaleRequestsHarmless | internal/adapter/kafka/rebalance_yield.go:38-51 | a cancel function read for an older batch never cancels a newer one |
| ConsumerGroup.CommitKeeps | internal/adapter/kafka/async_consumer.go:182-194 | committing only handled prefixes keeps everything below every committed offset handled and moves no offset back |
| AsyncSafety.StepInv | internal/adapter/kafka/async_consumer.go:120-337 | every step of every member, of the broker and of the group keeps the protocol invariant and moves no committed offset back |
| AsyncSafety.AtLeastOnce | internal/adapter/kafka/async_consumer.go:134-337 | in every run, every logged record between the start and the committed offset of its partition had Handle return nil |
| AsyncSafety.CommittedNeverMovesBack | cmd/async-classifier-worker/main.go:519-548 | across sessions, yields, crashes and evictions, committed offsets never decrease |
| AsyncSafety.HandlerSeesKeyOrder | internal/adapter/kafka/async_consumer.go:246-276 | a record is handed to the handler only after every earlier record of its partition and key was handled, across failures and redelivery |
| AsyncSafety.BoundedConcurrency | internal/adapter/kafka/async_consumer.go:246-276 | at most `concurrency` handlers of one member are active |
| AsyncSafety.NoSkip | internal/adapter/kafka/async_consumer.go:165-202 | the runner polls again only after every record of the batch was handled and each touched partition was committed past its last record |
| AsyncSafety.YieldCommitsNothing | internal/adapter/kafka/async_consumer.go:168-181 | a session that ends yielded committed nothing of its batch |
| AsyncSafety.PartialBatchEndsSession | internal/adapter/kafka/async_consumer.go:182-202 | a batch with an unhandled record is committed only together with a failure, and the session ends |
| PartialBatches.NilPartialExactly | internal/adapter/kafka/async_consumer.go:246-276 | in every run, when all goroutines have returned, records are missing without an error exactly when no handler failed and a goroutine stopped with records left |
| PartialBatches.NilPartialIsAbandoned | internal/adapter/kafka/async_consumer.go:165-180 | the context of such a batch had ended or a request had come after the capture; the yield check ends the session, or the context check is bound to, and nothing was committed |
| PartialBatches.NilPartialStopsAtContextCheck | internal/adapter/kafka/async_consumer.go:176-180 | such a batch that passes the yield check ends the session at the context check with the broker unchanged |
| PartialBatches.NilPartialHappens | internal/adapter/kafka/async_consumer.go:254-256 | for every two records of a key, a run from the initial state in which the list holds the first, the second is missing and nothing failed, by a request or by the end of the run's context |
| PartialBatches.EndedContextMayComplete | internal/adapter/kafka/async_consumer.go:253-275 | and a run in which the context ended just as well and yet every record was handled |
| BatchOutcomes.CommitExactly | internal/adapter/kafka/async_consumer.go:182-202 | in every run an acknowledged commit, after a failed batch as after a full one, sets each partition to the offset after its completed prefix and leaves the others; the handler's error is returned after it |
| BatchOutcomes.FailedBatchStillCommits | internal/adapter/kafka/async_consumer.go:182-202 | for every two records of a key, a run from the initial state in which the first is handled, the second fails, and the session ends with the error and the first committed |
| BatchOutcomes.YieldsExactlyWhenRequested | internal/adapter/kafka/async_consumer.go:168-174 | in every run the check after a batch yields exactly when a rebalance was requested since the capture before the poll |
| BatchOutcomes.EveryBatchCanFinish | internal/adapter/kafka/async_consumer.go:120-337 | from every reachable state in which nothing disturbs a batch, there is a run in which every record is handled, all touched partitions are committed and the session polls again |
| BatchOutcomes.EndsForItsReason | internal/adapter/kafka/async_consumer.go:134-202 | in every run the reason with which a session ends tells what happened: a request, a stopped context, a failed handler after its commit, a failed commit, a closed client or a fetch error |
| BatchOutcomes.CancelledSessionsStop | internal/adapter/kafka/async_consumer.go:134-149 | a session whose context has ended never polls again and stops wherever it is outside a batch |
| BatchOutcomes.FailedPollsEnd | internal/adapter/kafka/async_consumer.go:142-163 | a closed client or a fetch error ends the session with its own reason, and a poll without records lets it poll again, the group unchanged |
| BatchOutcomes.LiveSessionsPoll | internal/adapter/kafka/async_consumer.go:139-163 | a live session can be handed the next record of any partition it owns |
| SerialConsumer.AtLeastOnce | internal/adapter/kafka/consumer_rebalance_yield.go:76-165 | the same guarantee for the serial runner |
| SerialConsumer.CommittedNeverMovesBack | internal/adapter/kafka/consumer_rebalance_yield.go:76-165 | committed offsets never decrease under the serial runner |
| SerialConsumer.HandlerSeesPartitionOrder | internal/adapter/kafka/record_processor.go:33-57 | a record reaches the handler only after every earlier record of its partition was handled |
| SerialYields.YieldedExactly | internal/adapter/kafka/consumer_rebalance_yield.go:125-162 | in every run, at either yield check, a session that still owns the partition leaves its record committed exactly when since its bind the handler returned nil and the broker applied the commit, otherwise the partition stays at or below the record; at the second check it is always committed |
| SerialYields.RunTells | internal/adapter/kafka/record_processor.go:33-57 | in every run the phase of a session tells whether the handler has succeeded and the commit was applied since the record was bound; a commit is never applied without that success |
| SerialYields.YieldAfterCommitHappens | internal/adapter/kafka/consumer_rebalance_yield.go:125-162 | for every record and for either check, a run from the initial state that ends yielded with exactly this record committed |
| SerialYields.ChecksDecideExactly | internal/adapter/kafka/consumer_rebalance_yield.go:132-162 | in every run either check yields exactly when a rebalance was requested since the capture; otherwise a failed record ends the session and a committed one lets it poll again |
| SerialYields.CommitExactly | internal/adapter/kafka/record_processor.go:43-56 | the commit of a record sets its partition to the next offset exactly when the broker applies it, only after the handler succeeded, and touches no other |
| SerialYields.EveryRecordFinishes | internal/adapter/kafka/consumer_rebalance_yield.go:125-164 | from every reachable state in which nothing disturbs a record, success commits it and the session polls again, and failure commits nothing and ends the session |
| SerialYields.EndsForItsReason | internal/adapter/kafka/consumer_rebalance_yield.go:90-164 | in every run the reason with which a session ends tells what happened |
| SerialYields.CancelledSessionsStop | internal/adapter/kafka/consumer_rebalance_yield.go:90-101 | a session whose context has ended never polls again and stops wherever it is outside a record |
| SerialYields.FailedPollsEnd | internal/adapter/kafka/consumer_rebalance_yield.go:98-117 | a closed client or a fetch error ends the session with its own reason, and a poll without a record lets it poll again |
| SerialConsumer.YieldAfterCommit | internal/adapter/kafka/consumer_rebalance_yield.go:125-162 | from every point after a successful handler, a run exists that yields with its record committed |
| Identity.PayloadRoundTrip | internal/domain/identity.go:41-57 | the length-prefixed payload of a valid identity parses back to it, for strings up to 2^32-1 bytes |
| Identity.PayloadInjective | internal/domain/identity.go:41-60 | distinct valid identities never share a payload |
| Identity.IdentifiersExist | internal/domain/identity.go:41-74 | a valid identity has a job identifier and from it a run identifier, both canonical and not nil |
| Identity.IdentifiersIdentify | internal/domain/identity.go:41-74 | where the digest separates the payloads, job identifier, run identifier and identity determine one another |
| Uuid.NameBasedMarks | internal/domain/identity.go:58-74 | an identifier is the digest with version 5 and the RFC 4122 variant, where its text shows them |
| Identity.NamesSpelled | internal/domain/identity.go:35-38 | the prefix and the run name are these texts |
| Uuid.ParseFormat | internal/domain/identity.go:63-74 | the canonical text of a UUID parses back to it |
| Uuid.CanonicalIsFormatted | internal/application/classification_result_decode.go:542-563 | the canonical non-nil test accepts exactly the texts of non-nil UUIDs |
| Uuid.ParsesExactly | internal/domain/identity.go:63-74 | a text parses to an identifier exactly when it is that identifier's text in either letter case |
| LightCurve.Prepare | internal/application/light_curve_preparer.go:65-158 | succeeds exactly for acceptable revisions, reports the stated error otherwise, returns a new array in canonical form and leaves its input alone |
| LightCurve.AdjacentDecides | internal/application/light_curve_preparer.go:132-151 | after sorting, a repeated time shows up at adjacent positions |
| LightCurve.AcceptablePermutes | internal/application/light_curve_preparer.go:65-158 | acceptability does not depend on the order of the epochs |
| LightCurve.CanonicalFormUnique | internal/application/light_curve_preparer.go:129-155 | every reordering of an input has one and the same canonical form |
| LightCurve.ReportIndependentExactly | internal/application/light_curve_preparer.go:65-158 | all orders of an input get the same report exactly unless the counts are right and two invalid epochs have different errors |
| LightCurve.ReportDependsOnOrder | internal/application/light_curve_preparer.go:98-127 | the smallest instance: two orders of three epochs with different reports |
| ClassificationRun.FindFirstMaximum | internal/application/classification_run_builder.go:447-457 | the loop finds the first value that no value exceeds, NaNs included |
| ClassificationRun.FirstMaximumUnique | internal/application/classification_run_builder.go:447-457 | that position is unique |
| ClassificationRun.PredictionMeansFirstMaximum | internal/application/classification_run_builder.go:408-445 | a predicted class names a position exactly when that position is the first maximum |
| ClassificationRun.LeavesBelong | api/proto/astro/classification/v1/common.proto:48-130 | each leaf position has the number of a leaf of the coarse class that its name is conditioned on |
| CoarseSelection.SelectSound | internal/application/coarse_mode_selector.go:64-180 | selection succeeds exactly when the ports answer as required; the mode follows the epoch count and the history, and bootstrap only an empty history |
| CoarseSelection.SelectBlames | internal/application/coarse_mode_selector.go:64-180 | an error names something that is the case, and an ended context comes first |
| CoarseSelection.BuildInput | internal/application/classification_input_builder.go:22-70 | row k of the three arrays is epoch k; the input exists exactly for consistent selections |
| RunBuilder.BuiltRunsAreSound | internal/application/classification_run_builder.go:48-279 | any run that gets built obeys the provenance rule and predicts its first maxima |
| RunBuilder.BuiltRunsCarryTheRequest | internal/application/classification_run_builder.go:48-130 | a built run has the model's own probabilities, the fields of the command and the revision, and classes exactly at the first maxima of those probabilities |
| RunBuilder.BuiltSources | internal/application/classification_run_builder.go:132-279 | a reused source is the selected one field by field, and each mode has its source type |
| RunBuilder.SoundSelectionsBuild | internal/application/classification_run_builder.go:48-279 | a sound selection builds exactly when the output agrees with the mode and the time is not zero |
| CommandCodec.DecodedCommandsAreAcceptable | internal/application/classification_command_decode.go:79-221 | a decoded command carries its own deterministic job identifier and is keyed by its object |
| CommandCodec.DecodesExactly | internal/application/classification_command_decode.go:79-221 | a message decodes to a command exactly when it says it, as a realtime one without a deadline, on its topic and under its key, with fields in range and the derived job identifier |
| CommandCodec.DecodeBlames | internal/application/classification_command_decode.go:79-221 | an error names something that is wrong with the message |
| CommandCodec.BuildsExactly | internal/application/classification_command.go:15-115 | a command is built exactly for a supported proposal |
| CommandCodec.BuiltCommandsDecode | internal/application/classification_command.go:15-115 | every command message built for a candidate passes the decoder with its fields unchanged |
| ResultCodec.SourceCheckIsProvenance | internal/application/classification_result_decode.go:455-540 | the three-way check of the decoder is the one provenance rule of the builder |
| ResultCodec.EncodeDecode | internal/application/classification_result.go:30-101 | encoding then decoding gives the run and trace back exactly when the run is acceptable |
| ResultCodec.AcceptsExactly | internal/application/classification_result_decode.go:84-206 | a message decodes to a run exactly when its narrowed form is the encoding of that run, the run is acceptable, and topic and key fit |
| ResultCodec.DecodeBlames | internal/application/classification_result_decode.go:84-206 | an error names something that is wrong with the message |
| ResultCodec.DecodedRunsAreAcceptable | internal/application/classification_result_decode.go:84-206 | whatever arrives, an accepted message carries an acceptable run keyed by its object |
| ResultCodec.DecodeEncodeDecode | internal/application/classification_result_decode.go:84-206 | re-encoding an accepted result is accepted as the same run |
| ResultCodec.NarrowingAcceptsMore | internal/application/classification_result_decode.go:294-300 | for every acceptable run there is an accepted message that no encoder produces: the mode is read modulo 256 |
| ResultCodec.EncodersImage | internal/application/classification_result_decode.go:208-348 | an accepted message is one that an encoder produces exactly when narrowing leaves it alone, that is, when both enumerations fit in eight bits and a present trace is not empty |
| ResultCodec.DecodeDeterminesNarrowedForm | internal/application/classification_result_decode.go:208-348 | accepted messages decode alike exactly when they agree after narrowing |
| AcceptanceChain.SelectionFor | internal/application/classification_input_preparer.go:54-119 | for a decoded command the selector answers exactly when its ports do |
| AcceptanceChain.StagesSucceed | internal/application/classification_worker.go:173-261 | for every decoded command and prepared revision, selection, input building and run building all succeed exactly when the outside world cooperates |
| AcceptanceChain.WriterAccepts | internal/application/classification_worker.go:109-315 | and then the encoded result is decoded by the writer to the same run, exactly when the completion time fits a timestamp and a reused source is a canonical UUID |
| AcceptanceChain.PublishedMessageCarriesTheOutput | internal/application/classification_worker.go:173-315 | the published message has the command's and the revision's fields and the model's own output, each probability under its class's name, and the classes of its first maxima |
| Repository.Store.InsertRun | internal/adapter/postgres/classification_repository.go:187-209 | inserts a row exactly when no constraint fails and no identifier clashes |
| Repository.Store.ExistingRunIsIdempotent | internal/adapter/postgres/classification_repository.go:251-271 | tells a recorded identity from a clash and from no match |
| Repository.Store.AdvanceCurrent | internal/adapter/postgres/classification_repository.go:234-248 | moves current only to a strictly greater revision |
| Repository.Store.SaveRunAndMaybeAdvanceCurrent | internal/adapter/postgres/classification_repository.go:165-231 | the transaction equals the step function for every way it can end; the error for an unexplained skip never occurs |
| RepositorySafety.SaveKeeps | internal/adapter/postgres/classification_repository.go:165-271 | every save keeps rows unique, checked and immutable, and current the earliest row of maximal revision |
| RepositorySafety.StoredRowsAreSane | migrations/00002_create_classification_storage.sql:3-140 | every row of a valid database, whoever wrote it, has positive revisions, enough epochs, known mode and classes, and a stored source for an older revision exactly when it did not run the coarse model |
| RepositorySafety.AcknowledgedIsStored | internal/adapter/postgres/classification_repository.go:191-205 | with consistent identities no save conflicts, and an acknowledged one leaves its identity stored for good |
| RepositorySafety.OrderDoesNotMatter | internal/adapter/postgres/classification_repository.go:165-271 | histories that hand in the same identities, in any order and with duplicates and lost acknowledgements, agree on the stored identities and on every current revision |
| RepositorySafety.RepeatIsHarmless | internal/adapter/postgres/classification_repository.go:191-228 | the first row wins: after a save that applied, acknowledged or not, and any saves in between, every run with the same two identifiers changes nothing and is reported as saved, unless its own fields are refused |
| RepositorySafety.OrderMattersExactlyForTies | internal/adapter/postgres/classification_repository.go:87-106 | both orders of any two insertable runs with different identifiers leave the same current table exactly when they are not production runs of one object and revision above what is current |
| RepositorySafety.OrderDoesNotMatterForCurrent | internal/adapter/postgres/classification_repository.go:87-106 | two such histories also agree on which run is current for an object, unless two of its production identities tie at the top above what was current |
| RepositorySafety.CurrentFollowsTop | internal/adapter/postgres/classification_repository.go:87-106 | two consistent tables with the same identities name the same current run for every object without a tie at its highest revision |
| TieHistories.OrderDecidesExactlyForTies | internal/adapter/postgres/classification_repository.go:87-106 | all replays of an acknowledged history, whatever the order and the duplicates, end with the same current run exactly when it was current already or no two production identities tie at the top |
| TieHistories.TieDisagrees | internal/adapter/postgres/classification_repository.go:87-106 | and otherwise there are two fully acknowledged replays of the same runs, one ending with each of the tied runs |
| TieHistories.StillAcknowledged | internal/adapter/postgres/classification_repository.go:191-231 | a history run again after any of its own runs is acknowledged as before |
| TieHistories.ReachableChainsEnd | internal/application/coarse_mode_selector.go:134-180 | in every reachable database the source of a reused run was computed itself, for an older revision |
| RepositorySafety.TiesDependOnOrder | internal/adapter/postgres/classification_repository.go:87-106 | with such a tie, whichever run was saved first is current |
| RepositorySafety.DerivedMeansSameJobs | internal/domain/identity.go:41-74 | derived identifiers are consistent wherever the digest does not collide |
| RepositorySafety.AcceptedRunsPassConstraints | migrations/00002_create_classification_storage.sql:35-140 | the table refuses an accepted run exactly when it names itself as its source |
| CoarseReuse.FindLatestCorrect | internal/adapter/postgres/classification_repository.go:146-162 | the query returns an eligible row that no eligible row precedes, and nothing only if none is eligible |
| CoarseReuse.FindingExactly | internal/adapter/postgres/classification_repository.go:146-162 | the repository's answer is empty exactly when no usable row exists, and otherwise carries the latest one, its probabilities included |
| CoarseReuse.WorkerRunsComeFromLookups | internal/application/classification_run_builder.go:175-236 | a run the worker builds names exactly the source its lookup returned |
| CoarseReuse.RunInv | internal/adapter/postgres/classification_repository.go:146-162 | lookups, published runs and rows keep naming existing rows, with arbitrary saves in between |
| CoarseReuse.FoundSourcesAreRows | internal/adapter/postgres/classification_repository.go:146-162 | in every reachable state each answer that was ever given is a stored row with all its fields and its own coarse probabilities |
| CoarseReuse.ReusedProbabilitiesAreStored | internal/application/classification_input_builder.go:22-70 | for a command that reuses, the classifier is handed that row's coarse probabilities; otherwise none |
| CoarseReuse.ReuseChainsHaveLengthOne | internal/application/coarse_mode_selector.go:134-180 | a reused row names an existing row of its object and bundle with smaller revision and the recorded epoch count that ran the coarse model itself |
| CoarseReuse.LookupsStayUsable | internal/application/coarse_mode_selector.go:194-224 | every answer of the lookup passes the selector and the canonical-UUID test of the decoder |
| CoarseReuse.AnsweredLookupsAreAccepted | internal/application/classification_worker.go:173-279 | with any answer the database ever gave for a command, however many saves came in between, the worker builds a run that the writer decodes as that very run |
| CoarseReuse.PublishedRunsAreNeverRejected | migrations/00002_create_classification_storage.sql:3-60 | the database never turns a published, accepted run away |
| WorkerErrors.WrapStructures | internal/application/classification_worker_error.go:133-151 | wrapping yields a structured error, keeps every cause and never reclassifies |
| WorkerErrors.CancelledExactly | internal/application/classification_worker_error.go:133-167 | for every error: a structured one keeps its class, any other is CANCELLED exactly when it wraps a cancelled or expired context or the first declared class is CANCELLED |
| WorkerErrors.DeadlineReadsAsCancelled | internal/application/classification_worker_error.go:157-161 | a deadline inside a dependency reads as CANCELLED although nothing was cancelled |
| WorkerErrors.RetriedExactly | internal/application/classification_worker_error.go:133-255 | for every error: which ones wrapping makes retryable, stated by what they wrap, wherever it stands and whatever else is joined |
| WorkerErrors.PermanentExactly | internal/application/classification_worker_error.go:133-255 | for every error: which ones wrapping makes permanent, stated by what they wrap |
| WorkerErrors.UnspecifiedExactly | internal/application/classification_worker_error.go:163-167 | only an adapter can leave the class open |
| WorkerErrors.RetriedStatuses | internal/application/classification_worker_error.go:217-282 | an HTTP failure, however wrapped, is retried exactly for 408, 425, 429 and 500 to 599, unless an earlier kind of failure is wrapped as well |
| WorkerErrors.RetriedFailures | internal/application/classification_worker_error.go:175-254 | unless an earlier kind of failure decides, a known failure is retried exactly when a light curve is late or unreachable and not known to be missing, and an unknown one exactly in a dependency step |
| WorkerErrors.TimedOutSourceIsCancelled | internal/adapter/lightcurve/repository.go:110-115 | an unreachable light curve joined with an expired deadline is CANCELLED and not retried |
| WorkerErrors.CodesAreNotEmpty | internal/application/classification_worker_error.go:153-255 | a classified error has a code, so its dead letter can be built |
| WorkerErrors.CodesExactly | internal/application/classification_worker_error.go:175-282 | the code of every error that nothing earlier decides: the first kind of known failure it wraps, its status, the network, or the step |
| CommandHandlers.HandleCommand | internal/application/classification_worker.go:109-315 | the result is published only after every earlier stage, and nil comes back exactly when that publication was acknowledged |
| CommandHandlers.HandleWithRetry | internal/application/classification_command_retry_handler.go:61-153 | one attempt more than the leading retryable ones, wait j with delay j capped at the last, and a balanced retry gauge |
| CommandHandlers.HandleDeadLetter | internal/application/classification_command_dlq_handler.go:75-202 | at most one dead letter, only for a permanent failure, and nil only when it was sent or nothing failed |
| CommandHandlers.StackNil | internal/application/classification_command_dlq_handler.go:75-202 | the stack returns nil exactly when the deciding attempt succeeded, or failed permanently with an acknowledged dead letter |
| CommandHandlers.DecodeFailuresArePermanent | internal/application/classification_command_decode.go:14-28 | every failure to decode a command is permanent, names its step and keeps its code, so its dead letter can be built |
| CommandHandlers.CommandCodeNamesTheFault | internal/application/classification_command_decode.go:14-28 | the code of a refused command names something that is wrong with it |
| CommandHandlers.RefusedCommandsAreDeadLettered | internal/application/classification_command_dlq_handler.go:75-202 | a command that the decoder refuses is never retried, and the stack returns nil exactly when its dead letter is acknowledged |
| RetryObserver.Observer.RetryStarted | internal/observability/commandmetrics/observer.go:122-134 | enters the retry state; the first one sets the start time |
| RetryObserver.Observer.RetryFinished | internal/observability/commandmetrics/observer.go:144-158 | leaves the retry state; the last one clears the start time |
| RetryObserver.GaugeCountsHandlers | internal/observability/commandmetrics/observer.go:122-158 | in every interleaving the gauge is the number of handlers in retry, and the start time is no later than any of theirs |
| ResultHandlers.WriteResult | internal/application/classification_result_writer.go:63-167 | decodes, saves and translates the outcome; success means the identity is in the table |
| ResultHandlers.RetryResultWrites | internal/application/classification_result_retry_handler.go:52-157 | retries everything transient while the context is live, with the capped delays |
| ResultHandlers.DeadlineIsRetried | internal/application/classification_result_retry_handler.go:82-90 | a failure that wraps an expired deadline is retried exactly when it is not permanent, wraps no cancellation, and the record's own context is live through the wait |
| ResultHandlers.HandleResultDeadLetter | internal/application/classification_result_dlq_handler.go:53-178 | at most one dead letter, only for a permanent failure |
| ResultHandlers.ResultStackNil | internal/application/classification_result_dlq_handler.go:53-178 | nil exactly when the last write succeeded, or failed permanently with an acknowledged dead letter |
| ResultHandlers.WriterFailuresAreBuildable | internal/application/classification_result_writer.go:88-166 | among the failures of the writer exactly decode failures and conflicts are permanent, and all have a code |
| ResultHandlers.ResultCodeNamesTheFault | internal/application/classification_result_decode.go:84-206 | the code of a refused result names something that is wrong with it |
| EndToEnd.NilMeansCommandEffect | internal/application/classification_worker.go:281-315 | the command stack returns nil only with its result published or its command dead-lettered |
| EndToEnd.NilMeansResultEffect | internal/application/classification_result_writer.go:115-166 | the result stack returns nil only with the identity stored or the result dead-lettered |
| EndToEnd.Conservation | internal/adapter/kafka/async_consumer.go:182-194 | in every reachable state each command below the committed offset has a result or a dead letter, and each such result a stored identity or a dead letter |
| EndToEnd.CommandsReachTheDatabase | internal/application/classification_command_dlq_handler.go:93-201 | once its results are consumed, a command has the run of its own job in the database unless a dead letter holds it or its result |
| EndToEnd.UnreadableCommandsFinish | internal/application/classification_command_dlq_handler.go:93-201 | a command that does not decode finishes only through its dead letter, and with it always can |
| EndToEnd.UnreadableResultsFinish | internal/application/classification_result_dlq_handler.go:53-178 | a result that does not decode can always finish through its dead letter |
| EndToEnd.PublishedCommandsFinish | internal/application/classification_worker.go:281-315 | once the worker's own result is published, one successful attempt finishes the command |
| EndToEnd.SavedResultsFinish | internal/application/classification_result_writer.go:115-166 | once its run is saved, one successful attempt finishes the result |
| BinaryTensor.CountElements | internal/adapter/triton/binary_tensor.go:222-241 | the guarded product is the exact one, or an error exactly when a dimension is not positive or the product leaves int |
| BinaryTensor.ExpectedDataSize | internal/adapter/triton/binary_tensor.go:191-207 | the same for the byte size |
| BinaryTensor.FillWords | internal/adapter/triton/binary_tensor.go:99-127 | the buffer holds the little-endian words end to end |
| BinaryTensor.ReadWords | internal/adapter/triton/binary_tensor.go:442-482 | reading returns the words of the buffer |
| BinaryTensor.WordsRoundTrip | internal/adapter/triton/binary_tensor.go:99-127 | decoding inverts encoding for every width |
| BinaryTensor.DataRoundTrip | internal/adapter/triton/binary_tensor.go:442-482 | encoding inverts decoding for every width |
| InferProtocol.NewExactly | internal/adapter/triton/binary_tensor.go:141-179 | a tensor is built exactly when its shape holds the given number of values |
| InferProtocol.ValuesRoundTrip | internal/adapter/triton/binary_tensor.go:442-494 | decoding a built tensor returns the very bits, for all four data types |
| InferProtocol.TensorRoundTrip | internal/adapter/triton/binary_tensor.go:442-494 | rebuilding from the decoded values returns the very tensor |
| InferProtocol.NameSyntax | internal/adapter/triton/client.go:23-25 | the syntax of names, letter by letter |
| InferProtocol.VersionsExactly | internal/adapter/triton/client.go:27-29 | a version is the decimal text of a positive number, of any length |
| InferProtocol.EncodeRequest | internal/adapter/triton/binary_tensor.go:245-338 | succeeds exactly for valid names, version, distinct valid tensors and sizes within int; the body is the JSON header of exactly these tensors and, from the stated length on, their data end to end |
| InferProtocol.RequestSplits | internal/adapter/triton/binary_tensor.go:306-329 | cutting an encoded request by its own headers gives back the very inputs |
| InferProtocol.SplitOutputs | internal/adapter/triton/binary_tensor.go:386-420 | finds the one list of tensors that the headers cut the body into, or fails because there is none |
| InferProtocol.SplitExactly | internal/adapter/triton/binary_tensor.go:386-420 | splitting gives a list of tensors exactly when they are valid and these are their headers and their data end to end |
| InferProtocol.DecodeResponse | internal/adapter/triton/binary_tensor.go:342-423 | decodes a response exactly to what it carries: a well-framed body with a valid header and the outputs' data end to end; otherwise it fails |
| InferProtocol.TilesUnique | internal/adapter/triton/binary_tensor.go:319-321 | a payload splits in one way only, so concatenated tensors split back to the same list |
| Binary32.MagnitudeOrder | internal/adapter/triton/classifier.go:281-285 | float32 bit patterns compare with one and zero as their values do |
| Binary32.ProbabilityBits | internal/adapter/triton/classifier.go:281-285 | the accepted probabilities are the patterns up to that of one, and minus zero |
| TritonClassifier.MapOutputs | internal/adapter/triton/classifier.go:196-269 | answers of another model or version are refused; otherwise the loop over the outputs computes what the four names mean, wherever they stand |
| TritonClassifier.MapsExactly | internal/adapter/triton/classifier.go:206-299 | an output is read exactly from the four tensors that carry it, in any order: little-endian words that are probabilities, and the flag that the mode asks for |
| TritonClassifier.NamesSpelled | internal/adapter/triton/classifier.go:17-20 | the output names are these texts |
| TritonClassifier.OrderDoesNotMatter | internal/adapter/triton/classifier.go:196-269 | permuting the outputs changes nothing |
| RateScheduler.NewPlan | cmd/triton-capacity-bench/rate_schedule.go:25-39 | a plan exists exactly for rates of 1 to 200, one second to ten minutes and at most 100000 requests, whose number is the rounded-up product, without overflow |
| RateScheduler.Dispatch | cmd/triton-capacity-bench/rate_schedule.go:57-169 | on every path the count is the number of accepted jobs, which are the first ones; a planned run succeeds exactly when it is healthy (live, no lag above one second, every job accepted in time, every complete window at 95 percent), and an error names the first fault |
| RateScheduler.WindowAdvances | cmd/triton-capacity-bench/rate_schedule.go:115-130 | on-time jobs open at most one new window at a time, counted exactly |
| RateScheduler.LastWindow | cmd/triton-capacity-bench/rate_schedule.go:208-232 | the last job falls into the last planned window |
| Workload.StepInv | cmd/triton-capacity-bench/workload.go:49-126 | a submitted job is in the hands of one worker or written once |
| Workload.EachSubmittedJobWrittenOnce | cmd/triton-capacity-bench/workload.go:84-126 | when the workload returns exactly the submitted slots were written, once each; a failure is reported exactly when a paced call failed |
| Workload.ReportsFirstFailure | cmd/triton-capacity-bench/workload.go:72-79 | a paced workload reports the first failed call, whatever comes later; its calls are cancelled exactly by that or by the parent |
| Workload.NoSlotIsShared | cmd/triton-capacity-bench/workload.go:55-80 | no slot is in the hands of two workers |
| Workload.DispatchedJobsAreWritten | cmd/triton-capacity-bench/workload.go:86-126 | the count that the rate scheduler reports is the number of submitted jobs, and when the workload returns exactly so many slots, the first ones, were written once |
| Workload.CanAlwaysFinish | cmd/triton-capacity-bench/workload.go:49-126 | from every reachable state there is a run in which the workload returns, whatever failed or was cancelled |
| Backlog.PartitionPositions | internal/observability/kafkabacklog/position_reader.go:127-256 | one position per partition in order, the offset within the retained log, exactly when every partition is answered |
| Backlog.ValidateSnapshot | internal/observability/kafkabacklog/metrics.go:204-257 | accepts exactly the valid snapshots |
| Backlog.TakeSnapshot | internal/observability/kafkabacklog/source.go:81-243 | succeeds exactly for observable positions, and its result always passes validation |
| Backlog.PositionsAreObservable | internal/observability/kafkabacklog/source.go:134-204 | positions from the reader can fail only through a record lookup |
| Backlog.Metrics.PublishSeries | internal/observability/kafkabacklog/metrics.go:131-171 | afterwards the key exports exactly the given partitions and values, other keys what they did |
| Backlog.Metrics.Apply | internal/observability/kafkabacklog/metrics.go:120-184 | an invalid snapshot changes nothing; a valid one replaces the whole view of its key |
| Backlog.Metrics.MarkSnapshotFailure | internal/observability/kafkabacklog/metrics.go:188-202 | a failure changes the success flag of its key and nothing else |
| Backlog.Metrics.Refresh | internal/observability/kafkabacklog/refresher.go:91-155 | one refresh is one step of the view |
| Backlog.LastSuccessShows | internal/observability/kafkabacklog/refresher.go:91-155 | after any sequence of refreshes with a success the series and time are those of the last success, and the flag that of the last refresh |
| Backlog.FailuresKeepSeries | internal/observability/kafkabacklog/refresher.go:91-155 | without a success, series and time stay what they were and the flag is false after the first refresh |
| Backlog.SeriesAreExact | internal/observability/kafkabacklog/metrics.go:137-152 | the exported partitions and values are exactly those of the snapshot |

## Left out

- The Kafka, PostgreSQL, HTTP, Prometheus and logging clients: only the contracts the
  code relies on appear, as steps or parameters.
- AsyncConsumer: generations in the protocol machine are unbounded; the wrap at 2^64 is
  stated on the object in `RebalanceYield.Yield`.
- RebalanceYield.Yield: the nil receiver, which never requests anything, is not modelled.
- AsyncConsumer: the nil-record and fetch-error branches end a session like any other
  poll failure, and the order of the commit list and the commit progress metric do not
  appear.
- Uuid.Parse: accepts the 36-character form only; the library also reads the URN, braced
  and bare forms, which no identifier of the pipeline uses.
- Identity: SHA-1 itself is not modelled.
- ResultCodec and CommandCodec: protobuf bytes are an empty, malformed or encoded body;
  encoding errors for invalid UTF-8, message headers and record timestamps do not appear.
- Repository: each save is one atomic step, so nothing is said about isolation levels;
  stored times keep their full precision, identifiers are compared as canonical text, and
  the read of the current classification with its row decoding is not modelled.
- CoarseReuse: the classifier is handed the stored probabilities; that the model server's
  answer repeats them is not modelled.
- WorkerErrors: of the tree of wrapped and joined errors only the order matters in which
  `errors.Is` and `errors.As` visit it, so an error is that list.
- CommandHandlers.HandleDeadLetter: the dead letter is the original message; its extra
  headers are not modelled.
- CommandHandlers.HandleCommand: durations and the in-flight gauge are not modelled.
- RateScheduler.CheckDispatchWindow: compares in exact arithmetic, because IEEE rounding
  of the two rates is not the point.
- RateScheduler: the unpaced mode and flag resolution are one branch each.
- InferProtocol.EncodeRequest: the JSON encoder is a parameter, and the HTTP header map is
  its one value that varies.
- InferProtocol.DecodeResponse: the JSON decoder is a parameter, and the media type and
  the header length come in parsed. Data types are the four supported ones: an unknown
  datatype string, which the source refuses tensor by tensor, is a header that does not
  parse.
- TritonClassifier: the input tensors are five constructor calls and only add easy
  members.
- Backlog: names are taken as already trimmed, per-partition broker errors count as
  missing answers, and the record reader's polling is not modelled.
- LightCurve.SortByTime: stands for the library sort and uses insertion.
- Candidate orchestration, configuration, the web interface, the mock server, the
  contract gate and the management endpoints.
