# forward-stub: a verified model

forward-stub receives packets, routes them through selectors to tasks, runs each task's pipelines
and hands the outcome to senders; its whole configuration can be reloaded while it runs. This
project models the parts of it whose correctness is hardest to see from the code, in Dafny, and
proves what the code and its documentation promise about them.

Verify it with `dafny verify dfyconfig.toml`.

## What is modelled

* **Chunk reassembly and upload** (`OssTransfer`, `OssRuns`, `OssDelivery`, `OssProgress`,
  `OssUnknownSize`, `OssStuck`, `OssLimits`). `OssTransfer.TransferState` is the sender's mutable per-file state; each locked
  section is a method proved equal to a function, and `OssRuns` interleaves those functions with
  uploads and completions that may fail, or be reported failed and still take effect later.
* **Received ranges and commit by rename** (`Ranges`, `Sftp`, `SftpRuns`, `SftpRenames`, `SftpFinals`). The
  merge loop is proved equal to a simple insertion; lists are canonical, hence determined by the
  offsets they cover. `SftpRuns` follows which offsets have been written since a temporary file was
  last moved, `SftpFinals` what is at the final path, which each commit removes before it renames.
* **Accepting, running and stopping a task** (`TaskProtocol`), for the three execution models and
  any interleaving of calls with one graceful stop.
* **Packets, fan-out and pooled buffers** (`Packets`, `Dispatch`, `TaskRun`, `Pipelines`).
  `Dispatch` is the product of any number of task protocols with a dispatcher and a buffer pool
  whose returned buffers anybody may take.
* **Hot reload** (`DeltaPlan`, `StageCache`, `StageRefs`, `StoreWork`, `StoreState`, `ReloadSteps`,
  `ReloadTasks`, `ReloadRuns`, `ReloadLimits`, `ReloadRetry`, `ReloadResults`, `Store`).
  `Store.RuntimeStore` is the store with its maps and loops; every method is tied to a step of
  `StoreState` or `StoreWork`, and the results are about runs of those steps. Sender instances and task instances are identified by
  name and the reload that built them.
* **Validation against compilation** (`Text`, `Config`, `Stages`, `Validation`).
* **Codecs and queues** (`Framing`, `FramingReads`, `MatchKey`, `SkyDds`, `SkyDdsClose`,
  `SkyDdsOrder`, `SkyDdsWrites`, `KafkaAsync`, `KafkaLeftBehind`).

Map iteration is arbitrary: every loop over a map picks its next key freely, and results are proved
not to depend on it. Remote calls, timers, timeouts, goroutine scheduling and pool behaviour are
nondeterministic steps. Regular expressions are a predicate shared by validation and compilation;
path rewriting is a function parameter; a stage's signature is its configuration.

## Where the code does not do what one would expect

* The receiver's u16be handler moves the unfinished tail of a read to the front of the buffer its
  frames still alias, before copying them out. `Framing.CorruptedFrame` is a read that is delivered
  wrongly; `Framing.IntactExactly` says exactly which frames survive. Over any sequence of reads the
  handler delivers exactly the payloads if and only if no read clobbers a frame
  (`FramingReads.DeliveredExactly`).
* Two-field match keys are injective for every second field name in use, but not for all names:
  `MatchKey.TwoFieldInjectiveExactly` gives the exact condition.
* An OSS transfer of unknown size can be completed short: `OssLimits.UnknownSizeCompletesShort` is
  such a run. `OssUnknownSize.UnknownSizeIsTheFileExactly` gives the exact condition, for every
  object of every run whose EOF is only on a chunk reaching the end: the contiguous prefix must have
  caught up with the received ranges when the list was drawn up, a comparison `readyToComplete`
  makes only when the size is known. An empty file is never completed
  (`OssProgress.EmptyFileNeverCompletes`).
* An OSS transfer whose chunks overlap can receive every byte and stay unfinished for good, because a
  parked segment that falls behind the contiguous prefix is never drained: `OssStuck.OverlapGetsStuck`
  is such a run, `OssStuck.StuckForGood` says nothing sent again helps. With chunks always cut the same
  a fully received transfer is ready if and only if nothing is parked behind the prefix
  (`OssStuck.StuckExactly`); in general it takes besides that no received byte was ignored, which a
  longer chunk at an offset already parked can cause (`OssStuck.ReadyExactly`).
* An SFTP rename that succeeded but whose reply was lost leaves a transfer ready to commit, and the
  next chunk to be written is renamed at once (`SftpRenames.ResendRenamesAtOnce`);
  `SftpRenames.ResentChunkReplacesTheFile` is a run that replaces the complete file by its last
  byte. `SftpRenames.RenameRightIffCovered` says of every rename of every run that all offsets below
  the size are right if and only if the writes since the previous move cover the size; the first
  rename of a transfer always is. Each commit removes the final path before it renames, so the resend
  can also delete the complete file: the final path of a renamed transfer is empty if and only if a
  later commit removed it and did not rename (`SftpFinals.FinalIsLastRename`), the file is then lost
  unless all of it was written again (`SftpFinals.LostExactly`), and
  `SftpFinals.ResentChunkLosesTheFile` is such a run.
* A SkyDDS timer flush that a `Close` overtakes and that then fails leaves its messages in the batch
  for good. `SkyDdsClose.CloseOvertakesTimer` is such a run, `SkyDdsClose.StrandedExactly` the exact
  condition, and `SkyDdsClose.CanStrandExactly` its form at the close: messages can still be left
  behind if and only if a timer flush is in flight.
* Overlapping SkyDDS flushes can reorder messages (`SkyDds.OverlapReorders`). In every run, failures
  included, they do exactly when a written flush is out of order itself or overtakes an older message
  that is written later (`SkyDdsWrites.WrittenInOrderExactly`); when no write fails, exactly when a
  flush is written before an older one (`SkyDdsOrder.WrittenInOrderExactly`).
* A Kafka `Send` under way when `Close` begins can report success after the worker has left; its record
  stays in the queue although the close did not time out (`KafkaLeftBehind.AcceptedAfterExit`). Never
  produced are exactly the records enqueued after the worker left
  (`KafkaLeftBehind.NeverProducedExactly`).
* An incremental update accepts a configuration that removes a sender which tasks still name,
  although a full rebuild of it is refused: references keep the old sender in the store, where the
  task loop looks it up (`ReloadLimits.RemovedSenderAccepted`). Validation rejects such a
  configuration; `UpdateCache` itself does not. A successful update runs its configuration if and
  only if nothing in it is missing (`ReloadLimits.DeltaRunsExactly`).
* A failed update is not undone. If it fails before any task was touched, its selectors may already be
  published; the next update compares with them and need not make routes anew. It succeeds on every
  loadable configuration, and the store then runs it if and only if routes were made anew or were right
  already (`ReloadRetry.RetryRunsExactly`). `ReloadRetry.RetryKeepsRoutes` is the case of new selectors
  together with a sender that could not be built the first time: the retry reports success and
  receivers go on routing by the old selectors. A failure after senders were replaced also loses the
  list of replaced senders, which are then never closed (`ReloadRetry.LeaksExactly`).
* Between successful reloads the stage cache is always empty (`ReloadResults.CacheEmptyAtRest`):
  entries are collected before tasks retain them.
* Loading the same configuration again restarts tasks that use an empty, non-nil pipeline
  (`ReloadResults.ReloadOfTheSame`).

## Model

| member | source | states |
|---|---|---|
| Ranges.AddRange | src/sender/sftp.go:375-416 | the merge loop computes exactly the simple recursive insertion, and the covered-byte count of the result |
| Ranges.InsertCovers | src/sender/sftp.go:375-416 | insertion keeps the list sorted, disjoint and non-touching and adds exactly the offsets of the new range |
| Ranges.CanonicalUnique | src/sender/sftp.go:375-416 | two canonical lists covering the same offsets are the same list |
| Ranges.AdditionOrderIrrelevant | src/sender/sftp.go:375-416 | reordering or repeating additions gives the identical list |
| Ranges.TotalCountsOffsets | src/sender/sftp.go:409-415 | `coveredBytes` is the number of distinct offsets received |
| OssTransfer.TransferState.AcceptPacket | src/sender/oss.go:247-268 | one locked section: note totals and ranges, accept the chunk, elect a driver when there is work and none |
| OssTransfer.TransferState.AcceptChunk | src/sender/oss.go:432-455 | append, drop or park a chunk; the refusal when parked bytes exceed the limit |
| OssTransfer.TransferState.DrainContiguousSegments | src/sender/oss.go:457-468 | draining ends and leaves nothing parked at the next offset |
| OssTransfer.TransferState.NextUploadOperation | src/sender/oss.go:337-351 | full part, last part, completion or going idle, in that order |
| OssTransfer.TransferState.ReservePartUpload | src/sender/oss.go:353-364 | the reserved prefix leaves the buffer, the rest stays |
| OssTransfer.TransferState.CompleteParts | src/sender/oss.go:497-510 | the completion list is the uploaded parts in number order |
| OssTransfer.TransferState.FinishPartUpload | src/sender/oss.go:366-376 | success records the part, failure puts its bytes back in front |
| OssTransfer.TransferState.FinishCompleteUpload | src/sender/oss.go:378-382 | the driver flag is cleared |
| OssRuns.StepSound | src/sender/oss.go:247-302 | every step of every interleaving keeps the single driver, the flow of bytes and the correctness of completions |
| OssRuns.SingleDriverNoLostWork | src/sender/oss.go:247-268 | at most one driver; nothing left waiting behind an idle one; pending bytes exact and bounded; uploaded, in-flight and buffered bytes are the file so far |
| OssRuns.CompletedObjectsAreTheFile | src/sender/oss.go:270-302 | whatever is completed, in any interleaving with failures and overlaps, is a prefix of the file reaching the known size, hence the file |
| OssDelivery.EveryCutRun | src/sender/oss.go:432-468 | with a fixed cut, every completion lists parts 1..n, all full but the last, concatenating to the file |
| OssProgress.DriverStepDecreases | src/sender/oss.go:270-302 | each driver step leaves less work, so a driver always finishes |
| OssProgress.EventuallyDelivered | src/sender/oss.go:247-302 | all chunks arrived in any order with duplicates, limit kept, uploads succeeding: the run ends with the whole object completed |
| OssProgress.EmptyFileNeverCompletes | src/sender/oss.go:484-495 | a transfer of no bytes is never ready, whatever chunks announce |
| OssStuck.ReadyExactly | src/sender/oss.go:432-495 | with the size known and every byte received, a transfer is ready if and only if no parked segment is behind the prefix and no received byte was ignored |
| OssStuck.StuckExactly | src/sender/oss.go:432-495 | in every run whose chunks are always cut the same, once every byte and EOF have arrived, ready to complete if and only if no parked segment is behind the prefix |
| OssStuck.StuckForGood | src/sender/oss.go:443-468 | once stuck that way, whatever arrives or is sent again, the transfer never becomes ready |
| OssStuck.OverlapGetsStuck | src/sender/oss.go:443-468 | a concrete run of two overlapping chunks that have brought every byte and get stuck |
| OssUnknownSize.ReadyPartsArePrefix | src/sender/oss.go:337-351 | what a driver about to complete has uploaded is exactly the file up to the next expected offset |
| OssUnknownSize.EveryRunReceived | src/sender/oss.go:432-468 | in every run the contiguous prefix and all parked bytes are among the received ranges, and the chunk with EOF has left its mark |
| OssUnknownSize.UnknownSizeIsTheFileExactly | src/sender/oss.go:484-495 | every completed object of every run, EOF only on a chunk reaching the end, is the file if and only if the contiguous prefix equalled the end of the received ranges when its list was drawn up |
| OssLimits.UnknownSizeCompletesShort | src/sender/oss.go:443-455 | a concrete run of unknown size that completes with a strict prefix of the file, the prefix being behind the ranges |
| Sftp.SftpSender.PickShard | src/sender/sftp.go:343-355 | a transfer keeps its shard; a new one takes the next in turn |
| Sftp.SftpSender.SendLocked | src/sender/sftp.go:207-271 | one packet under its shard's lock, for every way the remote side can answer |
| Sftp.SftpSender.CleanupCommittedTransfer | src/sender/sftp.go:357-362 | a committed transfer leaves both tables |
| SftpRuns.EveryRunTracked | src/sender/sftp.go:207-269 | in every run, any retries and losses included, the temporary file is what was there before overlaid with the source bytes at exactly the offsets written since its last move; until the first move the recorded ranges are among those |
| SftpRenames.EveryRename | src/sender/sftp.go:241-269 | every rename moves what was written since the previous one of its transfer, leading parts of failed writes included; at the first one the writes cover the size |
| SftpRenames.RenameRightIffCovered | src/sender/sftp.go:207-269 | a rename has the source byte at every offset below the known size if and only if the writes since the previous move cover the size |
| SftpRenames.FirstRenameIsTheFile | src/sender/sftp.go:241-269 | the first rename always has, and is the file exactly when no stale tail was left there |
| SftpRenames.LaterRenameIsTheFile | src/sender/sftp.go:207-269 | a later rename of the same transfer is the file exactly when the whole file was written again since the move |
| SftpRuns.OneShardUntilRenamed | src/sender/sftp.go:343-355 | until it is renamed all chunks of a transfer use one shard |
| SftpRenames.ReadyIffComplete | src/sender/sftp.go:418-429 | ready means EOF seen and every offset below the size received, both ways |
| SftpRenames.LostReplyOrphans | src/sender/sftp.go:256-269 | a rename whose reply is lost leaves the transfer with its complete ranges and no temporary file |
| SftpRenames.ResendRenamesAtOnce | src/sender/sftp.go:207-269 | the next chunk written in full is then renamed at once, with whatever failed calls wrote since; a failed call leaves the transfer as it is |
| SftpRenames.ResentChunkReplacesTheFile | src/sender/sftp.go:207-269 | a concrete run that renames the complete file, loses the reply, and renames the resent last byte over it |
| SftpFinals.FinalIsLastRename | src/sender/sftp.go:256-269 | in every run the final path of a renamed transfer holds what its last rename moved there, unless a later commit removed it and did not rename |
| SftpFinals.FinalBeforeRename | src/sender/sftp.go:256-269 | before its first rename it holds what an earlier run left there, unless a commit removed that |
| SftpFinals.LostExactly | src/sender/sftp.go:207-269 | with the final path removed, the whole file is still in the temporary file if and only if all of it was written again since the last move |
| SftpFinals.OrphanCanLoseFinal | src/sender/sftp.go:207-269 | after a lost rename reply one chunk sent again, its rename failing after the removal, empties the final path |
| SftpFinals.ResentChunkLosesTheFile | src/sender/sftp.go:256-269 | a concrete run in which the complete file is deleted and only its last byte is left, in the temporary file |
| TaskProtocol.HandleAndStopAreSafe | src/task/task.go:161-240 | no send on a closed channel, no submit to a released pool, no run after the stop returned, each packet released at most once and exactly once when its call ended |
| TaskProtocol.StoppedIsEmpty | src/task/task.go:284-315 | when the stop has returned nothing is queued, running or in flight and the channel worker has drained everything |
| TaskProtocol.ChannelIsFifo | src/task/task.go:233-240 | the channel model starts packets in enqueue order, one at a time |
| TaskProtocol.StepDecreases | src/task/task.go:161-240 | every step but a new arrival leaves less to do |
| TaskProtocol.NeverStuck | src/task/task.go:284-315 | some step is always possible until all calls ended and the stop returned |
| Packets.PooledPacket.Release | src/packet/packet.go:111-116 | the release function runs on the first call only and the buffer returns to the pool |
| Packets.PooledPacket.Clone | src/packet/packet.go:121-126 | a clone has a buffer of its own with the same bytes and a copy of the envelope; the original is untouched |
| Packets.Pool.CopyFrom | src/packet/pool.go:7-14 | the lent buffer is one nobody else holds and carries a copy of the input |
| Packets.RewriteCloneThenRead | src/runtime/update_cache.go:1189-1199 | rewriting a clone's payload and metadata, releasing it and re-lending its buffer does not show in the original |
| Dispatch.StepInv | src/runtime/update_cache.go:1165-1199 | every step of dispatcher, tasks and foreign pool users keeps ownership exclusive and unstarted packets intact |
| Dispatch.EveryStartIsOriginal | src/runtime/update_cache.go:1189-1199 | a task that begins to run a packet finds the received bytes, whatever others rewrite; no packet is released twice |
| Dispatch.EndedCallsReleaseOnce | src/task/task.go:226-231 | a call that has ended, however it went, released its packet exactly once |
| Dispatch.FinishedJobServesEveryTask | src/runtime/update_cache.go:1178-1199 | each matched task got a packet of its own with the received bytes, the first one the original; with none matched the packet was released |
| Dispatch.EverythingReleasedOnce | src/runtime/update_cache.go:1165-1199 | when all calls have ended every original and clone was released exactly once |
| Dispatch.EveryRunShaped | src/runtime/update_cache.go:1165-1199 | every packet a job or a task names exists and its buffer is known to the pool, so the side condition under which steps are defined never restricts a run |
| TaskRun.RebuildSenderIndex | src/task/task.go:414-427 | the index knows exactly the bound names, the last sender of a name winning |
| TaskRun.ProcessAndSend | src/task/task.go:322-365 | the loops send what the pipelines yield: routed packets to one sender, others to all, misses counted; and release once each packet that is not the one given |
| TaskRun.OneOrNone | src/task/task.go:322-339 | a task's pipelines yield at most one packet, and with stages that rewrite in place it is the very packet they were given |
| TaskRun.NothingExtra | src/task/task.go:340-364 | then nothing else has to be released |
| Pipelines.MapStage | src/pipeline/stage_utils.go:5-24 | each packet is visited once and rewritten in place; the result is the kept ones in order, the input list itself when all are kept |
| Pipelines.Process | src/pipeline/pipeline.go:23-34 | stages in order, stopping when nothing is left, equal to running them all |
| Pipelines.GuardIsExact | src/pipeline/stages_offset.go:13-30 | the bounds test with wrapping addition accepts exactly the ranges inside the payload |
| Pipelines.ReplaceThenMatch | src/pipeline/stages_offset.go:13-72 | a kept replacement changes exactly the bytes it covers, to what a match of them accepts |
| Pipelines.HexKeyIsTheField | src/pipeline/stages_kafka.go:32-39 | a hexadecimal record key decodes to the field it was taken from |
| Pipelines.RouteByCases | src/pipeline/stages_route.go:6-28 | a compiled route stage sends each field to the last case decoding to it, else to the default sender, else drops the packet; short payloads are dropped |
| Stages.CompileStage | src/runtime/compiler.go:114-202 | the stage a configuration compiles to, or failure, in every branch |
| Stages.CompileRoutes | src/runtime/compiler.go:127-155 | the routing loop fails exactly on a bad, empty or uneven case and otherwise builds the table of all cases |
| Stages.TableEntry | src/runtime/compiler.go:134-155 | a routed value goes to the sender of the last case, in sorted order, that decodes to it |
| Text.DecodeEncodeHex | src/pipeline/stages_kafka.go:32-39 | hexadecimal text decodes to the bytes it was made from |
| Text.ListingUnique | src/runtime/update_cache.go:445-465 | a set has one sorted listing without duplicates, so a sorted plan does not depend on map order |
| Validation.Validate | src/config/validate.go:52-157 | the reference and stage checks pass exactly when every listed condition holds |
| Validation.ValidateStage | src/config/validate.go:442-509 | a stage check passes exactly when its configuration is well formed |
| Validation.ValidateCases | src/config/validate.go:459-479 | the loop over route cases accepts exactly non-empty hexadecimal cases of one length with senders, in any map order |
| Validation.RouteStageTargets | src/config/validate.go:876-888 | lists the case senders and the default sender, each once, empty names left out |
| Validation.ContainsString | src/config/validate.go:867-874 | finds an element exactly when it is there |
| Validation.ValidateTask | src/config/validate.go:72-108 | a configured task passes exactly when its references exist and its routes stay among its senders |
| Validation.ValidStageCompiles | src/runtime/compiler.go:114-202 | a stage that passes its check compiles |
| Validation.ValidReferencesResolve | src/config/validate.go:83-157 | after validation no stage fails to compile and no pipeline, sender, task set or selector is missing |
| Validation.RoutesNeverMiss | src/task/task.go:348-356 | for every packet a validated task finds whatever sender its stages route to |
| Validation.TaskReleasesNothing | src/task/task.go:322-365 | every stage of a validated task rewrites in place, so it passes on the packet object it was given or none and releases no other |
| Validation.SendsExactly | src/task/task.go:340-361 | then nothing is sent, or the one resulting packet goes to every sender or to the one it names |
| DeltaPlan.SplitDelta | src/runtime/update_cache.go:445-465 | added and removed names exactly, sorted, without duplicates |
| DeltaPlan.ExpandTaskDelta | src/runtime/update_cache.go:470-593 | adds exactly the tasks that use something changed in either version |
| DeltaPlan.PlanBusinessDelta | src/runtime/update_cache.go:401-437 | the whole plan: sorted lists of the names to build and to take down, for every kind of item, tasks widened by what they use |
| DeltaPlan.PlanChanges | src/runtime/update_cache.go:259-263 | a kind has names in the plan exactly when its part of the configuration differs |
| DeltaPlan.PlanSaysOfTask | src/runtime/update_cache.go:401-593 | a task is removed or added exactly when it is gone or new, differs, or uses in either version a sender or pipeline that changed |
| DeltaPlan.PlanUnique | src/runtime/update_cache.go:401-437 | there is one plan for two configurations |
| StageCache.CompilePipelinesWithStageCache | src/runtime/compiler.go:52-109 | compiling with the cache succeeds and yields exactly as compiling without; a failure leaves the cache as it was |
| StageCache.CompilePipelines | src/runtime/compiler.go:20-37 | compiles every stage or fails |
| StageRefs.RetainTaskStageRefs | src/runtime/update_cache.go:908-926 | the entries behind the named pipelines list the task, counted once |
| StageRefs.ReleaseTaskStageRefs | src/runtime/update_cache.go:931-949 | the inverse, for entries that list it |
| StageRefs.RebuildStageTaskRefs | src/runtime/update_cache.go:970-996 | recounting gives each entry exactly the tasks that use it |
| StageRefs.GcUnusedStageCache | src/runtime/update_cache.go:952-965 | keeps exactly the referenced entries |
| StageRefs.CollectedIsExact | src/runtime/update_cache.go:952-996 | after recounting and collecting an entry is there exactly if some task uses it, with those tasks and their number |
| StoreWork.ReplacedOk | src/runtime/update_cache.go:642-652 | replacing senders keeps counts, bindings and the one-life-each of instances |
| StoreWork.DroppedOk | src/runtime/update_cache.go:653-663 | a sender without references can be closed: no running task is bound to it |
| StoreWork.AddedOk | src/runtime/update_cache.go:807-853 | starting a task binds it to open instances and counts its references |
| StoreWork.RemovedOk | src/runtime/update_cache.go:881-903 | removing one gives them back |
| StoreWork.DeferredOk | src/runtime/update_cache.go:346-348 | replaced instances close once, after every task bound to them has stopped |
| ReloadTasks.RestartedOk | src/runtime/update_cache.go:315-332 | the first task loop fails exactly on a task whose pipelines or senders are missing; either way counts and bindings stay exact, and on success removed tasks are down unless added again, bound to current senders |
| ReloadTasks.ExtendedOk | src/runtime/update_cache.go:333-340 | the second loop likewise; on success it has started exactly the remaining added tasks |
| ReloadRuns.DeltaRuns | src/runtime/update_cache.go:238-368 | an incremental update of a store that runs one configuration succeeds and the store then runs the next |
| ReloadRuns.FullRuns | src/runtime/update_cache.go:125-228 | so does a full rebuild, in any order of starting tasks |
| ReloadLimits.FullSucceedsExactly | src/runtime/update_cache.go:125-228 | a full rebuild succeeds exactly on a configuration that names nothing missing |
| ReloadLimits.DeltaRunsExactly | src/runtime/update_cache.go:238-368 | an incremental update succeeds on every such configuration, and after any success the store runs the configuration if and only if it is such a one |
| ReloadLimits.RemovedSenderAccepted | src/runtime/update_cache.go:653-663 | removing a sender that tasks still name is accepted incrementally, though not by a full rebuild, and the store then does not run the configuration |
| ReloadLimits.FailedUpdateIsSafe | src/runtime/update_cache.go:315-345 | an update that fails in or after its task loops has left, when it gives up, counts exact, tasks bound to open senders and no sender closed in use |
| ReloadRuns.HeldRunsExactly | src/runtime/update_cache.go:238-368 | on a store whose routes may be out of date an update still succeeds, and the store then runs the configuration if and only if routes were made anew or were right already |
| ReloadRetry.GaveUpHeld | src/runtime/update_cache.go:267-296 | an update that fails before the task loops leaves tasks, senders, pipelines and receivers running what they ran, and closes what it had built |
| ReloadRetry.LeaksExactly | src/runtime/update_cache.go:290-348 | a failure leaks exactly the replaced senders that still waited to be closed; every instance stays accounted for if and only if there are none |
| ReloadRetry.RetryRunsExactly | src/runtime/update_cache.go:238-368 | the update after such a failure succeeds on every loadable configuration; the store then runs it if and only if the plan rewires or the old routes were right |
| ReloadRetry.RetryKeepsRoutes | src/runtime/update_cache.go:283-345 | new selectors and a sender that could not be built at first: the retry succeeds, receivers keep their old routes, and the store runs the configuration if and only if both selectors route the same |
| ReloadResults.EveryRun | src/runtime/update_cache.go:63-91 | after every run of reloads the store runs the configuration loaded last |
| ReloadResults.RoutesShown | src/runtime/update_cache.go:1098-1152 | each receiver routes each key to exactly the live tasks its selector names |
| ReloadResults.TasksShown | src/runtime/update_cache.go:780-853 | live tasks are the configured ones, running the configured stages |
| ReloadResults.IncrementalEqualsFull | src/runtime/update_cache.go:125-368 | after any run, updating incrementally or rebuilding fully gives stores that look alike: receivers, routes for every key, tasks, stages, used senders |
| ReloadResults.SenderLifetime | src/runtime/update_cache.go:601-663 | reference counts are exact, no running task was ever bound to a closed sender, every instance built is current or closed exactly once |
| ReloadResults.StopAllClosesTheRest | src/runtime/store.go:100-156 | stopping everything ends all tasks before any sender closes, and closes each remaining instance once |
| ReloadResults.RestartsExactly | src/runtime/update_cache.go:315-340 | exactly the planned tasks are restarted, all others stay the very same |
| ReloadResults.ReloadOfTheSame | src/runtime/update_cache.go:1087-1093 | reloading the same configuration restarts exactly tasks that use an empty non-nil pipeline |
| ReloadResults.CacheEmptyAtRest | src/runtime/update_cache.go:950-965 | between successful reloads the stage cache is empty |
| ReloadResults.EntriesAreExact | src/runtime/update_cache.go:342-345 | whatever the cache held before, afterwards each entry lists exactly the live tasks using its stage |
| ReloadResults.ValidIsLoadable | src/config/validate.go:52-157 | what validation accepts a reload can load |
| Store.RetainSenders | src/runtime/update_cache.go:807-827 | references are taken in order; an unknown name gives all back |
| Store.CompileSelectors | src/runtime/update_cache.go:1113-1132 | selectors compile exactly when all named tasks are live, to those tasks |
| Store.ResolveTaskSet | src/runtime/update_cache.go:1141-1152 | a task set expands to its live tasks or fails; an unknown set to nothing |
| Store.ClonePipelines | src/runtime/update_cache.go:1087-1093 | the copy turns an empty stage list into nil |
| Store.PublishSenders | src/runtime/update_cache.go:642-652 | replaced senders carry their counts over and their old instances are handed back to be closed |
| Store.RuntimeStore.ApplySenderDelta | src/runtime/update_cache.go:601-664 | the sender step as specified, or on a failed build nothing published and what was built closed |
| Store.RuntimeStore.AddTask | src/runtime/update_cache.go:780-853 | binds, counts, starts and registers, or leaves nothing behind |
| Store.RuntimeStore.RemoveTask | src/runtime/update_cache.go:881-903 | unregisters, gives references back and stops |
| Store.RuntimeStore.GcUnusedSenders | src/runtime/update_cache.go:999-1013 | closes and drops exactly the unreferenced senders |
| Store.RuntimeStore.RebuildReceiverSelectors | src/runtime/update_cache.go:1098-1135 | every receiver gets the routes of its selector, or nothing changes |
| Store.RuntimeStore.CommitReceiverDelta | src/runtime/update_cache.go:709-735 | unconfigured receivers go and stop, built ones come in, each started before the one it replaces stops; if exactly the store's receivers were listening they are again |
| Store.RuntimeStore.StopAll | src/runtime/store.go:100-156 | all receivers stop, then all tasks, then all senders close |
| Store.RuntimeStore.ApplyBusinessDelta | src/runtime/update_cache.go:238-368 | on any store the incremental update does exactly the specified steps; a failure before the task loops has at most published selectors and closed the senders it built, a later one leaves the loops as far as they went and forgets the replaced senders |
| Store.RuntimeStore.ReplaceAll | src/runtime/update_cache.go:125-228 | the full rebuild does exactly the specified steps, receivers being stopped first and started last |
| Store.RuntimeStore.UpdateCache | src/runtime/update_cache.go:63-91 | one reload of any configuration on any store, also one a failed reload has left: a full rebuild when empty, else incremental; on a store that runs something, or on which an update failed before touching tasks, it succeeds when nothing is missing and everything can be built, and then runs the configuration if and only if nothing is missing and routes are right |
| Framing.Send | src/sender/gnet_tcp.go:82-111 | the frame is two big-endian length octets and the payload, whatever the pooled buffer held; longer payloads are refused |
| Framing.Feed | src/receiver/framing.go:14-28 | frames and remainder are the cut of the input: whole frames followed by an incomplete one |
| Framing.CutUnique | src/receiver/framing.go:14-28 | a stream has at most one cut |
| Framing.FeedSplit | src/receiver/framing.go:14-28 | feeding two reads with the remainder carried over is feeding them joined |
| Framing.RoundTrip | src/receiver/framing.go:14-28 | however an encoded stream is split into reads exactly the payloads come out, in order |
| Framing.EmittedSoFar | src/receiver/framing.go:14-28 | while it arrives, what has come out is a prefix of the payloads |
| Framing.OnTraffic | src/receiver/gnet_tcp.go:173-235 | what one read event reports: nothing for an empty read, all that is buffered without a framer, else frames copied out of the overwritten buffer |
| FramingReads.DeliveredExactly | src/receiver/gnet_tcp.go:173-235 | however an encoded stream is split into reads, the handler reports exactly the payloads if and only if no read moves a remainder over a different byte of one of its frames |
| Framing.IntactExactly | src/receiver/gnet_tcp.go:207-218 | a frame is delivered as sent exactly when no remainder byte lands on a different byte of it |
| Framing.ShortRemainderIsSafe | src/receiver/gnet_tcp.go:207-218 | a remainder of at most a header never changes a frame |
| Framing.CorruptedFrame | src/receiver/gnet_tcp.go:207-218 | a read whose first frame is delivered with the wrong byte |
| MatchKey.EscapeInjective | src/receiver/match_key.go:62-66 | different values escape differently although a lone backslash is copied |
| MatchKey.SingleFieldInjective | src/receiver/match_key.go:74-82 | different values give different one-field keys |
| MatchKey.TwoFieldInjectiveExactly | src/receiver/match_key.go:85-98 | two-field keys determine both values exactly when the second field name with its `=` is not itself escaped text |
| MatchKey.PlainNamesAreInjective | src/receiver/match_key.go:254-299 | which holds for every name not ending in a backslash, so for all names in use |
| SkyDds.Batcher.SendBatch | src/sender/skydds.go:83-116 | the locked section: refuse when closed, pass an oversize message through, append, drain at a threshold |
| SkyDds.Batcher.RestoreBatchLocked | src/sender/skydds.go:144-159 | failed messages go back in front and the byte count is recomputed |
| SkyDds.Batcher.TimerSection | src/sender/skydds.go:161-172 | the timer drains an open sender and leaves a closed one alone |
| SkyDds.Batcher.CloseSection | src/sender/skydds.go:195-202 | closing drains what is batched |
| SkyDds.SendFlushesWhenFull | src/sender/skydds.go:83-116 | a send flushes exactly on an oversize message or a reached threshold and leaves the batch below both thresholds |
| SkyDds.WaitingIsTimed | src/sender/skydds.go:103-182 | while the sender is open, batched messages always have a running timer |
| SkyDds.EveryMessageIsSomewhereOnce | src/sender/skydds.go:83-209 | each accepted message is batched, in a flush, written or reported lost: exactly one; the byte count is the sum of the batch |
| SkyDds.NothingInvented | src/sender/skydds.go:83-209 | and nothing else ever is |
| SkyDdsClose.StrandedExactly | src/sender/skydds.go:161-209 | after the last close, every flush settled, each accepted message was written or had its failure returned if and only if no timer flush in flight at that close had failed or fails |
| SkyDdsClose.QuietCloseStrandsNothing | src/sender/skydds.go:195-209 | with no timer flush in flight at the close nothing is left behind |
| SkyDdsClose.CanStrandExactly | src/sender/skydds.go:161-209 | just after a close messages can still be left behind if and only if a timer flush is in flight |
| SkyDdsClose.CloseOvertakesTimer | src/sender/skydds.go:161-182 | a concrete run whose one message stays in the batch of the closed sender |
| SkyDds.WrittenInAcceptOrder | src/sender/skydds.go:83-209 | without overlapping flushes messages are written in accept order |
| SkyDds.OverlapReorders | src/sender/skydds.go:104-116 | with overlapping flushes they need not be |
| SkyDdsWrites.WrittenInOrderExactly | src/sender/skydds.go:83-209 | in every run, whatever fails and is restored: written in accept order if and only if each flush written is in order itself and overtakes no older message that waits beside it and is written later |
| SkyDdsOrder.WrittenInOrderExactly | src/sender/skydds.go:104-142 | its form for runs without a failed write, all flushes settled: if and only if each write is of the oldest flush under way |
| KafkaAsync.ProducedInOrder | src/sender/kafka.go:287-340 | each shard produces its records in enqueue order, each once |
| KafkaAsync.ExitedAfterDraining | src/sender/kafka.go:316-340 | a worker that has exited produced everything enqueued before the close signal |
| KafkaAsync.ProducedIsAccountedFor | src/sender/kafka.go:342-353 | produced records are successes, errors or in flight |
| KafkaAsync.CloseWaitsForCallbacks | src/sender/kafka.go:245-285 | a close that did not time out returns only when every such record has had its callback |
| KafkaAsync.LeftBehindExactly | src/sender/kafka.go:245-314 | what a shard then has left was enqueued after the signal |
| KafkaLeftBehind.LeftBehindAreLate | src/sender/kafka.go:287-340 | what a worker that has left produced is what had been enqueued when it left; what came after makes up the queue |
| KafkaLeftBehind.NeverProducedExactly | src/sender/kafka.go:287-340 | in every continuation a record of such a shard is produced if and only if it had been enqueued when the worker left |
| KafkaLeftBehind.AcceptedAfterExit | src/sender/kafka.go:245-314 | a concrete run in which a record is accepted after the worker left, the close returns without a timeout, and the record stays in the queue |
| KafkaAsync.ClientsOutliveWorkers | src/sender/kafka.go:264-285 | no record reaches a closed client unless a close gave up waiting |
| KafkaAsync.WorkerStepDecreases | src/sender/kafka.go:316-340 | each worker step leaves its shard with less to do |
| KafkaAsync.WorkerNeverStuck | src/sender/kafka.go:316-340 | after the signal a worker can always step until it exits |

## Left out

- Validation.Validate: covers lines 52-157; the nil-map tests, logging, control and per-protocol option checks around them are single-field rules and are not modelled. A faulty configuration yields failure without the message.
- Store.RuntimeStore.UpdateCache: after an update that fails once tasks were touched, or a rebuild that fails, the next one is described step by step and what was left is sound but for leaked senders (`ReloadLimits.FailedUpdateIsSafe`, `ReloadRetry.LeaksExactly`); that it would run the new configuration is not claimed.
- Store.RuntimeStore.AddTask: starting a task has no failing outcome; its only error is a pool size of zero or less, which its default rules out.
- Store.RuntimeStore.CommitReceiverDelta: stopping an unconfigured receiver is immediate although the code does it in a goroutine; a receiver that fails while it runs is not modelled.
- Store.RuntimeStore.ApplySenderDelta: closing on replacement is a single step although the code starts some closes in goroutines.
- Dispatch.StepInv: the dispatcher may go on before a `Handle` call it made has returned, which allows more interleavings than the code has.
- SftpRuns.EveryRunTracked: assumes that different transfers have different temporary paths; closing the sender is not modelled.
- Framing.OnTraffic: statistics and packet metadata are not modelled.
- MatchKey.TwoFieldInjectiveExactly: is about the key builders; the address helpers and the Kafka partition suffix are not modelled.
- Offsets and sizes of transfers are unbounded integers; 64-bit wrap-around there is not modelled.
- Defaults applied when a task starts, a start failing for lack of a pool, traffic counters and runtime statistics.
- Aborting multipart uploads, closing the OSS sender, object key and notification handling, and the race between a finished completion and the deletion of its transfer beyond the late-duplicate completions covered by `OssRuns`.
- More than one `StopGraceful` call on one task.
- Nil against empty for slices and maps other than pipeline stage lists; the difference only causes extra rebuilds.
- Kafka records keep the packet's payload by reference; records are identities here and byte equality is not claimed.
- What receivers do between start and stop, network clients, the SkyDDS bridge, JSON loading, defaults, bootstrap, scheduling, aggregation of statistics and rate control.
- File path rewriting is a parameter; its use of library path functions is not modelled.
