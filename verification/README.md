# Verified model of the reimagine application host

Dafny models of the parts of the host in which several things happen at once or a process
may die in the middle, with proofs of what they promise. `dafny verify dfyconfig.toml`
checks the whole project.

Concurrent code is modelled as a total function `Step` from a state and an event to the next
state, where one event is one access that nothing can interrupt (a lock section, an atomic
access, a file write) and an event that cannot happen changes nothing. `Run` folds it over an
arbitrary sequence of events, so a lemma about `Run(es)` holds in every reachable state of
every interleaving. Beside it stands a class with the fields the program updates in place,
whose methods are tied to the same specification functions, or to functions that the
undisturbed steps are proved to compute. Log and pointer code is modelled
as algorithms over bytes and trees.

| file | component |
|---|---|
| `RunTransitions.dfy` | the self-cleaning table of per-run transition guards |
| `RunRegistry.dfy`, `RunService.dfy` | claiming, reading, resuming, cancelling and shutting down workflow runs |
| `RunIndex.dfy` | the index behind `list_runs` |
| `Previews.dfy` | which preview may run, and which may delete the shared directory |
| `Invocations.dfy`, `InvocationRuns.dfy` | one operation call, and any interleaving of calls |
| `AssetFields.dfy`, `JsonPointer.dfy` | finding the asset fields of a payload and writing to them |
| `LogFile.dfy`, `CrashLog.dfy`, `StepRecords.dfy`, `ActivityPaging.dfy`, `PagingAfterCrashes.dfy` | append-only logs: torn tails, survival, merging, paging |
| `Supervisor.dfy`, `RunLeases.dfy`, `Authority.dfy` | worker state, draining, payload keys |
| `EndpointHost.dfy`, `PinnedConnects.dfy` | certificate pins of remote workers |
| `AssetUri.dfy`, `PreviewOutputs.dfy` | printing and parsing asset and preview URIs, and the output of a preview |
| `Text.dfy`, `Wrappers.dfy` | string functions, `Option` and `Result` |

## Findings

Where the code does less than its comments or its design suggest, the model keeps the code, a
lemma gives a concrete case, and the surrounding theorems say exactly when the promise holds.

- A wait for a run's transition guard that is abandoned can leave the run's entry in the table
  for good (`AbandonedWaitLeaksAnEntry`); without abandoned waits the table empties itself.
- A preview registers in three separate lock sections. When two registrations of one key
  overlap, the failure cleanup of the earlier one can delete the directory the later one is
  running in (`OverlappingRegistrationsLoseADirectory`). It can exactly if the earlier one has
  failed and waits for the lock, still the newest published, when the later one is swapped in
  (`LostIffThreatened`).
- A client that pages through the activity log one record at a time can be told that there is
  no more when there is: its first page is a record whose newline is not written yet, and the
  next append cuts that record (`UnterminatedCursorHidesOlderRecords`). That is the only way
  to lose a record (`PagesCoverIffCursorNotCut`).
- `StepLog::records` and `AssetStore::list` read the whole file as UTF-8. An append torn
  inside a multi-byte character makes the step log unreadable until the next append and the
  asset log unreadable for good (`TornCharacterHidesTheAssetLog`), although the comments on
  both say that a torn line is only skipped; `StepLogSurvives` and `AssetLogSurvives` give
  the exact condition. Every record with a non-ASCII character can be torn so
  (`NonAsciiRecordHidesTheLogs`), and without one it cannot happen
  (`AsciiLogsStayReadable`). Of an asset record only the media type can be non-ASCII, as a
  mod's `contentMediaType` is taken over as it stands (crates/app-host/src/asset_store.rs:40-46).
- The pointer writer reads array indices with `usize::parse`, which accepts a plus sign and
  leading zeros that JSON Pointer does not: such a write lands but cannot be read back
  (`ReadsBackIffWritable`, `NonCanonicalIndexAliases`). No asset field is affected
  (`PointerWritesNeverFail`).
- Checking the generation and storing the state are two atomic accesses, and so are claiming
  and numbering a start. A store that comes late lets a second start begin
  (`SplitAcquireAdmitsTwoStarts`), or leaves a ready status without a client
  (`LateReportMisleads`). The exact accesses that do so are `Tramples` and `Misleads`
  (`SingleIffNeverTrampled`, `VouchedIffNeverMisled`).
- With concurrent drains, one that gives up re-admits runs after another has seen the worker
  empty, and a busy worker is shut down (`TwoDrainersShutDownABusyWorker`), exactly if that
  happens before the shutdown (`BusyShutDownIffReadmitted`).
- A write of the pin store that fails after creating its temporary file leaves that file, and
  its fixed name is only ever created anew: no later pin of that process is saved
  (`LeftoverBlocksSaving`). Any first use can be the one that does it
  (`HalfWriteLeavesTheFile`), the file is there exactly if one did
  (`LeftoverIffHalfWritten`), and a later first use is saved exactly if none did
  (`SavedIffNoneHalfWritten`).
- A preview file whose name contains `?` or `#` gets a URI that does not lead back to it
  (`PreviewUrisComeBack`, `RoundTrip`).
- The local URI forms do not accept slashes before a preview key, the custom scheme does, and
  a project called `preview` or `localhost` means different things in different forms
  (`PreviewFormsAgree`, `AssetFormsAgree`).

## Model

| member | source | states |
|---|---|---|
| RunTransitions.TransitionTable.Enter | crates/app-host/src/dynamic_workflow_service.rs:689-699 | entering finds or creates the run's mutex and counts one more handle |
| RunTransitions.TransitionTable.TryLock | crates/app-host/src/dynamic_workflow_service.rs:700-705 | a free mutex is taken, a held one makes the caller wait |
| RunTransitions.TransitionTable.Release | crates/app-host/src/dynamic_workflow_service.rs:119-122 | dropping a guard first frees the mutex, without touching table or counts |
| RunTransitions.TransitionTable.RemoveIfUnused | crates/app-host/src/dynamic_workflow_service.rs:123-133 | the entry goes exactly when the table's handle is the last |
| RunTransitions.MutualExclusion | crates/app-host/src/dynamic_workflow_service.rs:109-134 | in every interleaving at most one holder per run, and all holders and waiters of a run share the mutex now in the table |
| RunTransitions.UnrelatedRunsDoNotShare | crates/app-host/src/dynamic_workflow_service.rs:687-706 | unrelated runs never wait for each other |
| RunTransitions.EntryOutlivesItsUsers | crates/app-host/src/dynamic_workflow_service.rs:118-134 | no step removes or replaces an entry whose mutex someone holds or awaits |
| RunTransitions.TableAtRest | crates/app-host/src/dynamic_workflow_service.rs:109-134 | with no transition in flight the table holds exactly the runs orphaned by abandoned waits |
| RunTransitions.TableEmptiesItself | crates/app-host/src/dynamic_workflow_service.rs:109-134 | without abandoned waits the table is empty whenever no transition is in flight |
| RunTransitions.AbandonedWaitLeaksAnEntry | crates/app-host/src/dynamic_workflow_service.rs:689-706 | a concrete interleaving in which an abandoned wait leaves its entry behind |
| RunTransitions.HolderIsHolding | crates/app-host/src/dynamic_workflow_service.rs:689-706 | the abstract holder of a run's lock is the one caller inside its guarded section |
| RunTransitions.RefinesPlainLock | crates/app-host/src/dynamic_workflow_service.rs:109-134 | mutexes, handles and counts together behave as one plain lock per run |
| RunRegistry.StepKeepsInv | crates/app-host/src/dynamic_workflow_service.rs:514-922 | every atomic section of claims, reads, resumes, cancels, tasks and shutdown keeps the registry invariant |
| RunRegistry.OneTaskPerRun | crates/app-host/src/dynamic_workflow_service.rs:525-617 | never two tasks executing one run; a task not aborted by shutdown is the registered claim |
| RunRegistry.StartIsDurable | crates/app-host/src/dynamic_workflow_service.rs:531-617 | a task starts only with its claimed running document on disk, the same that readers see |
| RunRegistry.NormalizeOnlyIdleRuns | crates/app-host/src/dynamic_workflow_service.rs:708-736 | an interrupted write happens only while the run is unregistered and, before shutdown, over exactly the document read |
| RunRegistry.RegisteredRunsAreNeverInterrupted | crates/app-host/src/dynamic_workflow_service.rs:880-902 | a registered run never reads as interrupted or queued, and its resume is refused |
| RunRegistry.EntriesAreRemovedByTheirOwners | crates/app-host/src/dynamic_workflow_service.rs:619-642 | failed claims and settling tasks remove only their own entry; the second already-active check never fires |
| RunRegistry.ShutdownIsFinal | crates/app-host/src/dynamic_workflow_service.rs:904-922 | after the drain the registry stays empty and no gated task ever starts, wherever a claim had got to |
| RunRegistry.CancelMissesNoNotification | crates/app-host/src/dynamic_workflow_service.rs:841-874 | a waiting cancel has missed no notification, and before shutdown a woken one reports a settled state |
| RunService.Service.BeginTask | crates/app-host/src/dynamic_workflow_service.rs:535-617 | exactly when a claim succeeds, what is then registered, on disk and permitted, and that a failed one leaves no trace but a failed document |
| RunService.Service.FailClaim | crates/app-host/src/dynamic_workflow_service.rs:624-642 | the document fails only if still active; an entry still there is removed, aborted and its waiters woken |
| RunService.Service.GetRun | crates/app-host/src/dynamic_workflow_service.rs:715-736 | the in-memory document of a registered run whatever its state, the stored one of a settled run, a durable interrupted one of an idle run |
| RunService.Service.ResumeRun | crates/app-host/src/dynamic_workflow_service.rs:880-902 | the exact condition for a resume to claim, and that other runs are untouched |
| RunService.Service.Shutdown | crates/app-host/src/dynamic_workflow_service.rs:907-922 | the loop over the registry is the one drain step of the interleaved model; every registered task is aborted and its waiters woken |
| RunService.UndisturbedBegin | crates/app-host/src/dynamic_workflow_service.rs:535-617 | the atomic sections of an undisturbed claim amount to what the method does |
| RunService.UndisturbedGet | crates/app-host/src/dynamic_workflow_service.rs:715-736 | the same for a read, double-checked lookup and guard included |
| RunService.UndisturbedResume | crates/app-host/src/dynamic_workflow_service.rs:880-902 | the same for a resume, from its first read to its claim |
| RunIndex.ScanIsUniqueIffUnambiguous | crates/app-host/src/dynamic_workflow_service.rs:799-838 | a scan gives one index whatever the order of the directory entries, exactly if no two documents of one id differ |
| RunIndex.ListingIsUnique | crates/app-host/src/dynamic_workflow_service.rs:755-796 | filtering, sorting and truncating an index determines the listing |
| RunIndex.TruncationIsListing | crates/app-host/src/dynamic_workflow_service.rs:776-782 | sorting newest first, then by descending id, and truncating gives the listing |
| RunIndex.WriteKeepsIndex | crates/app-host/src/dynamic_workflow_service.rs:644-660 | for every directory, updating one summary equals rescanning after the write, exactly unless the write replaces the only document of another id |
| RunIndex.WellNamedStays | crates/app-host/src/dynamic_workflow_service.rs:644-660 | documents stored under their own ids stay so, no write replaces another's, and a scan has one result |
| RunIndex.Runs.WriteRun | crates/app-host/src/dynamic_workflow_service.rs:644-660 | what a write does to disk and index, that a failed one does nothing, and the exact condition for a scanned project's index to agree with disk afterwards |
| RunIndex.Runs.ScanRuns | crates/app-host/src/dynamic_workflow_service.rs:799-838 | one scan of any directory gives an entry for every stored document, read from one of its id; a missing directory holds none |
| RunIndex.Runs.SelectRuns | crates/app-host/src/dynamic_workflow_service.rs:758-782 | the selected rows are the listing of the project's index, which a first selection builds by a full scan |
| Previews.PreviewTable.Register | crates/app-host/src/operation_service.rs:971-995 | a new generation becomes the newest and the active one and cancels the one it replaces |
| Previews.PreviewTable.CancelPreview | crates/app-host/src/operation_service.rs:927-934 | cancelling takes the active entry and cancels it; an unknown key is a no-op |
| Previews.PreviewTable.RetireIfCurrent | crates/app-host/src/operation_service.rs:1193-1220 | a finished preview leaves the active table exactly if it is the entry there |
| Previews.PreviewTable.TakeNewestGeneration | crates/app-host/src/operation_service.rs:1242-1253 | the marker is dropped exactly by the generation that owns it |
| Previews.StepKeepsInv | crates/app-host/src/operation_service.rs:927-1029 | under any interleaving generations stay distinct, lock holders unique, uncancelled previews active, and directories no later than the last registration of their key |
| Previews.OneUncancelledProvider | crates/app-host/src/operation_service.rs:971-1029 | at most one provider of a key runs with an uncancelled token, even with overlapping registrations |
| Previews.LostIffThreatened | crates/app-host/src/operation_service.rs:971-1240 | over all interleavings, a preview's directory can be removed by one registered before it exactly if, when it is registered uncancelled, a failed preview of its key waits for the lock and is still the newest |
| Previews.ThreatenedIsLost | crates/app-host/src/operation_service.rs:1209-1240 | from every such state, the continuation in which the later provider runs uncancelled while its directory is about to be deleted |
| Previews.LaterDirectoriesSurvive | crates/app-host/src/operation_service.rs:1189-1240 | in a run without such a registration no cleanup and no recreation ever removes a later preview's directory |
| Previews.InTurnNeverThreatens | crates/app-host/src/operation_service.rs:971-995 | there is none if no preview of a key is published between the publication and the swap of another |
| Previews.SerialRegistrationsAreSafe | crates/app-host/src/operation_service.rs:971-995 | in particular if registrations of a key follow one another |
| Previews.SwapsAreInGenerationOrder | crates/app-host/src/operation_service.rs:971-995 | then active entries of a key are also installed in generation order |
| Previews.OverlappingRegistrationsLoseADirectory | crates/app-host/src/operation_service.rs:971-995 | a concrete interleaving in which overlapping registrations lose a running preview's directory |
| AssetFields.FieldsAreStrings | crates/mod-sdk/src/schema.rs:104-206 | every asset field found is a string of the payload, under a schema that declares an asset field |
| AssetFields.FieldsAreDistinct | crates/mod-sdk/src/schema.rs:104-206 | no asset field is found twice |
| AssetFields.FieldsCanBeReplaced | crates/app-host/src/operation_service.rs:867-877 | writing one value to every asset field never fails, each lands, and every unrelated pointer keeps its value |
| JsonPointer.SetJsonPointer | crates/app-host/src/operation_service.rs:1370-1458 | the token-by-token writer computes the recursive write and the same errors |
| JsonPointer.UnescapeInvertsEscape | crates/app-host/src/operation_service.rs:1376-1380 | decoding `~1` before `~0` inverts escaping for every token |
| JsonPointer.ParseInvertsPrint | crates/app-host/src/operation_service.rs:1376-1380 | every list of tokens survives printing and parsing, empty tokens included |
| JsonPointer.ResolvingIsWritable | crates/app-host/src/operation_service.rs:1387-1455 | a pointer that resolves can be written |
| JsonPointer.ReadsBackIffWritable | crates/app-host/src/operation_service.rs:1387-1455 | after a write the pointer reads the new value exactly when its array indices are canonical |
| JsonPointer.WriteLeavesUnrelated | crates/app-host/src/operation_service.rs:1387-1455 | every pointer not prefix-related to the one written keeps its value |
| JsonPointer.WritesCommute | crates/app-host/src/operation_service.rs:1387-1455 | writes at unrelated pointers commute and do not disable each other |
| JsonPointer.IndependentWritesLand | crates/app-host/src/operation_service.rs:706-715 | pairwise unrelated writes all succeed, each pointer reads its own value, all else is unchanged |
| JsonPointer.OrderDoesNotMatter | crates/app-host/src/operation_service.rs:706-715 | pairwise unrelated writes give one result in every order |
| JsonPointer.NonCanonicalIndexAliases | crates/app-host/src/operation_service.rs:1399-1412 | a concrete index that is written but not read |
| Invocations.OperationService.PrepareInput | crates/app-host/src/operation_service.rs:603-715 | the checks before the step exists, in order, and the provider's input |
| Invocations.OperationService.CheckPaths | crates/app-host/src/operation_service.rs:844-865 | all output paths are checked before any asset is taken in |
| Invocations.OperationService.IngestFields | crates/app-host/src/operation_service.rs:866-877 | assets are taken in one by one, and which of them exist after a failure half-way |
| Invocations.OperationService.Invoke | crates/app-host/src/operation_service.rs:602-919 | the answer, the provider's input, and everything the call does to the logs and the scratch directory |
| InvocationRuns.PreparedInput | crates/app-host/src/operation_service.rs:651-715 | the provider's input is the request's with the file of a recorded asset at every asset field and nothing else changed |
| InvocationRuns.PointerWritesNeverFail | crates/app-host/src/operation_service.rs:706-715 | no call ever fails in the pointer writer |
| PreviewOutputs.ReplacePaths | crates/app-host/src/operation_service.rs:1166-1184 | the loop that checks and replaces one asset field after the other |
| PreviewOutputs.ReplacedIsSetAll | crates/app-host/src/operation_service.rs:1166-1184 | the interleaved loop gives what checking all paths first and then writing all URIs gives |
| PreviewOutputs.PreviewUrisComeBack | crates/app-host/src/operation_service.rs:1166-1186 | a preview has an output exactly when all its paths are valid; each asset field's URI comes back to key and path exactly without `?` and `#`; nothing else changes |
| InvocationRuns.SucceededOutput | crates/app-host/src/operation_service.rs:866-880 | the output of a successful step is the provider's with the id of one ingested asset at every asset field |
| InvocationRuns.InvokeExtendsTrace | crates/app-host/src/operation_service.rs:602-919 | an uninterrupted call is one of the interleavings |
| InvocationRuns.OneStartThenOneFinish | crates/app-host/src/operation_service.rs:765-919 | at every moment of every interleaving a step has at most a start and then a finish record; a finished one whose writes succeed has exactly both |
| InvocationRuns.AnswerMatchesRecord | crates/app-host/src/operation_service.rs:886-918 | the caller of a recorded step is told what its finish record says |
| InvocationRuns.RecordsShowOutcomes | crates/app-host/src/step_log.rs:134-174 | the records read back after any interleaving of calls show each finished step once, with its final outcome |
| InvocationRuns.ScratchIsDropped | crates/app-host/src/operation_service.rs:722-884 | a finished step leaves a scratch directory only if removing it failed |
| InvocationRuns.BadPathTakesInNothing | crates/app-host/src/operation_service.rs:844-865 | if any output path is invalid, no asset of that step is ever in the log and the step does not succeed |
| InvocationRuns.SuccessNamesItsAssets | crates/app-host/src/operation_service.rs:866-919 | as soon as the log says a step succeeded, every asset field names a record with that step as origin |
| InvocationRuns.AssetsComeFromRecordedSteps | crates/app-host/src/operation_service.rs:757-776 | every asset record's origin has its start record in the step log, read-only operations included |
| LogFile.CompleteIsLongest | crates/app-host/src/step_log.rs:83-123 | what the cut keeps ends in a newline or is empty and contains every newline of the file |
| LogFile.File.TruncateTornTail | crates/app-host/src/step_log.rs:86-123 | the backward scan in 8192-byte chunks ends and leaves exactly the longest complete prefix, for every length and newline placement |
| LogFile.LastNewline | crates/app-host/src/step_log.rs:107-115 | the last newline of a chunk, if there is one |
| LogFile.File.TerminatePartialLine | crates/app-host/src/asset_store.rs:265-306 | a missing last newline is supplied, nothing else changes |
| LogFile.File.AppendCutting | crates/app-host/src/step_log.rs:45-81 | an append is the cut followed by any prefix of the line |
| LogFile.File.AppendTerminating | crates/app-host/src/asset_store.rs:226-252 | an append is the repair followed by any prefix of the line |
| CrashLog.Survivors | crates/app-host/src/activity.rs:203-224 | what decoding between newlines finds after any run of appends stopped after any byte |
| CrashLog.ActivityLogSurvives | crates/app-host/src/activity.rs:103-224 | every record whose newline reached disk is read back in append order, followed at most by a complete unterminated last one |
| CrashLog.StepLogSurvives | crates/app-host/src/step_log.rs:140-174 | the same for the step log, exactly unless the last append stopped inside a character |
| CrashLog.AssetLogSurvives | crates/app-host/src/asset_store.rs:312-338 | the same for the asset log, exactly unless any append ever stopped inside a character |
| CrashLog.NothingIsInvented | crates/app-host/src/activity.rs:203-224 | what is read back is an in-order selection of what was appended |
| CrashLog.TerminatedRecordsStay | crates/app-host/src/step_log.rs:45-81 | a record on a terminated line stays, in its place, after any further appends |
| CrashLog.CompletedAppendsAreListed | crates/app-host/src/asset_store.rs:226-252 | every completed append of the asset log is listed, in order |
| CrashLog.TornCharacterHidesTheAssetLog | crates/app-host/src/asset_store.rs:312-321 | a concrete torn character after which the asset log is never readable again, and the step log is after one append |
| CrashLog.NonAsciiRecordHidesTheLogs | crates/app-host/src/asset_store.rs:226-321 | every record with a non-ASCII character has a byte after which a stopped append makes the asset log unreadable whatever follows |
| CrashLog.AsciiLogsStayReadable | crates/app-host/src/asset_store.rs:312-338 | if only ASCII records are appended, both logs are always readable, with exactly the surviving records |
| CrashLog.Replay | crates/app-host/src/step_log.rs:45-123 | the byte-level appends with their repairs produce the files reasoned about |
| StepRecords.Merge | crates/app-host/src/step_log.rs:140-174 | the loop with an order list and a table computes the merge |
| StepRecords.MergedAreLastLines | crates/app-host/src/step_log.rs:162-167 | each merged record is the last line of its step |
| StepRecords.MergedAreInFirstLineOrder | crates/app-host/src/step_log.rs:162-173 | merged records come in the order of their first lines, no step twice |
| StepRecords.MergedAreComplete | crates/app-host/src/step_log.rs:155-173 | every step with a line has a merged record |
| StepRecords.RecordsAfterCrashes | crates/app-host/src/step_log.rs:134-174 | after any crashing appends a readable step log yields every step with a durable line, and only surviving lines |
| ActivityPaging.NextPage | crates/app-host/src/activity.rs:314-333 | a page after a cursor among the kept records continues what was shown of the first log, whatever has become of the rest |
| ActivityPaging.PagesCoverTheFirstLog | crates/app-host/src/activity.rs:314-333 | the pages are the newest-first log as of the first request without gap or repetition, as long as the records from the cursor on are kept |
| PagingAfterCrashes.GrowsIffNotCut | crates/app-host/src/activity.rs:103-195 | between two reads, even in the middle of appends, the log only grows, unless a repair cuts its unterminated record, which is then gone for good |
| PagingAfterCrashes.PagesCoverIffCursorNotCut | crates/app-host/src/activity.rs:103-333 | for every history of crashing appends the pages cover the first log exactly unless the client asks for one record a page and a repair has cut that first record when it asks on |
| PagingAfterCrashes.CutEndsPaging | crates/app-host/src/activity.rs:314-333 | what the client is given in that case: the cut record and an empty last page |
| PagingAfterCrashes.UnterminatedCursorHidesOlderRecords | crates/app-host/src/activity.rs:103-333 | a concrete such history for any codec and records |
| ActivityPaging.UnknownCursorEndsPaging | crates/app-host/src/activity.rs:309-329 | an unknown cursor gives an empty last page |
| Supervisor.WorkerSupervisor.Acquire | crates/backend-worker-host/src/supervisor.rs:495-517 | a guard is given exactly when the worker is neither starting nor ready, with a new generation |
| Supervisor.WorkerSupervisor.StoreStateIfCurrent | crates/backend-worker-host/src/supervisor.rs:692-701 | an older generation's store changes nothing |
| Supervisor.WorkerSupervisor.DropGuard | crates/backend-worker-host/src/supervisor.rs:534-545 | only an uncommitted guard of the current generation stops the worker |
| Supervisor.WorkerSupervisor.DropClient | crates/backend-worker-host/src/supervisor.rs:191-203 | only a ready worker of the client's generation is stopped |
| Supervisor.SingleIffNeverTrampled | crates/backend-worker-host/src/supervisor.rs:487-701 | for every interleaving of single accesses: at most one start is under way, and the status says so, at every moment exactly if no checked store comes while a start is under way |
| Supervisor.StartingIffOneGuard | crates/backend-worker-host/src/supervisor.rs:487-545 | then, at rest, the worker is starting exactly while one uncommitted guard exists, of the current generation |
| Supervisor.TrampledRunsGoWrong | crates/backend-worker-host/src/supervisor.rs:498-517 | and otherwise the run can come to rest with an uncommitted guard and a status that denies it |
| Supervisor.VouchedIffNeverMisled | crates/backend-worker-host/src/supervisor.rs:657-701 | for every interleaving of single accesses: a ready status is backed by a live current client, or about to be taken back, at every moment exactly if no generation is drawn over it and no commit stores it too late |
| Supervisor.ReadyMeansAlive | crates/backend-worker-host/src/supervisor.rs:657-701 | then, at rest, a ready worker's current client is neither reported dead nor dropped |
| Supervisor.UndisturbedRunsAreSound | crates/backend-worker-host/src/supervisor.rs:487-701 | both hold when no other access falls between the two of an operation |
| Supervisor.GenerationsIncrease | crates/backend-worker-host/src/supervisor.rs:495-517 | however accesses interleave, starts draw the generations 1, 2, 3 and so on |
| Supervisor.OlderGenerationsChangeNothing | crates/backend-worker-host/src/supervisor.rs:287-317 | in every state of every interleaving, a commit, drop, failure or shutdown that begins for an older generation neither touches the state nor leaves an access that could |
| Supervisor.HalvesMakeOperations | crates/backend-worker-host/src/supervisor.rs:487-701 | the two accesses of an operation, undisturbed, are the operation |
| Supervisor.SplitAcquireAdmitsTwoStarts | crates/backend-worker-host/src/supervisor.rs:498-517 | a concrete interleaving of single accesses with two uncommitted starts |
| Supervisor.LateReportMisleads | crates/backend-worker-host/src/supervisor.rs:498-701 | a concrete interleaving, with a late failure report, that misleads and rests with a ready status whose generation has no client |
| RunLeases.WorkerRunLeases.Acquire | crates/backend-worker-host/src/leases.rs:61-73 | an owned run is re-admitted even while draining, a new one only while ready |
| RunLeases.WorkerRunLeases.Release | crates/backend-worker-host/src/leases.rs:75-86 | a run is released at most once |
| RunLeases.WorkerRunLeases.BeginDraining | crates/backend-worker-host/src/leases.rs:88-93 | admission closes, owned runs stay |
| RunLeases.WorkerRunLeases.RestoreReady | crates/backend-worker-host/src/leases.rs:95-100 | admission opens, owned runs stay |
| RunLeases.WorkerRunLeases.WaitUntilEmpty | crates/backend-worker-host/src/leases.rs:135-146 | the wait reports empty exactly when every owned run is released before the last count, which is taken after the deadline |
| RunLeases.ShutDownOnlyWhenEmpty | crates/app-host/src/workspace.rs:799-817 | however many drainers there are, a worker that one shuts down owns and admits no run unless runs were admitted again since that drainer saw it empty |
| RunLeases.BusyShutDownIffReadmitted | crates/app-host/src/workspace.rs:799-817 | exactly then some run that asks in between is shut down with the worker |
| RunLeases.NextRunIsShutDown | crates/app-host/src/workspace.rs:799-817 | at once, and for every run that asks next |
| RunLeases.ReadyIffGivenUp | crates/backend-worker-host/src/leases.rs:88-100 | runs are admitted exactly while no drain has begun, or one has been given up and none begun since |
| RunLeases.EmptyStaysEmpty | crates/backend-worker-host/src/leases.rs:61-100 | an empty draining worker never owns a run again until a drain is given up |
| RunLeases.OneDrainerIsNotReadmitted | crates/app-host/src/workspace.rs:799-817 | a single drainer is never undercut |
| RunLeases.ShutDownIsFinal | crates/app-host/src/workspace.rs:799-817 | so a worker shut down by it never owns a run again, whatever acquisitions and further drains come |
| RunLeases.NoReleaseIsMissed | crates/backend-worker-host/src/leases.rs:135-146 | every sleeping drainer still waits for a run or is about to be notified, however many there are |
| RunLeases.OwnedOnlyShrinks | crates/backend-worker-host/src/leases.rs:61-100 | from the begin of a drain until one is given up the owned runs only get fewer |
| RunLeases.TwoDrainersShutDownABusyWorker | crates/app-host/src/workspace.rs:799-817 | a concrete interleaving of two drains that shuts down a worker owning a given run |
| Authority.KeyIsInjective | crates/backend-worker-host/src/authority.rs:47-58 | a printed key determines incarnation and sequence, for every incarnation string |
| Authority.WorkerAuthorityTable.Register | crates/backend-worker-host/src/authority.rs:47-58 | the n-th registration gets the n-th key, the counter wrapping at 2^64 |
| Authority.WorkerAuthorityTable.Resolve | crates/backend-worker-host/src/authority.rs:60-77 | a stale incarnation is refused, any other key is looked up in what was registered |
| Authority.RegisteredResolves | crates/backend-worker-host/src/authority.rs:47-77 | every registration resolves to its own token for the next 2^64 registrations |
| Authority.RegisteredResolvesUntilWrap | crates/backend-worker-host/src/authority.rs:47-77 | and no longer, once the counter has gone round |
| Authority.OtherIncarnationsNeverResolve | crates/backend-worker-host/src/authority.rs:60-77 | a key of another incarnation never resolves |
| EndpointHost.HostOfPrinted | crates/backend-worker-protocol/src/remote.rs:202-224 | every well-formed endpoint has its lower-cased host as pin address whatever its userinfo, port, path and query, bracketed hosts included |
| EndpointHost.HostHasNoAt | crates/backend-worker-protocol/src/remote.rs:202-224 | no endpoint has a host containing the pin key's separator |
| EndpointHost.PinKeyIsInjective | crates/backend-worker-protocol/src/remote.rs:109-113 | two connections share a pin exactly for the same worker and host |
| PinnedConnects.TrustedKeyStore.Trust | crates/backend-worker-protocol/src/trust.rs:152-159 | a pin is in memory at once and on disk only if saving succeeds |
| PinnedConnects.TrustedKeyStore.RecordPin | crates/backend-worker-protocol/src/remote.rs:157-184 | a pin recorded meanwhile is not overwritten by another fingerprint |
| PinnedConnects.TrustedKeyStore.Connect | crates/backend-worker-protocol/src/remote.rs:95-191 | when a connect on its own succeeds, and that with pinning the fingerprint presented is then the pinned one |
| PinnedConnects.PinsNeverChange | crates/backend-worker-protocol/src/remote.rs:153-184 | a recorded pin never changes, whatever connects interleave |
| PinnedConnects.ConnectedPresentedThePin | crates/backend-worker-protocol/src/remote.rs:95-191 | every pinning connect that succeeds presented the pinned fingerprint |
| PinnedConnects.ConnectedToTheSameWorker | crates/backend-worker-protocol/src/remote.rs:84-94 | all of them for one key presented the same fingerprint |
| PinnedConnects.OnlyFirstUsePins | crates/backend-worker-protocol/src/remote.rs:120-184 | a connect that requires a pin or skips pinning never records one |
| PinnedConnects.DiskAgreesWithMemory | crates/backend-worker-protocol/src/trust.rs:152-159 | pins on disk are the pins in memory |
| PinnedConnects.LeftoverBlocksSaving | crates/backend-worker-protocol/src/trust.rs:182-226 | after a write that failed half-way nothing is saved again and every first use fails |
| PinnedConnects.LeftoverIffHalfWritten | crates/backend-worker-protocol/src/trust.rs:182-226 | in every interleaving of connects, the temporary file is left behind exactly if some record's write failed half-way |
| PinnedConnects.SavedIffNoneHalfWritten | crates/backend-worker-protocol/src/trust.rs:152-226 | a first use whose own write meets no fault is saved and succeeds exactly if no earlier write failed half-way |
| PinnedConnects.HalfWriteLeavesTheFile | crates/backend-worker-protocol/src/trust.rs:200-226 | for every new key and fingerprint, a first use whose write fails leaves the file, the pin in memory and not on disk |
| AssetUri.ParsePrinted | src-tauri/src/lib.rs:610-655 | what a printed preview URI parses to, for every path |
| AssetUri.RoundTrip | crates/app-host/src/operation_service.rs:1176-1179 | key and path come back exactly for a path that is not empty, not absolute and free of `?` and `#` |
| AssetUri.LocalhostFormsAgree | src-tauri/src/lib.rs:615-628 | the `localhost` forms of both schemes agree on every path |
| AssetUri.PreviewFormsAgree | src-tauri/src/lib.rs:570-647 | all forms agree on previews, save for slashes before the key |
| AssetUri.AssetFormsAgree | src-tauri/src/lib.rs:570-670 | all forms agree on a project exactly when it is not called preview or localhost |
| AssetUri.AssetRoundTrip | src-tauri/src/lib.rs:570-670 | valid project and asset ids come back from every form |

## Left out

- The item loop of a workflow run's task: its steps are a start, any number of document writes, one settling write, removal from the registry and a notification.
- The time between a run document's write and its index update at which a shutdown may abort the writer: the two are one step, as the index lock covers both.
- Documents returned by `list_runs`: they are read one by one through `get_run` after the rows are selected.
- `version += 1` of a settling task: it saturates here as the other increments do.
- Deadlines and timeouts: a wait may be given up at any moment.
- Documents written to disk partially: a document write happens or does not.
- Lock poisoning, event publication and log messages.
- `sort_by`: a library function, represented by an insertion sort proved to order the rows.
- In-place mutation of a JSON tree through a mutable reference: the writer carries the path it has come down and puts the new subtree back in.
- Interleaved asset lookups of one call: they read the asset log in one step; the log only grows.
- A log write that fails and yet leaves a line: in the call pipeline a failed write leaves nothing; what torn writes leave is the subject of `CrashLog.dfy`.
- Uniqueness of step ids across processes: steps are numbered by the process-wide counter.
- JSON schema validation, inline text length, media types, relative path checks, SHA-256, the content files of assets: answers of the environment.
- The activity record written after a successful call, and asset markers at places where they are rejected when a mod is loaded.
- Records whose encoding contains a raw newline or decodes from a strict prefix: JSON objects on one line do neither.
- The retry of a lost compare-and-swap when a start guard is acquired: it only tries again.
- The alive flag of a client and the generation check after it: clearing the one and loading the other are two accesses of a failure, a shutdown or a drop; here they are its first one.
- A preview future dropped part-way, for instance while it holds the key lock: a preview runs to its end, cancelled or not.
- Wrap-around of supervisor and preview generations at 2^64.
- A caller dropped in the middle of a claim, a read or a resume: operations of the run registry run to their end; only a wait for a transition guard is abandoned.
- SwapsAreInGenerationOrder: stated for registrations of a key one after another; overlapping ones may be swapped in either order.
- ReadyMeansAlive: stated at rest; before that, the alive flag is cleared ahead of the state, as VouchedIffNeverMisled says.
- Registering a payload key is one step; drawing the number and inserting it are two, but a key is not known to anyone before it is inserted.
- A temporary file of the pin store left by an earlier process of the same number: a process starts without one.
- Forgetting pins on request: only connects change the store here.
- TLS, the verifier's own state over several verifications of one handshake, and the environment variable that disables pinning: a handshake presents one fingerprint or fails.
- `http::Uri`: URIs with a bare host are split on their delimiters; which characters it refuses is not part of this model.
- Boards, collections, graph workflows, undo, the mod and model installers, inference and the user interface.
