# Verification of the llama-rack manager's stateful core

This project models the parts of the manager whose correctness depends on interleavings, loops over
untrusted input or long sequences of updates, and proves what they promise on every run or every input.
Each Dafny file is one module.

| module | models |
|---|---|
| `Admission` | request admission, request counters and drain claims of the lifecycle service |
| `Startup` | operation gates, startup generations and cancel functions, the single-flight table of loads |
| `WorkerExit` | commit, track and status re-check of a start against worker exit reports and the lease ledger |
| `GgufFormat`, `GgufReader` | the four GGUF metadata readers: as functions of the bytes, and as a stream advanced in place under two budgets |
| `GgufAgreement`, `GgufRoundTrip`, `GgufFacts`, `GgufPages`, `GgufBudget` | agreement of the readers, an encoder of the file format that they invert, the facts they derive, paging, and the files that the retained budget refuses |
| `ApiKeyCache`, `HotCache` | the two generation-stamped caches with their readers and writers |
| `UsageStream` | the streaming usage collector and the whole-body parser |
| `IdentityMigration` | the resource identity migration and the slug backfill |
| `BenchmarkRuns` | the benchmark run store with the calls racing over it |
| `RuntimeResolve`, `RuntimeRules` | override resolution, and what it accepts and answers in the terms of a request |
| `Tickets` | the bounded table of one-time WebSocket tickets |
| `Text`, `Common` | byte strings, trimming, decimal numbers, splitting; shared vocabulary |

How the models are built:

- A protocol is a `State`, an `Action` type, `Enabled` and `Apply`; one action is one critical section,
  one database statement or transaction, or one call into the supervisor. `IsRun` says what a run is, and
  the theorems quantify over all runs and all positions in them.
- Where the source updates fields in place, a class has those fields and its methods are proved equal to
  the functions that `Apply` or the parsing functions use; loops stay loops.
- Failing operations return an `Option`, a `Result`-like type or an outcome, on the same branches as the source.

The container format is that of the GGUF specification (ggml `docs/gguf.md`, section "File Structure",
versions 2 and 3, little-endian); the stream format is that of server-sent events, section 9.2 of the WHATWG
HTML Living Standard, as far as the collector looks at it.

## What does not hold

Some of the promises fail on inputs or runs the code admits. Each has a lemma with the failing case and, except
for the cached API keys, a theorem with the exact condition.

- An explicit stop, kill or restart looks at no request counter, so it opens a drain under a serving worker
  (`Admission.ExplicitStopDrainsBusyWorker`). A drain is free of requests for its whole life exactly when none
  was busy at its registration, which a demand check ensures (`Admission.DrainIsFreeOfRequests`).
- The drain channel is taken out of `drainWaits` before it is closed, and in between a request is admitted
  (`Admission.RequestIsAdmittedBeforeClose`); the exclusion lasts until it is taken out
  (`Admission.NoRequestDuringGuardedDrain`, `Admission.ChannelStays`).
- Starts release the operation gate before they start the worker, so two starts of an instance can overlap, and
  then a committed lease can be left without a worker (`WorkerExit.OverlappingStartsLeakALease`). That is so
  exactly when the last start to track the instance tracked a lease that had already left the ledger while the
  instance had another one (`WorkerExit.CommittedLeaseHasAWorker`), which takes a second start acquiring between
  the first one's look-up of its lease and its track (`WorkerExit.LostOnlyByOverlap`).
- The status re-check of a start takes any worker that is not ready for an exited one, so a drain that begins
  just then and is aborted later leaves a ready worker without its lease (`WorkerExit.RecheckDuringAbortedDrain`).
  A report takes the entry of a worker that the supervisor still has exactly when a re-check raised it that met
  the process present but not ready, and the process has not exited since (`WorkerExit.ReportsHaveAReason`).
- The hot cache is not told when a model's deletion cascades to its instances, nor when an import that has lost
  its claim enables its instance; so a cached instance is served after its row is gone or changed
  (`HotCache.DeletedModelIsServed`, `HotCache.ReEnabledInstanceIsServedDisabled`). Outside a writer's window
  the cache is right exactly when it does not hold such a row (`HotCache.CacheAgreesWithTable`).
- Between a commit that disables a key and the clear after it, an authentication that has already checked the
  old row succeeds (`ApiKeyCache.OldRowSucceedsInsideTheWindow`). A cached key that differs from its row has a
  mutator that changed this very key and has not cleared yet (`ApiKeyCache.CacheAgreesWithTable`); the converse
  does not hold, since a key may be read again inside that window.
- The sequential id updates of the migration equal one substitution exactly when no new id is another
  reference's old id (`IdentityMigration.SequentialIsSimultaneous`). A key scope's entry goes with the table
  references exactly when the id has no white space around it
  (`IdentityMigration.SpacedIdGoesAstray`, `IdentityMigration.ReferencesFollowTheirInstance`).
- A body that is one line holding an object is lost on the stream collector (`UsageStream.SingleObjectIsMissed`).
  Streaming and parsing the whole body agree exactly when the later lines report everything that a leading
  object reports (`UsageStream.StreamAgreesWithBody`).
- Requesting just the overrides that a resolution reported does not always reproduce its configuration
  (`RuntimeResolve.ReplayCanFail`, `RuntimeResolve.ReplayCanDifferOnABlankSplit`); the inputs for which it does
  are characterised in `RuntimeResolve.ReplayReproduces`.
- A file can be accepted by the summary reader and refused by the full one (`GgufBudget.OnlySummaryAccepts`):
  the full reader accepts exactly the files that the summary reader accepts and whose keys and displays fit the
  retained budget (`GgufAgreement.InspectAgreesWithSummary`).
- A key that the full reader lists can have a page that is refused (`GgufBudget.PageIsRefused`): a page is
  returned exactly when it fits the retained budget together with all keys up to its own
  (`GgufPages.PageAgreesWithInspect`).

## Model

| member | source | states |
|---|---|---|
| Admission.RequestCounters.GlobalPending | backend/internal/lifecycle/pending.go:84-90 | the loop's total is the sum of the pending counters of all instances, whatever the map's iteration order |
| Admission.RequestCounters.ReservePending | backend/internal/lifecycle/pending.go:66-82 | refuses for the instance limit first and the global limit second, counts exactly one more pending request otherwise, and changes no other instance |
| Admission.RequestCounters.ReleasePending | backend/internal/lifecycle/pending.go:92-101 | takes one pending request back without going below zero |
| Admission.RequestCounters.ActivateRequest | backend/internal/lifecycle/pending.go:103-113 | moves one request from pending to active in a single step |
| Admission.RequestCounters.FinishActive | backend/internal/lifecycle/pending.go:115-124 | takes one active request back without going below zero |
| Admission.NoRequestDuringGuardedDrain | backend/internal/lifecycle/service.go:640-774 | in every interleaving, from the moment an eviction or idle-unload claim registers a drain channel until the channel is taken out of drainWaits, no request of the instance is admitted, waiting with a ready worker or active |
| Admission.ChannelStays | backend/internal/lifecycle/service.go:758-774 | a registered drain channel is the instance's exactly until a claim takes it out of drainWaits, never comes back after that, and keeps the mark of a demand check |
| Admission.NoAdmissionWhileDraining | backend/internal/lifecycle/service.go:640-665 | while an instance has a drain channel, whoever registered it, no request is admitted |
| Admission.DrainIsFreeOfRequests | backend/internal/lifecycle/service.go:691-728 | whatever claim registered it, a drain is free of requests for its whole life exactly when none was busy at its registration; zero demand, which eviction and idle unload check and explicit claims do not, is enough |
| Admission.ChannelsAreClosedOnce | backend/internal/lifecycle/service.go:766-774 | no drain channel is closed twice, although several claims may end the same drain |
| Admission.RequestIsAdmittedBeforeClose | backend/internal/lifecycle/service.go:766-774 | a run in which a request passes admission after the channel was taken out and before it is closed |
| Admission.ServingIsReached | backend/internal/lifecycle/service.go:121-141 | a run from the initial state to a worker that serves a request |
| Admission.ZeroDemandMeansIdle | backend/internal/lifecycle/pending.go:126-128 | when the counters show no demand there is no admitted or active request, which is what claims rely on |
| Admission.RequestAccounting | backend/internal/lifecycle/service.go:121-141 | in every reachable state the counters are the numbers of calls in the two phases, pending is within the instance cap and the sum of all pending within the global cap |
| Admission.RefusedExactly | backend/internal/lifecycle/pending.go:59-90 | on every run a request is turned away exactly when its instance has as many pending requests as its own positive limit, or else the manager's, allows, or all instances together as many as the global limit allows; the instance's limit is named first |
| Admission.AdmittedSawTheWorker | backend/internal/lifecycle/service.go:640-665 | a request is admitted only after a status check that found its worker neither draining nor stopping |
| Admission.RequestStepsFollow | backend/internal/lifecycle/service.go:121-141 | the steps of a request follow one another in the source's order; whoever waited for a drain or for the worker tries again from the lock on |
| Admission.UnderflowGuardsNeverNeeded | backend/internal/lifecycle/pending.go:92-124 | no decrement of any run meets a counter at zero |
| Admission.CountersReturnToZero | backend/internal/lifecycle/service.go:121-141 | once every request of a run has been served, all counters are back to zero |
| Admission.ExplicitStopDrainsBusyWorker | backend/internal/lifecycle/service.go:221-239 | a run from the initial state in which an explicit stop opens a drain on a worker that is serving |
| Startup.StartupTables.BeginStartup | backend/internal/lifecycle/service.go:821-833 | generation and stored cancel function move together, and the previous cancel function is handed back |
| Startup.StartupTables.CancelStartup | backend/internal/lifecycle/service.go:835-844 | the generation moves on and the stored cancel function is taken out |
| Startup.StartupTables.FinishStartup | backend/internal/lifecycle/service.go:846-858 | takes the cancel function out only while the generation is still the startup's own |
| Startup.StartupTables.StartupLive | backend/internal/lifecycle/service.go:860-864 | live means that the generation has not moved |
| Startup.StartupTables.JoinOrCreateLoad | backend/internal/lifecycle/service.go:918-946 | joins the instance's unfinished load call or creates the only one |
| Startup.StartupTables.CompleteLoad | backend/internal/lifecycle/service.go:1013-1024 | the first completion sets the result and frees the instance's place; later ones change nothing |
| Startup.OneHolder | backend/internal/lifecycle/service.go:810-819 | on every run at most one operation holds an instance's gate, although loads and restarts release explicitly and again when they return, and every operation between acquire and release is that holder |
| Startup.GenerationsMoveUnderGate | backend/internal/lifecycle/service.go:821-844 | every change of a startup generation is by one and is made by the operation holding the gate |
| Startup.StoredCancelIsCurrent | backend/internal/lifecycle/service.go:821-858 | a stored cancel function belongs to the current generation, to a startup that one operation has begun and not finished, and its context has not been cancelled |
| Startup.OneLiveStartup | backend/internal/lifecycle/service.go:860-864 | at most one startup of an instance is live, and a live startup's context has not been cancelled |
| Startup.EveryContextEnds | backend/internal/lifecycle/service.go:241-283 | once all operations are over every startup context has been cancelled, no cancel function, gate token or load is left, and every load call has a result |
| Startup.LiveMeansUndisturbed | backend/internal/lifecycle/service.go:990-1004 | a startup that finds itself live was never cancelled or superseded between its beginning and that check |
| Startup.OneUnfinishedLoad | backend/internal/lifecycle/service.go:918-946 | at most one unfinished load call per instance, and it is the one in the table |
| Startup.CompletedOnce | backend/internal/lifecycle/service.go:948-1024 | a load call is completed only by its own goroutine and never a second time, so the once guard is not what makes it so |
| Startup.LoadEndsWithItsStart | backend/internal/lifecycle/service.go:980-1010 | a load that started a worker ends with what the start returned when the instance's generation has not moved from its beginning to the live check, and as killed when it has; every caller that joined it sees just that |
| Startup.LoadEndsWithoutAStart | backend/internal/lifecycle/service.go:948-980 | a load that gave up before the gate, or did not start, ends with the outcome of that step, and every caller that joined it sees just that |
| Startup.LoadHistory | backend/internal/lifecycle/service.go:948-1010 | every load that completes gave up, did not start, or began a startup, got its start's outcome and checked that it is live, in this order |
| Startup.StepsFollow | backend/internal/lifecycle/service.go:221-330 | the steps of loads, retries, restarts, stops and kills follow one another in the source's order, on every run |
| Startup.LoadLeftAlone | backend/internal/lifecycle/service.go:948-1010 | on every run a load that finds its gate free and is left alone completes with what its start returns |
| Startup.ResultsStay | backend/internal/lifecycle/service.go:1013-1024 | a load call's result never changes once set |
| Startup.JoinersAgree | backend/internal/lifecycle/service.go:938-945 | all callers that joined the same load see the same endpoint or the same error, whenever they look |
| WorkerExit.ReservationLedger.Release | backend/internal/scheduler/reservation.go:400-415 | a lease leaves the ledger and its owner's entry goes only if it names that lease; releasing twice does nothing |
| WorkerExit.ReservationLedger.ReleaseInstance | backend/internal/scheduler/reservation.go:284-289 | releases whatever lease the instance has |
| WorkerExit.ReservationLedger.Acquire | backend/internal/scheduler/reservation.go:184-221 | the owner's earlier lease is released first, even when nothing fits; a fitting request gets a pending lease under a new id |
| WorkerExit.ReservationLedger.CommitInstance | backend/internal/scheduler/reservation.go:238-266 | commits a pending lease, fails on a committed one, and accepts an instance without a lease |
| WorkerExit.CommittedWorkers.TrackCommittedWorker | backend/internal/lifecycle/service.go:1346-1353 | the instance's entry becomes this process and lease |
| WorkerExit.CommittedWorkers.HandleWorkerExit | backend/internal/lifecycle/service.go:1355-1375 | takes the entry and releases its lease only when the process is the tracked one |
| WorkerExit.ExitedWorkersLeaseIsReleasedOnce | backend/internal/lifecycle/service.go:1139-1150 | whatever the order of commit, track, re-check and exit, and with starts overlapping freely, once both sides have finished and the workers are gone the lease has been released exactly once, unless it is still in the ledger because another lease was tracked over it |
| WorkerExit.CommittedLeaseHasAWorker | backend/internal/lifecycle/service.go:1139-1150 | when an instance's starts and reports have finished its lease is committed, and it is the tracked one of a worker that the supervisor still has exactly when the last start to track did not track a lease that had left the ledger over it |
| WorkerExit.LostOnlyByOverlap | backend/internal/lifecycle/service.go:966-1004 | that takes two starts of the instance: one acquires between the other's look-up of its lease and its track |
| WorkerExit.OverlappingStartsLeakALease | backend/internal/lifecycle/service.go:1139-1150 | a run of two overlapping starts after which a committed lease is left with no worker, no entry and nothing under way |
| WorkerExit.NeverReleasedTwice | backend/internal/scheduler/reservation.go:400-415 | stops, expiries, new starts and exit reports together never release a lease twice |
| WorkerExit.ReportReleasesItsOwnWorkersLease | backend/internal/lifecycle/service.go:1355-1375 | an exit report only ever releases the lease tracked for its own instance and process, which is gone by then; any other report changes neither ledger nor table |
| WorkerExit.ReportsHaveAReason | backend/internal/lifecycle/service.go:1145-1150 | a report takes the tracked entry of a worker that the supervisor still has exactly when it was raised by a re-check that met the process present in a state other than ready, and the process has not exited since |
| WorkerExit.RecheckDuringAbortedDrain | backend/internal/lifecycle/service.go:1145-1150 | a run without any stop or exit in which a ready worker is left without its lease, because the re-check met a drain that was aborted later |
| GgufReader.MetadataReader.AddRetained | backend/internal/ggufmeta/budget.go:10-16 | charges the retained budget exactly when the charge fits, without overflow |
| GgufReader.MetadataReader.Read | backend/internal/ggufmeta/budget.go:39-54 | one read through the counting reader delivers a part of what is left of file and budget, charges exactly that, and fails at the end of either |
| GgufReader.MetadataReader.SkipBytes | backend/internal/ggufmeta/ggufmeta.go:338-365 | skipping moves exactly the distance asked for or ends where the reachable bytes end |
| GgufReader.MetadataReader.SkipRemainder | backend/internal/ggufmeta/ggufmeta.go:302-315 | skips the elements that are not shown, in one move for fixed sizes, with a product that fits an int64 |
| GgufReader.MetadataReader.ReadArray | backend/internal/ggufmeta/ggufmeta.go:248-300 | the element loop and the skipped rest compute the array's value and end after its last element |
| GgufReader.MetadataReader.ReadValue | backend/internal/ggufmeta/ggufmeta.go:191-246 | the stream reader returns the value the format defines at this position and moves to its end |
| GgufReader.MetadataReader.SkipValue | backend/internal/ggufmeta/summary.go:164-204 | the skipping reader moves to the end of the value or fails where the format does |
| GgufReader.MetadataReader.ReadString | backend/internal/ggufmeta/ggufmeta.go:448-476 | keeps a capped prefix of a string and moves past all of it |
| GgufReader.MetadataReader.InspectSection | backend/internal/ggufmeta/ggufmeta.go:118-139 | the entry loop keeps every entry in order and stays within both budgets, with one completed round per bytes read |
| GgufReader.MetadataReader.SummarySection | backend/internal/ggufmeta/summary.go:63-92 | the summary loop keeps only the needed scalars, under the same budgets |
| GgufReader.MetadataReader.DerivedSection | backend/internal/ggufmeta/derived_reader.go:43-68 | the derived-facts loop keeps the scalars, and those it has when an error ends it, under the same budgets |
| GgufReader.MetadataReader.TensorPrefixPresent | backend/internal/ggufmeta/summary.go:220-249 | the tensor loop answers whether a tensor's name has the prefix, and reads no further than the first that has |
| GgufReader.MetadataReader.Inspect | backend/internal/ggufmeta/ggufmeta.go:90-153 | the full reader computes the format's inspection; the section budget is charged exactly the distance moved in the metadata section, at most 64 MiB, at most 2 MiB are retained, and there are no more rounds of entries and elements than bytes |
| GgufReader.MetadataReader.ReadSummary | backend/internal/ggufmeta/summary.go:36-111 | the summary reader computes the format's summary under the same bounds |
| GgufReader.MetadataReader.InspectDerived | backend/internal/ggufmeta/derived_reader.go:13-73 | the derived reader computes the format's derived facts under the same bounds |
| GgufReader.MetadataReader.ReadStringPage | backend/internal/ggufmeta/value_page.go:122-151 | the stream reader returns the requested page of a string |
| GgufReader.MetadataReader.ReadArrayPage | backend/internal/ggufmeta/value_page.go:153-203 | skipping to the offset and reading the page loop returns the requested page of an array |
| GgufReader.MetadataReader.RetainPage | backend/internal/ggufmeta/value_page.go:89-96 | charging the value and then item by item succeeds exactly when the whole page fits the retained budget |
| GgufReader.MetadataReader.PageSection | backend/internal/ggufmeta/value_page.go:71-105 | the scan for the key skips the entries before it and stops at its first occurrence, under both budgets |
| GgufReader.MetadataReader.ReadValuePage | backend/internal/ggufmeta/value_page.go:34-105 | the page reader computes the format's page under the same bounds |
| GgufAgreement.ValueAgrees | backend/internal/ggufmeta/summary.go:164-218 | the keeping and the skipping reader accept the same encodings of every type and stop at the same byte |
| GgufAgreement.RemainderAgrees | backend/internal/ggufmeta/ggufmeta.go:302-315 | skipping the rest of an array in one move or element by element ends at the same byte or fails alike |
| GgufAgreement.SummaryAgreesWithInspect | backend/internal/ggufmeta/summary.go:36-111 | for every byte string, if inspect succeeds then readSummary succeeds with the same version, counts, derived facts and features |
| GgufAgreement.InspectAgreesWithSummary | backend/internal/ggufmeta/ggufmeta.go:90-153 | inspect succeeds exactly for the files that readSummary accepts and whose keys and displays together fit the retained budget, and refuses the others of them for that budget |
| GgufAgreement.DerivedAgreesWithInspect | backend/internal/ggufmeta/derived_reader.go:13-77 | if inspect succeeds then InspectDerivedReader returns the same derived facts, with no error exactly when the core dimensions are present, and reads no further |
| GgufAgreement.DeriveReadsSummaryKeys | backend/internal/ggufmeta/summary.go:113-134 | the keys the summary keeps are all the keys that derived facts and features depend on |
| GgufAgreement.WalkWithinBudgets | backend/internal/ggufmeta/budget.go:5-66 | whatever counts and lengths a file declares, the full, the summary, the derived and the page walk end within 64 MiB and retain at most 2 MiB, and the first three make at most one entry round for every twelve bytes read |
| GgufRoundTrip.WalkInvertsEncode | backend/internal/ggufmeta/ggufmeta.go:118-139 | walking an encoded section returns its entries in order and stops right behind it, exactly when they fit the retained budget |
| GgufRoundTrip.InspectInvertsEncode | backend/internal/ggufmeta/ggufmeta.go:90-153 | encoding any uniquely keyed entries within the limits by the file structure and inspecting returns exactly those entries sorted by key, and leaves the reader at the first tensor descriptor |
| GgufRoundTrip.InspectReadsTensorTable | backend/internal/ggufmeta/ggufmeta.go:142-152 | with an encoded tensor table behind the entries inspecting succeeds in every case, and a file that predicts several tokens counts as lacking a trunk exactly when no tensor's name begins with blk.0. |
| GgufRoundTrip.TensorsAt | backend/internal/ggufmeta/summary.go:220-249 | over an encoded tensor table the scan answers whether some name has the prefix, although long names are cut for display |
| GgufRoundTrip.ArrayAt | backend/internal/ggufmeta/ggufmeta.go:248-300 | reading back an encoded array shows its first elements, counts all and ends behind it |
| GgufRoundTrip.SortByKeySorts | backend/internal/ggufmeta/ggufmeta.go:140-140 | sorting keeps the entries and puts distinct keys in strictly ascending order |
| GgufRoundTrip.AscendingIsUnique | backend/internal/ggufmeta/ggufmeta.go:140-140 | there is only one such order, so an unstable sort leaves no choice |
| GgufFacts.HeaderIsChecked | backend/internal/ggufmeta/ggufmeta.go:90-117 | a header is accepted exactly when its bytes are the magic, version 2 or 3 and at most 4096 entries |
| GgufFacts.LimitsAreChecked | backend/internal/ggufmeta/ggufmeta.go:14-40 | longer keys and strings, larger or nested arrays and tensors of more dimensions are refused, for any bytes |
| GgufFacts.DeriveTells | backend/internal/ggufmeta/ggufmeta.go:505-538 | each derived number is the integer under its own literal key behind the trimmed architecture if it fits an int64, and zero when the key is absent, an array, or no number |
| GgufFacts.FeaturesTold | backend/internal/ggufmeta/summary.go:136-162 | the features are those that architecture and number of prediction layers tell |
| GgufFacts.InspectTells | backend/internal/ggufmeta/ggufmeta.go:90-153 | the full reader's answer for any encoded file within the limits: header, entries ascending by key, the nine numbers and the architecture, and the features by entries and tensor names |
| GgufFacts.OtherReadersTell | backend/internal/ggufmeta/summary.go:36-111 | the summary reader and the reader of derived facts answer with the same facts; the latter complains exactly when it lacks the architecture or one of three dimensions |
| GgufPages.StringPageIsSlice | backend/internal/ggufmeta/value_page.go:122-151 | a string page is the slice of the whole string at the offset, with more announced exactly when bytes are left |
| GgufPages.ArrayPageIsSlice | backend/internal/ggufmeta/value_page.go:153-203 | an array page is the slice of all element displays at the offset, with more announced exactly when elements are left |
| GgufPages.StringPagesConcatenate | backend/internal/ggufmeta/value_page.go:122-151 | advancing by the returned length until no more is announced ends, and the pages concatenate to the whole string, for every sequence of limits |
| GgufPages.ArrayPagesConcatenate | backend/internal/ggufmeta/value_page.go:153-203 | the same for arrays and the displays of all elements, without gap or overlap |
| GgufPages.PageAgreesWithInspect | backend/internal/ggufmeta/value_page.go:34-120 | for a file that inspect accepts, the key is found exactly when inspect lists it; the page of the value behind its first entry is then returned exactly when its bytes and those of all keys up to it fit the retained budget, and refused for that budget otherwise |
| GgufPages.PageWalkFinds | backend/internal/ggufmeta/value_page.go:71-104 | the same from any position with any budget already used |
| GgufBudget.SummaryWalkAt | backend/internal/ggufmeta/summary.go:63-93 | over an encoded section the summary walk succeeds exactly when all keys and the displays under summary keys fit its budget |
| GgufBudget.BudgetDecides | backend/internal/ggufmeta/budget.go:5-66 | for encoded files without tensors the sizes of keys and displays alone decide which of the two readers accept |
| GgufBudget.OnlySummaryAccepts | backend/internal/ggufmeta/summary.go:63-93 | 256 strings of 4096 bytes under distinct keys: the summary reader accepts the file and the full reader refuses it for its retained budget |
| GgufBudget.LocateAt | backend/internal/ggufmeta/value_page.go:71-103 | in an encoded section the first entry with a key is located at its encoded value, behind exactly the keys before it |
| GgufBudget.PageOfEncoded | backend/internal/ggufmeta/value_page.go:34-203 | for any value of an encoded file the page is the slice that offset and limit ask for, by default and at most 16 KiB of a string or 100 elements, and it is returned exactly when it fits together with all keys up to its own |
| GgufBudget.PageIsRefused | backend/internal/ggufmeta/value_page.go:71-98 | a file that the full reader accepts, whose last string is refused as one page and returned in pages of 4096 bytes |
| ApiKeyCache.KeyCache.CachedAPIKey | backend/internal/auth/api_keys_cache.go:36-46 | returns the cached key together with the generation it was read under |
| ApiKeyCache.KeyCache.RememberAPIKey | backend/internal/auth/api_keys_cache.go:48-57 | publishes only under an unchanged generation |
| ApiKeyCache.KeyCache.StampCachedAPIKey | backend/internal/auth/api_keys_cache.go:59-74 | stamps only a key that is still cached under an unchanged generation |
| ApiKeyCache.KeyCache.ClearAPIKeyCache | backend/internal/auth/api_keys_cache.go:76-82 | empties the cache and moves the generation on |
| ApiKeyCache.CacheAgreesWithTable | backend/internal/auth/api_keys.go:337-383 | with any number of authentications and mutators, every cached key equals its row or some mutator that changed this very key sits between commit and clear |
| ApiKeyCache.SuccessIsOwedToARecentRow | backend/internal/auth/api_keys.go:337-383 | once a mutator has returned, every later success was decided on, and returns, a row the key had after that mutator's clear, acceptable on the day of the check |
| ApiKeyCache.DisabledKeyCannotSucceed | backend/internal/auth/api_keys.go:163-181 | a key that is disabled, gone or without an enabled owner ever since a mutator returned cannot authenticate |
| ApiKeyCache.SuccessOutsideWindowsIsCurrent | backend/internal/auth/api_keys_cache.go:59-74 | unless a mutator that changed this very key is between commit and clear, a success is decided on the present row |
| ApiKeyCache.RefusalIsOwed | backend/internal/auth/api_keys.go:337-383 | an authentication is refused only if its key had no row at some moment since it started, or it checked a row the key had that was disabled, of a disabled owner, or expired on that day |
| ApiKeyCache.AloneItAnswers | backend/internal/auth/api_keys.go:337-383 | an authentication left alone, with no change of its key under way, succeeds exactly when the key has a good row, and returns it stamped |
| ApiKeyCache.LastUseIsWritten | backend/internal/auth/api_keys.go:376-379 | the write after a success sets the last use of the enabled rows with the key's id and nothing else |
| ApiKeyCache.OldRowSucceedsInsideTheWindow | backend/internal/auth/api_keys.go:163-181 | a run in which the old row still succeeds between commit and clear |
| UsageStream.UsageStreamCollector.Feed | backend/internal/gateway/metrics.go:318-349 | whatever the chunk holds, the collector ends as if all text so far had come in one piece |
| UsageStream.UsageStreamCollector.Finish | backend/internal/gateway/metrics.go:351-360 | the unfinished line is accounted for once, if it is not being discarded; finishing again changes nothing |
| UsageStream.UsageStreamCollector.Result | backend/internal/gateway/metrics.go:362-365 | finishes first, then reports the usage of the lines within the limit |
| UsageStream.CaptureStream | backend/internal/gateway/metrics.go:368-381 | for every way of cutting a stream into chunks the result depends on the concatenation only: exactly the lines of at most 1 MiB are processed, in order |
| UsageStream.ParseUsage | backend/internal/gateway/metrics.go:283-293 | the whole-body parser takes a leading object first and then every line |
| UsageStream.PendingIsCapped | backend/internal/gateway/metrics.go:307-312 | at every moment the kept piece is at most 1 MiB, holds no newline and is the end of the text seen; nothing is kept while a line is discarded |
| UsageStream.StreamAgreesWithBody | backend/internal/gateway/metrics.go:283-365 | for every JSON decoder and body whose lines fit, streaming equals parsing the concatenation exactly when the later lines report everything that a leading object reports; in particular whenever the body does not begin with one |
| UsageStream.SingleObjectIsMissed | backend/internal/gateway/metrics.go:283-293 | the collector sees nothing of a body that is one line holding an object, so the two agree exactly when the object reports nothing |
| UsageStream.AddReportsIsOverlay | backend/internal/gateway/metrics.go:89-106 | adding reports lays what they amount to over what was there: the later value of each field wins, tool calls are united |
| UsageStream.StreamUsageIsLastReported | backend/internal/gateway/metrics.go:89-156 | of any streamed body each token count is the last positive one reported, each rate, statistic and finish reason the last one given, and the tool-call count the number of distinct calls |
| UsageStream.StreamTells | backend/internal/gateway/metrics.go:295-370 | for an event stream given by its lines, blanks included, the collected usage is what the payloads behind `data:` amount to, decoded in order; end marks, empty data lines, other lines and lines of more than 1 MiB count for nothing |
| UsageStream.BodyTells | backend/internal/gateway/metrics.go:283-306 | the same for parsing a whole body, where the reports of the object that the body begins with come first and no line is too long |
| UsageStream.AddReportsConcat | backend/internal/gateway/metrics.go:215-230 | accumulating two stretches of reports one after the other is accumulating them together |
| Text.SplitIsTheInverseOfJoin | backend/internal/gateway/metrics.go:289-291 | splitting yields the only separator-free parts that join to the text |
| Text.TrimBlanks | backend/internal/gateway/metrics.go:295-305 | ASCII white space around a text is trimmed off and nothing else is changed |
| Text.SpacesAreEncoded | backend/internal/gateway/metrics.go:295-305 | the three-byte white space that is trimmed are the encodings of the code points that Unicode counts as such |
| Text.NumbersAreCanonical | backend/internal/ggufmeta/ggufmeta.go:388-393 | numbers are shown with a sign if negative, without leading zeros, and with the digits of their value |
| HotCache.InstanceHotCache.EnableHotCache | backend/internal/instances/hot_cache.go:22-30 | the first enabling moves the generation on; later ones change nothing |
| HotCache.InstanceHotCache.CachedByIDAtGeneration | backend/internal/instances/hot_cache.go:32-42 | returns the cached instance, if the cache is enabled, and the generation |
| HotCache.InstanceHotCache.CachedBySlugAtGeneration | backend/internal/instances/hot_cache.go:49-63 | follows the slug entry to the cached instance |
| HotCache.InstanceHotCache.RememberHotLocked | backend/internal/instances/hot_cache.go:70-77 | replaces the instance and moves its slug entry |
| HotCache.InstanceHotCache.RememberHotIfGeneration | backend/internal/instances/hot_cache.go:79-91 | publishes only under an unchanged generation, and never into a disabled cache |
| HotCache.InstanceHotCache.RememberHot | backend/internal/instances/hot_cache.go:93-102 | publishes under a new generation |
| HotCache.InstanceHotCache.ForgetHot | backend/internal/instances/hot_cache.go:104-116 | drops the instance and its slug entry under a new generation |
| HotCache.DevicesRoundTrip | backend/internal/instances/service.go:286-293 | a normalized device list survives being written and scanned exactly when no device id holds a comma |
| HotCache.CacheAgreesWithTable | backend/internal/instances/service.go:125-159 | outside its writer's window a cached instance equals its row exactly when it is not a row that went without a notice, with its model or by an import that had lost its claim |
| HotCache.CacheInsideWindow | backend/internal/instances/service.go:125-159 | inside the window it is the new row, the one just replaced, or one that went without a notice |
| HotCache.SlugEntriesLead | backend/internal/instances/hot_cache.go:70-77 | every slug entry leads to a cached instance with exactly that slug |
| HotCache.GetIsNoOlderThanItsStart | backend/internal/instances/service.go:190-221 | a get that starts outside the writer's window yields, under the id or slug asked for, only what was the row at some moment since then or what lingered from a change without notice |
| HotCache.GetAfterWriterReturned | backend/internal/instances/service.go:125-159 | a get that starts after Update, Delete or a notified change returned yields only what was the row at some moment since then |
| HotCache.NotFoundHadNoRow | backend/internal/instances/service.go:190-221 | a get finds nothing only if, at a moment since it started, no row had the id or slug it asked for |
| HotCache.AloneItAnswers | backend/internal/instances/service.go:190-221 | a get left alone yields what the cache has for its key, or else the row with its id or slug, and nothing exactly when there is neither |
| HotCache.WriterStepsFollow | backend/internal/instances/service.go:90-160 | a created instance is published, an update invalidates before it publishes, deletions and imports only invalidate |
| HotCache.UpdatePublishes | backend/internal/instances/service.go:125-160 | an update publishes exactly the row it wrote |
| HotCache.DeletedModelIsServed | backend/internal/models/service.go:318-321 | a run in which a model's deletion leaves its cached instance behind and a later get returns it |
| HotCache.ReEnabledInstanceIsServedDisabled | backend/internal/modelimports/service.go:285-298 | a run in which a disabled instance is enabled without a notice and a later get returns it as disabled |
| IdentityMigration.UniqueRandomUUID | backend/internal/database/resource_identity_migration.go:318-328 | the unbounded draw ends within one more draw than there are used ids and returns the first unused one |
| IdentityMigration.MapInstances | backend/internal/database/resource_identity_migration.go:58-67 | the i-th instance gets the i-th random id |
| IdentityMigration.BuildMapping | backend/internal/database/resource_identity_migration.go:58-97 | the mapping is injective and covers every instance and every trimmed non-blank reference, and nothing else; instances have the first random ids, every other reference the deterministic id of its name, or a later random one exactly when another has that already |
| IdentityMigration.SequentialIsSimultaneous | backend/internal/database/resource_identity_migration.go:120-135 | the one-id-at-a-time updates equal one simultaneous substitution in every iteration order exactly when no new id is another reference's old id |
| IdentityMigration.RewriteReferences | backend/internal/database/resource_identity_migration.go:120-135 | the loop over ids and the seven tables applies the updates to every row in one order |
| IdentityMigration.RewriteScopes | backend/internal/database/resource_identity_migration.go:137-155 | every scope entry is replaced by what its trimmed id maps to, in place and order |
| IdentityMigration.CollectLegacyInstanceIDs | backend/internal/database/resource_identity_migration.go:236-274 | collects exactly the non-empty references of the tables |
| IdentityMigration.MoveInstances | backend/internal/database/resource_identity_migration.go:106-161 | succeeds exactly when no new id is an old instance's, and then the rows are the old ones under their new ids, each with its old id as slug |
| IdentityMigration.Database.Migrate | backend/internal/database/resource_identity_migration.go:43-161 | the whole transaction: all references, scopes, slugs and rows as above, or nothing changed; a reference is covered exactly when it is an instance's or has no white space around it; it succeeds exactly when none of the random ids drawn for the instances is an old instance id, and the instances then have just those ids |
| IdentityMigration.ReferencesKeepApart | backend/internal/database/resource_identity_migration.go:120-135 | references are equal afterwards exactly when they were equal before |
| IdentityMigration.ReferencesFollowTheirInstance | backend/internal/database/resource_identity_migration.go:100-145 | a reference leads to its instance's row, whose slug is the old id, what led nowhere still leads nowhere, and a key scope's entry goes with the references exactly when the id has no white space around it |
| IdentityMigration.SpacedIdGoesAstray | backend/internal/database/resource_identity_migration.go:137-155 | an instance id with a space before it: the scope entry gets an id that leads to no instance, a table reference leads to the moved row |
| IdentityMigration.FreeSlug | backend/internal/database/resource_identity_migration.go:305-310 | the suffix loop ends within one more probe than there are used slugs and returns the first free candidate |
| IdentityMigration.BackfillModelSlugs | backend/internal/database/resource_identity_migration.go:276-316 | every model gets a slug that no other model has, the first free one of its name |
| BenchmarkRuns.RunStore.TransitionRun | backend/internal/benchmark/store_sql.go:147-165 | changes a run only along a legal transition and only from the expected status; a miss is told apart as conflict or not found |
| BenchmarkRuns.RunStore.CompleteRun | backend/internal/benchmark/store_sql.go:166-202 | status and all results, indexed from zero, change together or not at all |
| BenchmarkRuns.RunStore.DeleteRun | backend/internal/benchmark/store_sql.go:203-219 | removes the run or reports that it was not there |
| BenchmarkRuns.RunStore.ListRuns | backend/internal/benchmark/store_sql.go:94-146 | a page holds at most 100 runs of the status, and is empty only when there is none |
| BenchmarkRuns.RunStore.ReconcileStatus | backend/internal/benchmark/service.go:348-380 | the page loop terminates and closes exactly the runs of the status |
| BenchmarkRuns.RunStore.ReconcileInterrupted | backend/internal/benchmark/service.go:348-380 | afterwards queued runs are cancelled and running ones failed, at the given time and otherwise as they were; finished ones are untouched |
| BenchmarkRuns.StoredRunsAreConsistent | backend/internal/benchmark/service.go:237-281 | under any interleaving of jobs, cancellation, deletion, reconciliation and restart: completion time exactly when finished, results exactly when completed, at least one and indexed 0 to n-1 |
| BenchmarkRuns.HistoryIsAPath | backend/internal/benchmark/types.go:50-63 | each run's status history begins with queued, goes on to running, failed or cancelled, from running to completed, failed or cancelled, and ends in its status |
| BenchmarkRuns.HistoryGrows | backend/internal/benchmark/store_sql.go:147-202 | a step adds at most one status at the end of a run's history |
| BenchmarkRuns.FinishedRunsStay | backend/internal/benchmark/types.go:50-63 | a finished run's status, times and results never change again |
| BenchmarkRuns.ClosedAtMostOnce | backend/internal/benchmark/store_sql.go:147-165 | no run is closed by two steps of reconciliation, whatever else is going on |
| BenchmarkRuns.ClosedRunsEnd | backend/internal/benchmark/service.go:348-380 | on every run reconciliation closes queued runs as cancelled and running ones as failed |
| BenchmarkRuns.ClosingsAreBounded | backend/internal/benchmark/service.go:348-380 | on every run reconciliation closes no more runs than were ever created |
| BenchmarkRuns.ReconciliationIsBounded | backend/internal/benchmark/service.go:348-380 | whatever interleaves, a reconciliation call completes at most two page rounds more than runs are closed meanwhile, and takes at most 102 steps per round; it can go on only while runs are being created |
| BenchmarkRuns.RoundsGoOn | backend/internal/benchmark/service.go:348-380 | a page round that closed a run is followed by another of the same status, one that closed none is its last, and queued runs come after running ones |
| BenchmarkRuns.ReconcileMoves | backend/internal/benchmark/service.go:348-380 | an empty page ends a status, a run that is gone meanwhile ends the call, and any other run is passed over |
| BenchmarkRuns.OnlyFinishedRunsAreDeleted | backend/internal/benchmark/service.go:337-346 | check-then-delete never removes a live run |
| BenchmarkRuns.ResultsComeWithCompletion | backend/internal/benchmark/store_sql.go:166-202 | results appear only with the job's own completion of its running run |
| BenchmarkRuns.JobEnds | backend/internal/benchmark/service.go:237-281 | a job ends its run as cancelled if its context was, failed if the execution broke, otherwise completed with what the execution put out, in order and at the time it finished, and only if the run still runs |
| BenchmarkRuns.JobBegins | backend/internal/benchmark/service.go:237-253 | before it executes, a cancelled job closes its queued run as cancelled and one that was not sets it running; no other step before the end changes the store |
| BenchmarkRuns.JobStepsFollow | backend/internal/benchmark/service.go:237-281 | a job's steps follow one another in the source's order: cancelled before it runs, it closes its run unrun; refused by the store, it leaves |
| BenchmarkRuns.ActiveFollowsJob | backend/internal/benchmark/service.go:237-311 | a run can be cancelled through its job from the job's first step to its last |
| BenchmarkRuns.CancelTakesEffect | backend/internal/benchmark/service.go:321-335 | a cancellation asks the job to stop if the run has one, otherwise cancels the run if it still has the status found, and leaves a finished run alone |
| BenchmarkRuns.DeleteTakesEffect | backend/internal/benchmark/service.go:337-346 | a deletion that found the run finished removes it and one that did not changes nothing |
| RuntimeResolve.ResolveRuntimeConfig | backend/internal/benchmark/runtime_resolve.go:10-172 | the step-by-step merge computes the resolution, stopping at the first error in the order of the checks |
| RuntimeResolve.NormalizeDeviceList | backend/internal/benchmark/runtime_helpers.go:22-34 | trims, drops blanks and keeps each device at its first place |
| RuntimeResolve.NormalizingNormalizes | backend/internal/benchmark/runtime_helpers.go:22-34 | the result holds exactly the non-blank trimmed devices, without repetition |
| RuntimeResolve.NormalizingKeepsOrder | backend/internal/benchmark/runtime_helpers.go:22-34 | the devices are in the order of their first mention |
| RuntimeResolve.NormalizeSplit | backend/internal/benchmark/runtime_helpers.go:53-69 | trims every weight and refuses the list when one is not a weight |
| RuntimeResolve.NormalSplit | backend/internal/benchmark/runtime_helpers.go:53-69 | a normalized split is trimmed and normal already |
| RuntimeResolve.ResolveIsIdempotent | backend/internal/benchmark/runtime_resolve.go:10-172 | resolving a result again with the same request reports nothing and changes nothing |
| RuntimeResolve.ReportIsExact | backend/internal/benchmark/runtime_resolve.go:18-171 | an option, device list or split is reported exactly when it is requested and differs from the instance's, in normal form, and is then in force; a reported device list decides the mode; everything else keeps the instance's value and source, but for a split given back to automatic placement; automatic placement has no split, manual placement has devices, a split has one weight per device |
| RuntimeResolve.ReplayReproduces | backend/internal/benchmark/runtime_resolve.go:116-156 | requesting only the reported overrides gives the same report and configuration exactly for the inputs that do not return an instance with a split to automatic placement without reporting it |
| RuntimeResolve.ReplayCanFail | backend/internal/benchmark/runtime_resolve.go:152-160 | an automatic instance with a left-over split: the request succeeds with an empty report, the empty report fails |
| RuntimeResolve.ReplayCanDifferOnABlankSplit | backend/internal/benchmark/runtime_resolve.go:139-156 | a manual instance with a blank split: the report leaves out that no split was asked for, and the replay gives the blank one back |
| RuntimeRules.UnavailableIsAnswered | backend/internal/benchmark/runtime_resolve.go:11-13 | without a usable benchmark binary every request is refused with its reason |
| RuntimeRules.OptionComplaintIsAnswered | backend/internal/benchmark/runtime_resolve.go:17-124 | the first option, in the source's order, whose name is not advertised, whose number is out of its literal range, or whose text is malformed or not offered is what is complained about, and how |
| RuntimeRules.DeviceComplaintIsAnswered | backend/internal/benchmark/runtime_resolve.go:116-128 | if the options do, the first device that is malformed or not advertised is complained about |
| RuntimeRules.SplitComplaintIsAnswered | backend/internal/benchmark/runtime_resolve.go:139-147 | if options and devices do, a split that is not a list of weights is complained about |
| RuntimeRules.PlacementDecides | backend/internal/benchmark/runtime_resolve.go:116-171 | if everything requested does, the resolution succeeds exactly when the placement it leads to is consistent, has that placement, and otherwise names the first inconsistency |
| RuntimeRules.ResolutionTells | backend/internal/benchmark/runtime_resolve.go:18-114 | field by field: an option is reported exactly when it was requested and is not set so already, in normal form, is in force with the source benchmark, and all other settings and sources are the instance's |
| Tickets.TicketTable.PurgeExpired | backend/internal/auth/bearer.go:258-262 | removes exactly the expired tickets |
| Tickets.TicketTable.EvictForSession | backend/internal/auth/bearer.go:264-281 | the loop ends with room for one more ticket of the session, having removed only that session's, soonest expiry first, and no more than needed |
| Tickets.TicketTable.EvictGlobal | backend/internal/auth/bearer.go:283-295 | the loop ends with room in the table, having removed soonest expiry first and no more than needed |
| Tickets.TicketTable.IssueWebSocketTicket | backend/internal/auth/bearer.go:255-299 | purge, both evictions and the insertion, in this order |
| Tickets.TicketTable.ConsumeWebSocketTicket | backend/internal/auth/bearer.go:301-312 | takes the ticket out whether or not it is still valid, and yields it only if it is |
| Tickets.CapsHold | backend/internal/auth/bearer.go:20-24 | in every reachable state at most 8 tickets of a session and 1024 in all |
| Tickets.OtherSessionsAreSpared | backend/internal/auth/bearer.go:264-295 | issuing takes an unexpired ticket of another session only when the table is full |
| Tickets.OwnTicketsGoInOrder | backend/internal/auth/bearer.go:264-295 | a live ticket of the session goes only when the session has eight or the table is full, and before those of the session that expire later |
| Tickets.RedeemedIsIssued | backend/internal/auth/bearer.go:301-318 | a redemption yields the ticket issued under that text, with its session and token id, exactly when it is still in the table and has not expired |
| Tickets.RedeemedAtMostOnce | backend/internal/auth/bearer.go:301-318 | each issued ticket is redeemed at most once, and only before its expiry |

## Left out

Assumptions and interfaces:

- The supervisor is a nondeterministic interface: a worker changes state or exits at any step; it leaves the ready state before its exit is reported, as backend/internal/supervisor/control.go:131-157 does. Process handling, ports and readiness probing are not part of this model.
- The scheduler's placement and credit arithmetic is not part of this model; whether a request fits is left open at each step.
- SQL is a map with atomic statements and transactions; query text, JSON columns, NULL references and Goose are not part of this model. A statement that takes effect and then reports an error is not modelled.
- Clocks, random tokens and UUIDs are parameters; that random ids are new, or all different, is a stated precondition or part of an action's enabling condition.
- The process id of an exited worker is assumed not to be reused for the same instance while a report about it is under way (`Unreported` in `WorkerExit`).
- A start that gives up marks whatever worker the supervisor's map holds as failed, also one that is still alive (backend/internal/supervisor/start.go:73 and control.go:202-207); a later start then replaces it, and its exit calls no handler (control.go:130-133). `WorkerExit` assumes that this does not happen: every worker that leaves the map is reported.
- The empty text is assumed to be no weight (`!lib.isWeight("")`), as for the float parser of the source; the theorems of `RuntimeResolve` on repeated resolution and replay need it.
- Mutations of one instance id are taken one at a time in `HotCache`: two overlapping updates republish their own values unconditionally, so freshness does not hold for them. Device ids are assumed free of commas, which `DevicesRoundTrip` shows to be necessary.
- Go's 64-bit counters and generations are unbounded numbers. In the metadata readers the two products of element counts and sizes are shown to fit an int64; sums are compared by subtraction as in the source.
- Float formatting, quoting, Unicode case folding, JSON decoding and float parsing are uninterpreted functions.
- The order that sort.Slice gives equal keys and the iteration order of Go maps are left open or shown not to matter; collected legacy ids are not sorted.
- White space is trimmed by the UTF-8 encodings of the code points Go counts as white space; strings are sequences of bytes.

Weaker than the source, deliberately:

- ApiKeyCache.CacheAgreesWithTable: speaks of the fields an authentication decides on and of those it returns, not of the last-used time or of missing instances.
- UsageStream.StreamAgreesWithBody: assumes that the decoder leaves the tool-call count to the accumulator, as the source's does.
- IdentityMigration.ReferencesKeepApart: assumes the new ids were not in use as ids or references before.
- Startup.LiveMeansUndisturbed: speaks of startups as the check sees them; that a superseded startup never touches a newer worker is not promised by the code and not claimed.

Not modelled:

- Start-failure backoff, always-on reconciliation policy, memory-pressure eviction order and the observability records of the lifecycle service.
- Rows that the legacy model creation inserts are not told to the hot cache; they are new, so nothing can be cached of them.
- The foreign-key check that ends the identity migration.
- Which worker a lease's placement was planned for: that a start can find, track and release the lease of an overlapping start is visible in `WorkerExit` only as the entry it tracks.
- A success that turns into an error because the last-used time cannot be written, and the throttling of those writes.
- Blanks around the payload of an event-stream line are ASCII in `UsageStream.StreamTells`; the code trims other white space too.
- Where a buffered reader stands after a fixed-size read in the header or the tensor table has failed: the source has peeked and not moved, the model is at the end of the data.
- The order of a page of benchmark runs, and the clock moving between two runs that one reconciliation closes.
- Copying of device slices on cache reads: instances are values here, so aliasing cannot be expressed.
- Choosing the key and page of a metadata value by name over HTTP, filtering of entries, and the seeking variants of the readers.
- The checks of database sessions around tickets and tokens.
- Executing benchmarks, mapping configurations to arguments, and the resource reservations of benchmark jobs.
- HTTP handlers, OpenAPI, the WebSocket and reverse proxies, OIDC, password hashing, downloads, hardware probing, frontend, scripts and configuration: input and output, or thin wrappers.
