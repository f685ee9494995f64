# Foundation Protocol runtime: a verified model

The runtime of Foundation Protocol is a set of small sequential engines over stores. This project
models them in Dafny and proves what every run keeps, and that the fast or lazy forms in the code
agree with simple ones. `dafny verify dfyconfig.toml` checks the whole project.

The code that updates objects in place is modelled by classes (`GroupedStore`, `ActivityEngine`,
`EventEngine`, `BackpressureController`, both event stores, `SessionEngine`, `FPServer`,
`DirectoryService`, `CircuitBreaker`, `Transport`). Each method is proved against a function of the
old state, and for what it does to the stored fields against those fields directly; the theorems about
runs are lemmas about those functions. The expression-shaped code
(schema compiler and matcher, codec) is modelled by functions.

| part | modules | main result |
|---|---|---|
| Order and paging | `KeyOrder`, `Paging`, `GroupedStore`, `SqliteTable`, `Activities`, `ActivityWalk` | a page walk is sort-and-filter, also while the store changes |
| Event log | `Events`, `EventStores`, `EventStoreRefinement`, `EventEngine`, `EventRuns`, `EventLogs`, `Backpressure`, `ServerStreams` | contiguous delivery, exact refinement of lists by the numbered table, the window as a peak of history |
| Start pipeline | `Sessions`, `Lifecycle`, `ServerSanity`, `ServerEffects`, `LifecycleHistory`, `LifecycleRuns`, `SessionFreeze`, `SessionLogs`, `Idempotency`, `ProvenanceLog`, `Server`, `ServerWitnesses` | events spell state histories under every interleaving; one activity per idempotency key, with the exact guard of a step; ended sessions are frozen; no activity without its own approval; the whole effect of every call in terms of the stored fields |
| Operation schemas | `OperationSchema`, `SchemaAgreement`, `SchemaUnions`, `OperationContract`, `OperationCall` | the published schema accepts exactly the payloads that reach the handler, with the exact condition on annotations and on the signature |
| Directory | `Directory`, `DirectoryRefinement`, `DirectoryTrust` | lazy eviction is purging, with the exact condition; nothing shown has escaped the signature check |
| Client | `Reliability`, `Client`, `ClientRuns` | a call returns its last answer, retry bounds, one record per call unless it escapes, the breaker over runs |
| Pointers and codec | `Decimal`, `Json`, `JsonPointer`, `Codec` | a pointer is found exactly if its tokens name a path, RFC 6901 round trip; codec round trips if and only if valid; canonical trees |

`Outcomes` holds the option, result and error types, `Sequences` two facts about concatenation.

## Where the code does less than its rules suggest

These are results of the model, each an exact condition with a witness or a lemma of its own:

- `fail` asks nothing of the current state, so an activity canceled while its handler runs ends as
  failed if the handler then raises (`ServerWitnesses.LateFailureHappens`); this is the only way out
  of a terminal state, in any run (`LifecycleRuns.TerminalIsAbsorbing`).
- An update or completion with a producer of white space, and a handler result the token meter
  cannot encode, store the new state and then raise before the event. These are exactly the steps
  after which events and state differ (`LifecycleRuns.StepKeepsHistories`, guard `Skips`); both
  happen in reachable states (`ServerWitnesses.EventsAreSkipped`).
- A start that is abandoned while its handler runs, whose activity somebody else finished meanwhile,
  or whose result cannot be measured, stores no answer under its idempotency key, and a retry then
  creates a second activity
  (`ServerWitnesses.TwoActivitiesUnderOneKey`). A step keeps one activity per key if and only if it
  is not of this kind and launches nothing while another start with the key waits
  (`Idempotency.StepKeepsOnce`, guard `KeySafe`).
- The SQLite event store resumes behind the last event with the cursor's id, the in-memory store
  behind the first. They agree exactly on streams without repeated ids
  (`EventStoreRefinement.SqliteRefinesMemory`); repeated ids arise from publishing about the
  activity `*`, which is also the session wildcard of stream keys (`EventLogs.LogIdsStayUniqueIffNoWildcard`).
  The history of an activity of that name cannot be read off its stream, that of any other can
  (`SessionLogs.SessionStreamSpellsHistory`).
- Stream keys collide for some activity ids containing ':' (`Events.KeysCollideUnlessSeparable`), and
  then events are misfiled; a log is what it should be if and only if none is
  (`EventLogs.LogsHoldSelectedEvents`).
- Schema and matcher part on bare lists, bare `None`, classes, dict keys that are not all strings,
  literals that list one of `1` and `True` only, `None` beside several union members, integral
  floats, and literals placed before containers in a union (`SchemaAgreement`, `SchemaUnions`).
- Some signatures get a contract and cannot be called: those with positional-only parameters, with a
  keyword-only context, with `payload` as a keyword-only or `**` parameter, and those with a context
  in front of a `payload` without default, where the payload is passed in the context's place
  (`OperationCall.CallSucceedsIffCallable`, guard `Callable`; `OperationCall.PositionalOnlyParts`,
  `OperationCall.PayloadTakesContextsPlace`). The published schema is exact if and only if the
  signature is callable and its annotations are exact (`OperationCall.SchemaIsExactIffCallableAndExact`).
- An expired directory entry that nobody has read blocks an insert without upsert
  (`DirectoryRefinement.ExpiredCardBlocksInsert`) and can be revived by a heartbeat
  (`DirectoryRefinement.ExpiredCardIsRevived`).
- Some calls of the client end with an error nothing handles, without any record at the breaker: an
  undecodable body, an error whose `details` are no mapping, without keep-alive a response that is
  lost, parameters that are no JSON, a header or port no request can be formed with, and a backoff
  too large to be computed or slept (`Client.OneOutcomeUnlessEscaped`, guard `Escapes`;
  `Client.EveryEscapeHappens`, `Client.BackoffOverflowEscapes`).
- A session that everybody has left is reachable (`Codec.EmptiedSessionIsReached`) and stored, but
  cannot be read back from SQLite (`Codec.EmptiedSessionIsLost`).

## Reading the statements

- `Activities.ListActivities`, `GroupedStore` and `SqliteTable` share one specification,
  `GroupedStore.ListingOf`, over `Paging.PageOf`; equal store contents therefore give equal pages
  in memory and in SQLite.
- A run of the server is a sequence of `Lifecycle.Op`. `BeginStart` and `FinishStart` are the two
  halves of an asynchronous start around the handler's await, with anything in between; `Start` is
  the synchronous start. `ServerSanity.Sane` holds in every run from the empty server
  (`ServerSanity.RunKeepsSane`). `CleanRun`, which only the history theorems need, excludes the two
  event-skipping steps above and the use of the public `emit_event` to publish lifecycle-typed events.
- `Idempotency.KeyCreatesOnce` asks that every step of the run satisfies `KeySafe`, which is stated on
  the state before the step and its inputs.
- `OperationCall.Bindable` is Python's rule for calls (section 6.3.4 of the language reference) and
  knows nothing of contracts; `OperationCall.Callable` is the check a caller can make on a signature.
- `SchemaUnions.Apart` says that members of a union take values of different kinds, except that
  members that take scalars only, such as `int` and `float`, may overlap.
- `EventRuns` assumes non-empty, distinct event ids within the stream's log, and a cursor that is
  unset or names an event of the log; an unknown cursor replays from the start. For the server's own
  events the first follows if none is about an activity called `*` (`ServerStreams.ServerLogsAreClean`).
- `ClientRuns.Scaled(n, x)` is `n * x` (`ClientRuns.ScaledIsProduct`), and `ClientRuns.LongestDelay`
  is `backoff_max * (1 + jitter_ratio)`.
- `Codec.Dated` pairs a record with its two timestamps; `KeyOrder.Iterates` says in which orders a
  set may be iterated.

## Model

| member | source | states |
|---|---|---|
| `GroupedStore.GroupedStore.Put` | src/fp/stores/base.py:69-79 | the store gains exactly the value under its key, and the group index stays exact: every group holds precisely the keys whose stored value is in it |
| `GroupedStore.GroupedStore.Remove` | src/fp/stores/base.py:135-142 | answers the removed value, drops exactly its key, and keeps the group index exact |
| `GroupedStore.GroupedStore.ByGroup` | src/fp/stores/base.py:110-113 | the members of a group in key order |
| `GroupedStore.PageKeys` | src/fp/stores/base.py:94-108 | scanning for the cursor and cutting `limit + 1` keys yields the first `limit` later keys, and a next cursor exactly if any key follows them |
| `GroupedStore.GroupedStore.ListPage` | src/fp/stores/base.py:90-108 | a page over all keys is the page the set of later keys defines; a non-positive limit is refused |
| `GroupedStore.GroupedStore.ByGroupPage` | src/fp/stores/base.py:115-133 | a page over a group, taken from the index, is the page the stored values define |
| `Paging.WalkIsSortedHits` | src/fp/stores/base.py:115-133 | following cursors over an unchanging store returns the sorted hits, each once; all pages but the last are full; (calls - 1) * limit never exceeds the number of hits |
| `Paging.DriftNeverRepeats` | src/fp/stores/base.py:90-133 | with any change to the store between calls, keys strictly increase over the whole walk, so none is returned twice |
| `Paging.DriftLosesNothing` | src/fp/stores/base.py:90-133 | a key that is a hit at every call of a finished walk is returned, even if cursor keys disappear |
| `SqliteTable.SqliteGroupedTable.Put` | src/fp/stores/sqlite.py:124-130 | `REPLACE` changes the decoded contents like the in-memory put |
| `SqliteTable.SqliteGroupedTable.ListPage` | src/fp/stores/sqlite.py:247-289 | `key > cursor ORDER BY key LIMIT limit + 1` returns the values and next cursor that the in-memory page returns for the same contents |
| `Activities.ActivityEngine.ListPage` | src/fp/runtime/activity_engine.py:128-162 | the filtered page is the first `limit` matching activities after the cursor, by their own fields; a next cursor is given exactly if the page is full and any activity of the scope follows |
| `Activities.RefillOnce` | src/fp/runtime/activity_engine.py:143-161 | one turn of the refill loop keeps what is collected the prefix of the matches, and either ends with the right page or moves the cursor on |
| `Activities.FilteredPage` | src/fp/runtime/activity_engine.py:143-162 | over the in-memory store and over the SQLite table alike the refill loop terminates and collects exactly the next matches |
| `Activities.PageShowsAnswers` | src/fp/runtime/activity_engine.py:149-158 | a page shows only activities whose own session, state and owner are those asked for, behind the cursor, and all of them if no cursor follows |
| `Activities.ListActivities` | src/fp/runtime/activity_engine.py:128-162 | the listing over either store: a non-positive limit is refused, any other page is the one the stored activities define |
| `Activities.CollectChunk` | src/fp/runtime/activity_engine.py:149-158 | the inner loop takes the due matches of one chunk in order and stops when the page is full |
| `Activities.ActivityEngine.ListSession` | src/fp/runtime/activity_engine.py:120-126 | listing a session is the filter of its key-sorted activities: an activity is listed exactly if its stored session, state and owner are those asked for |
| `ActivityWalk.WalkListsEveryHit` | src/fp/runtime/activity_engine.py:128-162 | for every store contents, filter and limit, the pages joined are the filter of the key-sorted activities; pages full except the last; calls bounded by the matches |
| `ActivityWalk.WalkAnswersTheQuery` | src/fp/runtime/activity_engine.py:128-162 | for every store contents, filter and limit, a walk returns an activity if and only if its stored session, state and owner are those asked for |
| `ActivityWalk.WalkSurvivesChanges` | src/fp/runtime/activity_engine.py:128-162 | with arbitrary changes between calls: nothing twice, only activities that matched when read, and every activity that matched throughout a finished walk |
| `Activities.ActivityEngine.Start` | src/fp/runtime/activity_engine.py:32-54 | a free id is stored as submitted with exactly the given fields if all four ids are usable; otherwise the store is unchanged |
| `Activities.ActivityEngine.Transition` | src/fp/runtime/activity_engine.py:62-84 | only table edges are taken; state, message and patched payload change and nothing else; a refusal changes nothing |
| `Activities.ActivityEngine.Complete` | src/fp/runtime/activity_engine.py:86-100 | completion from the four accepted states only, with exactly the given payload and reference |
| `Activities.ActivityEngine.Fail` | src/fp/runtime/activity_engine.py:102-108 | failing is unconditional for a stored activity and records message and details |
| `Activities.ActivityEngine.Cancel` | src/fp/runtime/activity_engine.py:110-118 | cancellation from any state that is not terminal, with its reason |
| `Activities.StatesAreEnteredFrom` | src/fp/runtime/activity_engine.py:9-25 | the state table by columns: from which states each state may be entered |
| `Events.SeparableKeysDiffer` | src/fp/runtime/event_engine.py:32-34 | stream keys of separable labels are equal only for the same session and label, whatever the session ids contain |
| `Events.KeysCollideUnlessSeparable` | src/fp/runtime/event_engine.py:32-34 | the condition is exact: two different labels never collide if and only if neither ends in a colon followed by the other |
| `EventStores.InMemoryEventStore.Append` | src/fp/stores/memory.py:137-141 | a stream list is extended; an empty batch creates nothing |
| `EventStores.InMemoryEventStore.ReplayFrom` | src/fp/stores/memory.py:143-155 | replay resumes behind the first event with the cursor id, or at the start for an unset or unknown cursor |
| `EventStores.SqliteEventStore.Append` | src/fp/stores/sqlite.py:312-319 | rows are added in order under increasing numbers |
| `EventStores.SqliteEventStore.ReplayFrom` | src/fp/stores/sqlite.py:321-342 | rows of the stream above the number of the last row with the cursor id, up to the limit |
| `EventStoreRefinement.SqlResumesAtLast` | src/fp/stores/sqlite.py:324-334 | the numbered table resumes a stream behind the last event with the cursor id |
| `EventStoreRefinement.SqliteRefinesMemory` | src/fp/stores/sqlite.py:312-342 | after any appends, the table answers every replay like the lists if and only if no stream holds one id twice |
| `EventEngine.BackpressureController.ConfigureStream` | src/fp/runtime/backpressure.py:20-28 | a non-positive window is refused; window and count are set only if new or given |
| `EventEngine.BackpressureController.OnDeliver` | src/fp/runtime/backpressure.py:30-41 | a delivery beyond the window is refused and changes nothing |
| `EventEngine.BackpressureController.OnAck` | src/fp/runtime/backpressure.py:43-46 | acks lower the count, never below zero |
| `EventEngine.EventEngine.Publish` | src/fp/runtime/event_engine.py:36-42 | the event is appended to its session log, and to its activity log if it has one |
| `EventEngine.EventEngine.Open` | src/fp/runtime/event_engine.py:44-66 | a stream starts at the given cursor with its window configured |
| `EventEngine.EventEngine.Read` | src/fp/runtime/event_engine.py:68-77 | events from the cursor, cursor moved to the last one; refused by the window before anything moves |
| `EventEngine.ReadTakesEffect` | src/fp/runtime/event_engine.py:68-77 | a read is refused exactly for its limit, an unknown stream or the window, and otherwise moves the cursor to the last event and counts what it hands out |
| `EventEngine.EventEngine.Resubscribe` | src/fp/runtime/event_engine.py:79-87 | only the cursor changes |
| `EventEngine.EventEngine.Ack` | src/fp/runtime/event_engine.py:89-92 | acked ids are remembered and counted, delivered or not |
| `EventRuns.ReadsAreContiguous` | src/fp/runtime/event_engine.py:68-77 | over any run without resubscription, a stream's batches join to one contiguous segment of its log: no gap, no duplicate |
| `EventRuns.ResubscribeReplaysTheRest` | src/fp/runtime/event_engine.py:79-87 | resubscribing behind an event replays exactly what follows it |
| `EventRuns.RunStaysBelowTop` | src/fp/runtime/event_engine.py:68-87 | the position never leaves the range from the start to the furthest delivery |
| `EventRuns.DeliveredPrefixIsUnbroken` | src/fp/runtime/event_engine.py:68-87 | if resubscriptions name delivered events only, the delivered positions are exactly an unbroken range from the start |
| `EventRuns.OpenedReadsFromTheStart` | src/fp/runtime/event_engine.py:44-77 | a stream opened without a cursor reads its log from the first event on, without gap or duplicate |
| `EventRuns.OpenedReadsBehind` | src/fp/runtime/event_engine.py:44-77 | a stream opened behind an event of its log receives what follows that event, and nothing before it, without gap or duplicate |
| `ServerStreams.ServerLogsAreClean` | src/fp/app/server.py:688-710 | after every server run all logs of its events have distinct, non-empty ids if and only if nothing was published about an activity called `*` |
| `ServerStreams.SubscriberMissesNothing` | src/fp/runtime/event_engine.py:36-77 | a subscriber of the server events, opened at any point of any engine run, misses nothing and sees nothing twice |
| `Backpressure.OutstandingIsPeakOfHistory` | src/fp/runtime/backpressure.py:30-46 | the count stays between 0 and the window and is the largest net of any suffix of the accepted deliveries and acks |
| `Backpressure.EveryStreamStaysWithinItsWindow` | src/fp/runtime/backpressure.py:20-46 | in every run of a new engine every open stream has a window and a count within it |
| `Backpressure.OpenedIsSteady` | src/fp/runtime/event_engine.py:44-66 | a stream opened in any run starts with nothing outstanding, on its log |
| `Backpressure.SteadyConsumerDrains` | src/fp/runtime/event_engine.py:68-92 | a consumer within the window that acks each batch is never refused and receives the first rounds * limit events |
| `Backpressure.BacklogNeedsCeilingRounds` | src/fp/runtime/event_engine.py:68-92 | its backlog is drained after a number of rounds if and only if rounds * limit covers it |
| `EventLogs.LogsHoldFiledEvents` | src/fp/runtime/event_engine.py:36-42 | whatever the ids, each log grows by exactly the copies published under its key |
| `EventLogs.LogsHoldSelectedEvents` | src/fp/runtime/event_engine.py:36-42 | a log is exactly the events of its session, or of its activity, in publication order and each once, if and only if none is misfiled under its key |
| `EventLogs.ActivityStreamIsPartOfSessionStream` | src/fp/runtime/event_engine.py:32-42 | an activity stream is the subsequence of its session stream about that activity if and only if no foreign event has a colliding key |
| `EventLogs.ColonFreeLogsAreExact` | src/fp/runtime/event_engine.py:32-42 | with activity ids that contain no colon and are not `*`, session and activity logs are exactly their events |
| `EventLogs.LogIdsStayUniqueIffNoWildcard` | src/fp/runtime/event_engine.py:36-42 | distinct published ids stay distinct in every log if and only if no event names the activity `*` |
| `Sessions.SessionEngine.CreateSession` | src/fp/runtime/session_engine.py:22-65 | refusals in order; otherwise an active session with default roles filled in |
| `Sessions.SessionEngine.JoinSession` | src/fp/runtime/session_engine.py:73-87 | joining needs an active session and leaves the joiner with a non-empty role set |
| `Sessions.SessionEngine.LeaveSession` | src/fp/runtime/session_engine.py:89-100 | participant and roles go together; refused once ended |
| `Sessions.SessionEngine.UpdateSession` | src/fp/runtime/session_engine.py:102-141 | all or nothing: a refused transition or an empty role set stores nothing |
| `Sessions.SessionEngine.CloseSession` | src/fp/runtime/session_engine.py:143-157 | closing is idempotent on a closed session and refused on a failed one |
| `Sessions.StatesAreEnteredFrom` | src/fp/runtime/session_engine.py:8-15 | the session state table by columns |
| `Sessions.SessionRuns` | src/fp/runtime/session_engine.py:22-157 | in every reachable store role keys equal participants with non-empty role sets, and an ended session keeps its record |
| `Idempotency.IdempotencyGuard.Check` | src/fp/runtime/idempotency.py:31-42 | a different fingerprint conflicts, an equal one or none at all is a hit |
| `Idempotency.IdempotencyGuard.Store` | src/fp/runtime/idempotency.py:44-46 | the entry of the key is set |
| `ServerSanity.RunKeepsSane` | src/fp/app/server.py:239-426 | in every run records sit under their own usable ids and every waiting start has a stored activity past submission |
| `Server.FPServer.EmitEvent` | src/fp/app/server.py:688-710 | a numbered event is published, or refused for a blank field |
| `Server.FPServer.CreateSession` | src/fp/app/server.py:239-264 | participants must be known; then the session is created and announced, or nothing is stored |
| `Server.FPServer.JoinSession` | src/fp/app/server.py:266-275 | the entity must be known; the engine joins it and the event names it as producer |
| `Server.FPServer.UpdateSession` | src/fp/app/server.py:277-302 | entities of the role patch must be known; the engine updates and the event follows |
| `Server.FPServer.LeaveSession` | src/fp/app/server.py:304-312 | the engine removes a participant, registered or not, and the event follows |
| `Server.FPServer.CloseSession` | src/fp/app/server.py:314-322 | the engine closes the session and the event follows |
| `Server.FPServer.ValidateParticipantsAndSession` | src/fp/app/activity_orchestrator.py:61-82 | entities, session, session state and participation are checked in this order |
| `Server.FPServer.RecordProvenance` | src/fp/app/server.py:609-627 | a record of another hook, or one made by a caller, is added to the log and nothing else changes |
| `Server.FPServer.EnforcePolicy` | src/fp/runtime/modules/governance_module.py:39-66 | the provenance record is written before a denial is raised |
| `Server.FPServer.CreateSubmittedActivity` | src/fp/app/activity_orchestrator.py:103-119 | the activity is stored as submitted and then announced |
| `Server.FPServer.ExecuteUntilHandler` | src/fp/app/activity_orchestrator.py:121-141 | without a handler to run the start settles; with one the activity is working and announced |
| `Server.FPServer.StartUntilHandler` | src/fp/app/activity_orchestrator.py:192-213 | all steps of a start up to the await of its handler |
| `Server.FPServer.ResumeAfterHandler` | src/fp/app/activity_orchestrator.py:300-340 | fail, keep working, or complete the activity as stored by then; cache the answer only if nothing was raised |
| `Server.FPServer.StartActivity` | src/fp/app/activity_orchestrator.py:34-59 | the synchronous start is the two halves in a row |
| `Server.FPServer.UpdateActivity` | src/fp/app/server.py:369-387 | transition, then the event of the new state |
| `Server.FPServer.CancelActivity` | src/fp/app/server.py:392-401 | cancel, then the canceled event |
| `Server.FPServer.CompleteActivity` | src/fp/app/server.py:403-426 | complete, then the completed event |
| `ServerEffects.RefusedForTheFirstFault` | src/fp/app/activity_orchestrator.py:61-101 | a start is refused for the first of its faults, each told by the stored fields: unknown names, the state of the session, participation, tokens, the budget hook, the key |
| `ServerEffects.FreshStartTakesEffect` | src/fp/app/activity_orchestrator.py:192-298 | a fresh start leaves exactly: one decision, the activity with the fields of the request, its events with types and producers, and an answer where no handler is to run |
| `ServerEffects.HandlerEndTakesEffect` | src/fp/app/activity_orchestrator.py:300-340 | every end of a handler, in any sane server: what is stored, announced and answered, or that nothing is |
| `ServerEffects.StartToAnswer` | src/fp/app/activity_orchestrator.py:34-59 | a synchronous start whose handler returns goes from the request to a completed activity, three events, one decision and one cached answer, and changes nothing else |
| `ServerEffects.SettledKeyIsReplayed` | src/fp/app/server.py:725-745 | once a start has settled under a key, an admissible request with the key changes nothing; it gets that activity if session, owner, initiator, operation and payload are equal, and a conflict otherwise |
| `ServerEffects.AnsweredKeyIsReplayed` | src/fp/runtime/idempotency.py:31-46 | the same for an answer stored when a handler ended |
| `ServerEffects.UpdateTakesEffect` | src/fp/app/server.py:369-387 | an update along the state table stores the patched record and then its event, under the given producer or else the server; any other changes nothing |
| `ServerEffects.CancelTakesEffect` | src/fp/app/server.py:392-401 | cancel stores the reason and announces it as the server, unless the activity is terminal |
| `ServerEffects.CompleteTakesEffect` | src/fp/app/server.py:403-426 | complete stores payload and reference and announces it |
| `ServerEffects.SessionCallTakesEffect` | src/fp/app/server.py:239-322 | a session call that names a stranger or is refused changes nothing; an accepted one stores the session and announces it under the name of whoever joins or leaves, else of the server |
| `LifecycleRuns.StepKeepsHistories` | src/fp/app/server.py:369-426 | one step, of any interleaving, keeps every activity's events in line with its state if and only if it does not store a state and then fail before the event |
| `LifecycleRuns.HistoriesHoldInEveryRun` | src/fp/app/activity_orchestrator.py:192-340 | over every such run each activity's lifecycle events start at submitted, follow the allowed edges and end in the stored state |
| `LifecycleRuns.TerminalChangesOnlyByLateFailure` | src/fp/runtime/activity_engine.py:102-108 | a terminal state changes if and only if the handler still running for the activity raises and it was not failed yet |
| `LifecycleRuns.TerminalIsAbsorbing` | src/fp/app/activity_orchestrator.py:121-182 | over any run a terminal state is kept if and only if it is failed already or no handler still running for the activity raises; without such a failure the whole record is kept |
| `LifecycleRuns.WithoutAwaitsNothingFailsLate` | src/fp/app/activity_orchestrator.py:121-182 | synchronous starts leave no handler behind that could raise late |
| `LifecycleRuns.CanceledActivityCanFail` | src/fp/app/activity_orchestrator.py:300-311 | with interleaving it does not: canceled while running, then failed |
| `ServerWitnesses.LateFailureHappens` | src/fp/runtime/activity_engine.py:102-108 | the late failure of a canceled activity happens in a run from the empty server |
| `ServerWitnesses.EventsAreSkipped` | src/fp/app/server.py:369-387 | a white-space producer and an unmeasurable result skip an event in runs from the empty server, and history and state then differ |
| `SessionLogs.SessionStreamSpellsHistory` | src/fp/app/server.py:688-710 | the stored session stream of an activity spells its history, whatever else is filed there, if and only if the activity is not called `*` |
| `SessionFreeze.EndedSessionStaysFrozen` | src/fp/app/activity_orchestrator.py:61-82 | once a session is closed or failed, its record and the set of its activities are frozen for the rest of any run, skipped and forged events included |
| `ProvenanceLog.LogIsTheDecisions` | src/fp/runtime/modules/governance_module.py:39-66 | over every run the provenance log grows by exactly the start decisions taken, allowed or denied, and the records of other hooks and callers, in their order |
| `ProvenanceLog.RefusedStartLeavesItsRecord` | src/fp/runtime/modules/governance_module.py:50-66 | a refused start leaves nothing behind but the record of its decision, if it came to one |
| `ProvenanceLog.EveryActivityWasApproved` | src/fp/app/activity_orchestrator.py:34-59 | in every run a session and an initiator never have more activities than records allowing them one |
| `Idempotency.AnsweredKeyReplays` | src/fp/app/activity_orchestrator.py:84-101 | an answered key repeats its activity if the five fields of the fingerprint are those of the request and refuses otherwise, and adds no activity, event or provenance |
| `Idempotency.StepKeepsOnce` | src/fp/app/activity_orchestrator.py:42-59 | a step keeps at most one activity per key, answered or waiting, if and only if it launches nothing while a start with the key waits and every handler end is answered |
| `Idempotency.KeyCreatesOnce` | src/fp/app/activity_orchestrator.py:34-59 | from the empty server, over every run of such steps, a key creates at most one activity and every successful start with it answers that activity |
| `ServerWitnesses.OvertakenStartIsRetried` | src/fp/app/activity_orchestrator.py:300-340 | a start overtaken by another caller raises and leaves no answer, and the repeated request launches a second activity |
| `ServerWitnesses.TwoActivitiesUnderOneKey` | src/fp/app/activity_orchestrator.py:34-59 | one key and two activities, in a run from the empty server |
| `SchemaAgreement.FaithfulAgrees` | src/fp/app/schema_introspection.py:143-234 | on faithful annotations the compiled schema accepts a value if and only if the matcher does |
| `SchemaUnions.AgreementIsExactness` | src/fp/app/schema_introspection.py:143-234 | for annotations whose proper unions, at any depth, have members of different kinds or flat ones, compiler and matcher agree on all values if and only if the condition holds |
| `SchemaUnions.OneMemberAnswers` | src/fp/app/schema_introspection.py:166-196 | in such a union one member alone answers for a value of a kind that no flat member takes, unless a literal in front raises |
| `SchemaUnions.FlatAgreeIffUnconfused` | src/fp/app/schema_introspection.py:166-217 | on scalars the members that take scalars only, overlapping or not, agree between schema and matcher unless a literal lists the equal scalar of the other type alone, as `1` for `True` |
| `SchemaAgreement.CrashFreeNeverCrashes` | src/fp/app/schema_introspection.py:186-234 | a sufficient condition under which the matcher never raises |
| `SchemaAgreement.NeverCrashesIffCrashFree` | src/fp/app/schema_introspection.py:186-234 | for annotations without proper unions the matcher never raises if and only if it holds |
| `SchemaAgreement.IntegralFloatParts` | src/fp/app/schema_introspection.py:215-218 | integral floats, and no other values, are integers for the schema only |
| `SchemaAgreement.LiteralInFrontRaises` | src/fp/app/schema_introspection.py:195-198 | a literal in front of any union makes the matcher raise on every list and object, while the schema accepts those any other member does |
| `SchemaAgreement.NoneBesideSeveralParts` | src/fp/app/schema_introspection.py:166-182 | `None` beside several members is compiled as an object: null matches, and the schema takes it if and only if another member does |
| `OperationContract.CompileParameters` | src/fp/app/schema_introspection.py:52-84 | every parameter becomes a property, those without default are required, nothing else is allowed; variadic signatures are refused |
| `OperationContract.BindArguments` | src/fp/app/schema_introspection.py:86-121 | the keyword arguments exist exactly if the payload is an object of known keys and every parameter binds; each is the value the payload has under its name, or the default if it has none |
| `OperationContract.SchemaAcceptsIffBound` | src/fp/app/schema_introspection.py:52-121 | for reliable annotations the compiled schema accepts a payload if and only if it can be bound |
| `OperationContract.SchemaIsExactIffAnnotationsAre` | src/fp/app/schema_introspection.py:52-121 | for parameters whose unions are apart the schema accepts exactly the payloads that can be bound if and only if every annotation is exact |
| `OperationCall.BuildContract` | src/fp/app/schema_introspection.py:31-84 | the context is set aside, a payload-style signature takes any object, any other is compiled; only variadic parameters of a typed signature are refused |
| `OperationCall.Invoke` | src/fp/app/schema_introspection.py:44-125 | the handler is reached exactly if the payload is bound, or taken whole, and the final call fits the signature; it is handed the payload itself, or the context by position and under every name the value of the payload, else the default |
| `OperationCall.CallSucceedsIffCallable` | src/fp/app/schema_introspection.py:44-125 | by the rules of calls, and whatever the payload, the final call succeeds if and only if the signature is callable, a check of kinds and defaults alone |
| `OperationCall.SchemaIsExactIffCallableAndExact` | src/fp/app/schema_introspection.py:31-125 | for every signature with unions apart the published schema accepts exactly the payloads that reach the handler if and only if the signature is callable and, unless the payload is taken whole, every annotation is exact |
| `OperationCall.SchemaIsExactIfReliable` | src/fp/app/schema_introspection.py:31-125 | for other unions callable signatures with faithful annotations publish such a schema as well |
| `OperationCall.PositionalOnlyParts` | src/fp/app/schema_introspection.py:123-125 | one positional-only integer: accepted by the schema, bound, and the call raises before the handler |
| `OperationCall.PayloadTakesContextsPlace` | src/fp/app/schema_introspection.py:44-48 | behind a context a payload-style handler is reached if and only if its payload has a default, and the payload then arrives as the context |
| `OperationCall.TypedCallDelivers` | src/fp/app/schema_introspection.py:123-125 | in a typed call of a callable signature the context arrives by position and every parameter gets the value bound to its name |
| `Directory.DirectoryService.VerifyServerCard` | src/fp/federation/card_signing.py:53-63 | a signed card verifies exactly if it is genuine: the one algorithm, a trusted key, a signature that holds |
| `DirectoryTrust.OnlyVouchedCardsAreShown` | src/fp/federation/directory_service.py:38-160 | after any run whatever a call answers is a card that passed the signature check as shown and has not expired; where signatures are demanded no heartbeat extends a card |
| `Directory.DirectoryService.PublishCard` | src/fp/federation/directory_service.py:38-47 | ACL, signature, expiry, then the upsert rule |
| `Directory.DirectoryService.ResolveCard` | src/fp/federation/directory_service.py:49-64 | an expired card is evicted and missing; ACL and health decide the rest |
| `Directory.DirectoryService.ListCards` | src/fp/federation/directory_service.py:66-75 | the listing shows exactly what resolves, and evicts exactly the expired |
| `Directory.DirectoryService.HeartbeatCard` | src/fp/federation/directory_service.py:77-119 | a replacement is published; an unsigned card is renewed, expired or not |
| `Directory.DirectoryService.ChangeHealth` | src/fp/federation/directory_service.py:121-127 | health is set on a known entry, expired or not |
| `Directory.DirectoryService.ReadHealth` | src/fp/federation/directory_service.py:129-140 | the stored health is answered for any known entry, expired or not |
| `DirectoryRefinement.StepAgreesIffNotDivergent` | src/fp/federation/directory_service.py:38-152 | one call leaves lazy and eager eviction agreeing, and reads alike, if and only if it is neither an insert blocked by an expired entry nor a heartbeat reviving one |
| `DirectoryRefinement.AnswersAlikeIffUnnoticed` | src/fp/federation/directory_service.py:38-152 | any call, the health query included, is answered alike if and only if it does not notice an expired entry |
| `DirectoryRefinement.LazyAnswersLikeEager` | src/fp/federation/directory_service.py:49-152 | over every run without such calls and with a monotone clock, `resolve` and `list` answer as if expired cards were purged at every step |
| `DirectoryRefinement.AllAnswersAlike` | src/fp/federation/directory_service.py:38-152 | over every run no call of which notices an expired entry, all answers, those of the health query included, are those of a purging directory |
| `DirectoryRefinement.ExpiredCardBlocksInsert` | src/fp/federation/directory_service.py:42-46 | an expired entry nobody has read blocks an insert |
| `DirectoryRefinement.ExpiredCardIsRevived` | src/fp/federation/directory_service.py:93-119 | a heartbeat revives an expired entry nobody has read |
| `Reliability.BaseIsMonotoneAndCapped` | src/fp/transport/reliability.py:33-39 | backoff bases do not decrease and never exceed the cap |
| `Reliability.BaseIsMultiplied` | src/fp/transport/reliability.py:33-37 | the first base is the initial delay, each further one the multiplier times the one before, up to the cap |
| `Reliability.DelayIsBounded` | src/fp/transport/reliability.py:40-42 | a jittered delay is non-negative, within the jitter of its base, and base and draw together unless that is negative |
| `Reliability.CircuitBreaker.BeforeCall` | src/fp/transport/reliability.py:63-76 | an open breaker refuses until the recovery time has passed |
| `Reliability.CircuitBreaker.RecordSuccess` | src/fp/transport/reliability.py:78-80 | a success closes and clears the breaker |
| `Reliability.CircuitBreaker.RecordFailure` | src/fp/transport/reliability.py:82-85 | a failure counts and, from the threshold on, (re)opens the breaker now |
| `Client.Post` | src/fp/transport/client_http_jsonrpc.py:41-60 | a kept-alive post sends once more after a broken connection |
| `Client.Transport.Call` | src/fp/transport/client_http_jsonrpc.py:133-232 | an admitted call ends at its first reply that is not retried or its last attempt, never falls out of the loop, and records exactly one outcome unless it escapes, and then none |
| `Client.CallReturnsItsAnswer` | src/fp/transport/client_http_jsonrpc.py:165-220 | a call returns a result if and only if its last request was answered with that result, nothing if and only if with an empty body, and fails in all other cases that do not escape |
| `Client.AttemptsFollowTrouble` | src/fp/transport/client_http_jsonrpc.py:139-242 | an attempt is followed by another if and only if its last request met a retryable status or error body, or an unreachable server, attempts are left, and the wait can be computed |
| `Client.OneOutcomeUnlessEscaped` | src/fp/transport/client_http_jsonrpc.py:133-270 | an admitted call records one outcome if and only if its parameters are JSON, its last request did not meet a fate without handler, and it was not to wait for longer than can be computed, and none otherwise |
| `Client.EveryEscapeHappens` | src/fp/transport/client_http_jsonrpc.py:201-263 | every such fate ends a call unrecorded |
| `Client.BackoffOverflowEscapes` | src/fp/transport/client_http_jsonrpc.py:234-242 | a call allowed more attempts than its backoff can count is lost unrecorded where every reply asks for a retry |
| `Client.DefaultBackoffOverflows` | src/fp/transport/reliability.py:33-37 | with multiplier 2 the backoff overflows from attempt 1025 on, whatever its cap |
| `Client.Transport.MaybeRetry` | src/fp/transport/client_http_jsonrpc.py:234-242 | a retry is made exactly of a retryable reply below the maximum number of attempts whose wait can be computed, after that wait |
| `Client.CallEndsOnce` | src/fp/transport/client_http_jsonrpc.py:139-220 | for every network there is exactly one attempt a call ends with |
| `ClientRuns.CallIsBounded` | src/fp/transport/client_http_jsonrpc.py:133-220 | between one and the maximum number of attempts, of at most two requests each |
| `ClientRuns.CallSleepsBoundedly` | src/fp/transport/client_http_jsonrpc.py:234-242 | total sleep of a call is at most (attempts allowed - 1) of the longest delays, and at least one shortest delay between any two attempts |
| `ClientRuns.BreakerTracksRuns` | src/fp/transport/reliability.py:78-85 | over every run the failure count is the trailing run of recorded failures, and the breaker is open exactly from the threshold, since the last failure |
| `ClientRuns.RecordsAccountForCalls` | src/fp/transport/client_http_jsonrpc.py:133-252 | over every run of calls on any networks the admitted calls are the records plus the escaped calls |
| `ClientRuns.NothingSentDuringRecovery` | src/fp/transport/reliability.py:63-76 | after any run, a call is sent if and only if the breaker is below its threshold or the recovery time since the last failure has passed |
| `JsonPointer.DecodeEscape` | scripts/validate_specs.py:85-86 | the two replacements in this order undo the escape of RFC 6901 for every key |
| `JsonPointer.ResolvePointer` | scripts/validate_specs.py:89-113 | the loop walks the tokens, with the code's errors |
| `JsonPointer.PointerFindsNode` | scripts/validate_specs.py:89-113 | the pointer of any existing path resolves to exactly the node at that path |
| `JsonPointer.FoundIffDenoted` | scripts/validate_specs.py:89-113 | a pointer resolves to a node if and only if its tokens, decoded, name a path of the document to that node |
| `JsonPointer.LostWhereTokensLeave` | scripts/validate_specs.py:98-113 | a lost pointer is lost at a node its first tokens name, with the error that fits this node and the next token |
| `JsonPointer.PointersAreDistinct` | scripts/validate_specs.py:89-113 | two existing paths never share a pointer |
| `KeyOrder.LessIsDictionaryOrder` | src/fp/stores/base.py:94-98 | the key order is that of a dictionary over code points |
| `KeyOrder.SortListIsSorted` | src/fp/stores/codec.py:243-244 | sorting a set gives one list whatever the order it is iterated in |
| `Codec.StringSetRoundTrip` | src/fp/stores/codec.py:243-244 | a set written as a sorted list, in whatever order it is iterated, is read back unchanged |
| `Codec.SessionRoundTrip` | src/fp/stores/codec.py:100-111 | a session, timestamps and metadata included, is read back unchanged if and only if it passes its own checks, and refused otherwise |
| `Codec.EmptiedSessionIsReached` | src/fp/runtime/session_engine.py:89-100 | a session without participants is reachable by two leaves |
| `Codec.EmptiedSessionIsLost` | src/fp/protocol/models.py:238-243 | a session without participants is stored but cannot be read back |
| `Codec.SessionTreeIgnoresOrder` | src/fp/stores/codec.py:243-244 | the tree does not depend on the order in which the sets of a session are iterated |
| `Codec.SessionTreeIsCanonical` | src/fp/stores/codec.py:234-247 | however their sets are iterated, two valid sessions have one tree if and only if they are equal |
| `Codec.MembershipTreeIsCanonical` | src/fp/stores/codec.py:234-247 | and so have two valid memberships |
| `Codec.MembershipRoundTrip` | src/fp/stores/codec.py:87-97 | memberships with nested delegations and timestamps are read back unchanged if and only if valid |
| `Codec.DelegationRoundTrip` | src/fp/stores/codec.py:217-231 | a delegation with its limits is read back unchanged if and only if valid |
| `Codec.ActivityRoundTrip` | src/fp/stores/codec.py:114-130 | activities, every field included, are read back unchanged if and only if their ids are usable |
| `Codec.EventRoundTrip` | src/fp/stores/codec.py:133-146 | events, every field included, are read back unchanged if and only if their identifying fields are usable |

## Left out

- Threads and locks: every engine call is one atomic step; a filtered page is one step although the code takes the store's lock once per chunk.
- Deep copies: stored values are immutable here, so aliasing between a caller's object and the store cannot occur.
- `list()` of the in-memory stores without a group: its insertion order is not modelled (pages are in key order).
- `SqliteTable.SqliteGroupedTable.ListPage`: one generic table stands for the activity, membership and key-value tables; the SQL text is modelled as filter, order and limit over the rows.
- EventStores.InMemoryEventStore.ReplayFrom: negative limits, which the engine refuses before the store is asked, are not modelled; the same holds for the SQLite store.
- EventEngine.EventEngine.Open: the generated stream id is a parameter required to be fresh; the per-stream record is a value replaced in the dictionary rather than an object mutated in place.
- `BackpressureController` and `EventEngine` constructors require the positive default window the code demands by raising.
- Push configurations of the event engine: a flat list of checks.
- Timestamps and trace ids in the engines: the codec covers them, but the engines that set them do not; metrics, decision ids and reasons of provenance records.
- Server.FPServer.EmitEvent: payload, policy reference and trace id of an event are not modelled, because no engine reads them.
- Generated ids: activity ids come with the request, event ids are a running number (distinct like the random ones).
- Server.FPServer.StartUntilHandler: token estimate, budget hook and policy answer are inputs of a start; token estimation and the policy engine are not part of this model.
- Server.FPServer.EnforcePolicy: the decision is an input, and the record keeps hook, subjects and outcome only; the same holds for `Server.FPServer.RecordProvenance`.
- Server.FPServer.ResumeAfterHandler: how the handler ends is an input, its result as it is after compaction; whether the token meter can encode it is the flag `measurable`.
- Server.FPServer.CompleteActivity: payload and reference are those after compaction, which is not part of this model.
- The idempotency fingerprint is the tuple of serialised fields, not its JSON text.
- `GovernanceModule.enforce`: the search of the payload for subject references, which a start never reaches since its session and actor are known.
- Re-entrant synchronous handlers: a handler that calls the server is covered by the interleaved form, not by `Start`.
- `normalize_activity_state`: states are given as states, not as strings with aliases.
- SchemaAgreement.FaithfulAgrees: sufficient only for unions in which two members, one of them a container or itself a union, take values of one kind, because such members can cover for each other's disagreement; for all other annotations `SchemaUnions.AgreementIsExactness` makes the condition exact. Integral floats are excluded; `SchemaAgreement.IntegralFloatParts` states what they do.
- OperationCall.SchemaIsExactIfReliable: sufficient only, for the same unions.
- Annotations that `get_type_hints` cannot resolve, which raise while the contract is built; the text of refusals.
- SchemaAgreement.CrashFreeNeverCrashes: sufficient only for proper unions, where a member can accept what would make a later one raise; for all other annotations `SchemaAgreement.NeverCrashesIffCrashFree` makes it exact.
- Literals list strings, integers, booleans and `None`; enum members and bytes are not modelled. Classes are those without JSON instances.
- Card signatures: verification is an abstract function of card and key; signing, canonical bytes and key formats are not part of this model.
- Directory.DirectoryService.ListCards: the listing is a map by entity id; its order, which depends on insertion, is not modelled. One instant is used per call.
- Client.Transport.Call: the breaker is always present, and the connection, TLS and HTTP are reduced to the fates of a request; redirects that the library's opener follows are not modelled, an answer is the last one. Settings are finite reals; infinite and undefined floats are not modelled.
- JsonPointer.ResolvePointer: the Unicode digit tables are a parameter; the limit of `int` on very long numerals is not modelled.
- Percent encoding of URI fragments in pointers.
- The codec is modelled on JSON trees with instants as integers; JSON text, ISO timestamps and `str()` coercion of non-string leaves are not, and neither are entities, organisations, receipts, settlements, disputes and provenance records, which add field lists only.
- HTTP server, JSON-RPC dispatch, adapters, registries, economy services, skill tooling and audit export: delegation, input and output, or flat field checks.
