# Verification model of the analytics server

A Dafny project that models the parts of the server in which several actors share state, or in
which a text or a table is transformed, and proves what they keep over every input, every run
and every interleaving. `dafny verify dfyconfig.toml` checks the whole project.

## What is modelled

**The ingest pipeline.** `Pipeline` is a step machine: any number of request handlers that
reserve slots on a shared counter and send on a bounded channel, one flusher, one dead-letter
drain, and the three-phase shutdown that becomes a second consumer of the channel. Each atomic
load or swap, channel operation, store call and flag write is one step, and every store call
may fail. `PipelineInvariant` proves one invariant step by step; `PipelineTheorems`,
`FatalFlag` and `PipelineWitnesses` draw the consequences, the exact conditions of the laws that
hold only sometimes, and the runs that show the limits; `FatalRecovery` proves that the fatal flag
clears within a bounded number of steps once the stores answer, `FatalGate` and `ClosePanics` decide
exactly when it can still clear, and when a handler can still send on the closed channel, once the
HTTP server is gone, `ShutdownTimeout` follows the two consumers of the closed channel, and
`PipelineEvents` reads every event the pipeline accounts for off the envelopes submitted. `IngestService` is the same service as an object with fields and loops; what its
stores and clock answer is a parameter, and `IngestStores` is the specification of what the answers
bring about. `PipelineRefinement` ties the two to the machine, `FailedEvents` is the dead-letter
table, `DeadLetterDrain` the progress of its drain, and `EventCodec` the event's JSON form.

**The identity surface.** `IdentitySurface` and `IdentityTheorems` model the incrementally
maintained ClickHouse tables under any split into insert blocks and any order of merges, the
three views over them, and the tenant filter on the physical tables. `IdentityAttribution` says of
the raw events alone whom each is attributed to.

**The query path.** `Scrubber` is the loop that blanks literals and comments against a
declarative lexer, `Quoting` the filter map and its reader, `TenantFilter` what a query reads under
that map, `Streaming` the guards, the run and its two sinks.

**Accounts.** `OAuthCodes` and `OAuthRaces` model authorization codes, `Membership` sign-ups and
invites, `Sessions` sliding sessions. Each has the service as an object whose methods are proved
against specification functions, and a machine over the same functions in which calls interleave.

Store answers, clocks, generated ids and secrets are arbitrary: in the machines a step may go either
way, and the methods take the answers as parameters and promise an exact result for each. Time
formatting, JSON text, hashing and value normalisation are parameters. Durations are in
nanoseconds, event timestamps in the identity surface in milliseconds.

## Where the code and its documentation differ

The model follows the code. These are the places where a comment promises something else.

- `docs/extending.md:100`, `internal/ingest/flusher.go:182-185` and
  `internal/ingest/dlq.go:107-108` say an event is counted exactly once, at its first
  successful insert. The drain meters after the row delete, so an event can land and never be
  counted (`LandedButNeverMetered`); the law holds exactly in the runs without a failed delete
  (`ExactlyOnceIffNoFailedDelete`).
- `internal/ingest/channel.go:36-38` says a full channel should not happen below the event
  ceiling. It can, exactly when EventBuffer > 100 and FlushEvents >= 2
  (`ChannelFullBelowCeilingIff`).
- `app/app.go:274-280` says no event is silently dropped by the shutdown. The context given to
  Start is the one whose cancellation begins the shutdown, so the flusher may stop with envelopes
  queued and Shutdown still return cleanly (`BacklogCanBeAbandoned`,
  `CleanReturnAbandonsBacklogIff`). Phase 2 gives up after its timeout, and a handler still in
  flight then can send on the closed channel (`ForcedStopCanPanic`, `CanPanicAtCloseIff`).
- `internal/ingest/flusher.go:75` says the next clean flush clears the fatal flag. While the flag
  is set no request is accepted, so after a double failure with nothing else queued or replayable
  there is no next flush (`OneDoubleFailureIsForever`, `FatalClearsIff`). With something left to
  flush or replay the flag does clear (`FlusherClearsFatal`, `DrainClearsFatal`).
- `internal/ingest/dlq.go:116-118` speaks of a final retry at the boundary. A row is quarantined
  when its count is 19, before a twentieth retry (`TriedIff`).
- `docs/api.md:326-331` says event_count is the total of the resolved identity's events, with the
  identity that events shows. The two differ for a user id that was itself linked as an
  anonymous id (`PersonsKeepAgreeingIff`).

## Model

| member | source | states |
|---|---|---|
| `PipelineTheorems.EveryAcceptedEventHasOneOwner` | `internal/ingest/flusher.go:45-95` | Conservation over every interleaving with every store call free to fail: the acknowledged events are, counted with repeats, exactly those in the channel, in the envelope or buffer in the flusher's hands, in the shutdown capture, in active rows, in quarantined rows, settled in ClickHouse, or lost. |
| `PipelineEvents.EveryAcknowledgedEventHasOneOwner` | `internal/ingest/flusher.go:45-95` | The same from the requests on: along every run the events of the envelopes acknowledged, read off the envelopes position by position, each under its project, are counted with repeats those of the envelopes still queued and those the flusher, the capture, the rows, ClickHouse and the losses account for. |
| `PipelineEvents.RunAcknowledges` | `internal/ingest/channel.go:39-60` | Along every run the ledger of acknowledged events grows by exactly the events of the envelopes whose send was accepted. |
| `PipelineEvents.ReceiveTakes` | `internal/ingest/flusher.go:46-58` | A receive takes the oldest envelope, and what the flusher then has in hand is that envelope's events, in order, under its project. |
| `PipelineEvents.CaptureTakes` | `internal/ingest/lifecycle.go:53-66` | The shutdown capture takes the oldest envelope and appends that envelope's events, in order, under its project. |
| `PipelineTheorems.LossNeedsTwoFailures` | `internal/ingest/flusher.go:85-94` | In any run the lost events grow only at a dead-letter write that fails directly after the insert of the same batch failed, by exactly that batch, or at a failed residual write, by exactly the residual. |
| `PipelineTheorems.MeteredAtMostOnceAndOnlyIfLanded` | `internal/ingest/dlq.go:93-109` | In every reachable state an event is metered at most as often as it settled and was accepted, and its copies in ClickHouse are at most its acceptances plus the copies left by failed row deletes. |
| `PipelineTheorems.ExactlyOnceIffNoFailedDelete` | `internal/ingest/flusher.go:182-197` | Between flushes and replays, what ClickHouse holds and what was metered are the same events, counted with repeats, if and only if no delete of a replayed row failed in the run; then no event landed more often than it was accepted. |
| `PipelineTheorems.PendingIsExact` | `internal/ingest/channel.go:39-67` | Always 0 <= pending <= EventBuffer, and pending counts exactly the reservations not yet sent plus the events in the channel, in hand, buffered, or captured. |
| `PipelineTheorems.RefusedSubmitReleases` | `internal/ingest/channel.go:53-59` | A submission refused by the full channel leaves channel and acknowledgements unchanged and gives back exactly its own reservation. |
| `PipelineTheorems.GracefulStopNeverPanics` | `app/app.go:295-310` | In every run whose HTTP shutdown was not forced, no handler ever sends on the closed channel, and all handlers are finished once it is closed. |
| `ClosePanics.NoSendOnClosedChannel` | `app/app.go:295-310` | From any reachable state after the HTTP stop, forced or not: if every handler is finished, the handlers never change again and none has sent or ever sends on the closed channel. |
| `ClosePanics.FinishedAtCloseNeverPanics` | `app/app.go:301-303` | Once the HTTP server is gone and all handlers are finished, no run moves any of them. |
| `ClosePanics.CanPanicAtCloseIff` | `internal/ingest/lifecycle.go:25-31` | In every reachable state just before the close, some continuation sends on the closed channel if and only if a handler is in flight whose batch fits under the event ceiling and which is past its fatal check or may still get past it, because the flag is down or something left in the service can clear it. |
| `ClosePanics.CanPanicIff` | `internal/ingest/channel.go:39-60` | At any later point too: if and only if a handler holds a reservation or has already sent, or has room beyond the slots that nothing will release any more and is past its fatal check or may still get past it. |
| `ClosePanics.ReleaseAll` | `internal/ingest/lifecycle.go:49-80` | With no reservation outstanding, flusher and shutdown can release every slot but the stuck ones (a queue nobody takes from any more, a residual whose write failed) without any handler moving. |
| `ClosePanics.ReservationPanics` | `internal/ingest/channel.go:53-59` | A handler that holds a reservation when the channel is closed, or about to be, can send on it after the close. |
| `ClosePanics.FlagFallsIff` | `internal/ingest/flusher.go:76-95` | At every point after the HTTP stop, with no handler able to reserve, some continuation clears the fatal flag if and only if it is down, or the flusher is landing a batch or will come by an event, or the drain is replaying or has or would list a replayable row, or, while the drain runs, flusher or capture may still write one. |
| `FatalGate.FallComesBack` | `internal/ingest/dlq.go:48-114` | No step of flusher, drain, shutdown, clock or a handler short of its send makes such a flag clearable again once nothing is left that can clear it. |
| `ClosePanics.FlagFalls` | `internal/ingest/flusher.go:76-84` | A flag that can clear can do so without any handler moving and without making more slots stuck. |
| `ClosePanics.ForcedStopCanPanic` | `app/app.go:299-305` | For every configuration with room for one event a reachable state has sent on the closed channel, by way of a forced HTTP stop. |
| `PipelineTheorems.CleanReturnLeavesNothing` | `internal/ingest/lifecycle.go:25-47` | In every reachable state in which Shutdown has returned before its deadline, Start's context is not cancelled and every request was answered, forced stop or not, channel, buffer, residual and pending are empty, and every acknowledged event is in a row, settled, or lost. |
| `PipelineTheorems.CleanReturnAbandonsBacklogIff` | `app/app.go:293-311` | From a quiet state with queued envelopes a graceful shutdown can return cleanly and leave envelopes behind if and only if Start's context is already cancelled. |
| `PipelineTheorems.DrainRunsUntilShutdown` | `internal/ingest/dlq.go:30-46` | The drain stops only after Start's context was cancelled or shutdown has begun. |
| `PipelineWitnesses.BacklogCanBeAbandoned` | `app/app.go:293-311` | For every configuration with room for one event a reachable state has an envelope queued after a graceful shutdown that returned cleanly. |
| `ShutdownTimeout.EachEnvelopeToExactlyOne` | `internal/ingest/lifecycle.go:36-64` | From any point after the close, the deadline included, along every run: the envelopes queued then leave in order, each to the flusher or to the capture and to exactly one of them, or are still queued; the capture's share is exactly what it adds to the residual, the flusher's exactly what it buffers or has in hand. |
| `PipelineInvariant.ReachableInv` | `internal/ingest/flusher.go:20-95` | The joint invariant (shapes of channel, flusher, table, drain, shutdown and handlers, slot accounting, conservation, metering) holds in every reachable state. |
| `PipelineInvariant.RunKeeps` | `internal/ingest/lifecycle.go:8-80` | Any run from a state that satisfies the invariant ends in one that does. |
| `PipelineInvariant.HandlerKeeps` | `internal/ingest/channel.go:39-60` | Every step of a request handler (the two flag checks, the load, the compare-and-swap, the send or rollback) keeps the invariant. |
| `PipelineInvariant.FlusherKeeps` | `internal/ingest/flusher.go:33-95` | Every step of the flusher (receive, append, each flush trigger, each outcome of each store call, the slot release) keeps the invariant. |
| `PipelineInvariant.DrainKeeps` | `internal/ingest/dlq.go:48-114` | Every step of the dead-letter drain, working from the rows it listed, keeps the invariant. |
| `PipelineInvariant.ShutdownKeeps` | `internal/ingest/lifecycle.go:25-80` | Every step of the shutdown, the second consumer of the channel included, keeps the invariant. |
| `PipelineWitnesses.ChannelFullBelowCeilingIff` | `internal/ingest/ingest.go:248-251` | Some run fills the channel while a submission that passed the event ceiling waits to send, if and only if EventBuffer > 100 and FlushEvents >= 2. |
| `PipelineWitnesses.OneDoubleFailureIsForever` | `internal/web/ingest_handlers.go:114-126` | For every configuration a reachable flush that fails both stores loses its batch and leads to a state whose every continuation is fatal. |
| `PipelineWitnesses.LandedButNeverMetered` | `internal/ingest/dlq.go:93-113` | For every n some reachable state has n copies in ClickHouse of an event accepted once, which a quarantined row still holds and which was never metered; in every continuation that accepts nothing new, metering stays empty. |
| `PipelineWitnesses.Submit` | `internal/ingest/channel.go:39-60` | From any open state below both limits there is a run that accepts a given envelope and changes nothing but the queue, pending, the handlers and the acknowledgements. |
| `PipelineRefinement.FlushIsARun` | `internal/ingest/flusher.go:76-95` | From mirrored stores, for whatever the stores answer, the machine's steps for those answers are a run, and it ends in stores that mirror what AttemptFlush leaves; the batch's slots are released in every case. |
| `PipelineRefinement.RowIsARun` | `internal/ingest/dlq.go:75-114` | From mirrored stores, for every row and whatever the stores answer, the machine's drain steps for those answers are a run to stores that mirror what ProcessDLQRow leaves, and the pass moves to its next row. |
| `PipelineRefinement.AppendIsAPush` | `internal/ingest/flusher.go:53-58` | The machine cuts a batch at an append exactly where the service's loop does: the whole buffer, when it is full. |
| `PipelineRefinement.CutsAreCuts` | `internal/ingest/flusher.go:59-70` | A tick and both stops cut what is buffered, if anything is, and only the stops end the loop. |
| `FatalFlag.FlagChanges` | `internal/ingest/flusher.go:76-95` | In any run the flag is set only directly after both stores failed on one batch, and cleared only by a flush or replay that landed. |
| `FatalFlag.StuckForever` | `internal/web/ingest_handlers.go:117-126` | Fatal with nothing queued, in hand, buffered or replayable and no handler past its check stays so along every run. |
| `FatalFlag.FatalClearsIff` | `internal/ingest/dlq.go:103-113` | A fatal pipeline at rest can clear the flag in some continuation if and only if an event is queued or buffered or some row is replayable; that it does clear is FatalRecovery. |
| `FatalRecovery.FlusherClearsFatal` | `internal/ingest/flusher.go:76-84` | With an event in hand, buffered or being inserted, every run in which no insert of the flusher fails, whatever else interleaves, clears the flag once the flusher has taken 2*(FlushEvents - buffered) + 4 steps at most. |
| `FatalRecovery.ReceivedEventClearsFatal` | `internal/ingest/flusher.go:46-58` | The same from the receive of a queued envelope on, in 2*FlushEvents + 3 flusher steps. |
| `FatalRecovery.DrainClearsFatal` | `internal/ingest/dlq.go:55-113` | With a replayable row that has k active rows before it, every run in which both stores answer the drain and the row does not age out clears the flag once the drain has taken a number of steps linear in k. |
| `IngestService.Service.constructor` | `internal/ingest/ingest.go:244-269` | A new service is empty, open, not fatal, disabled as configured, and has metered and reported nothing. |
| `IngestService.Service.Submit` | `internal/ingest/channel.go:39-60` | Without interference: accepted exactly when the batch is empty or fits both the ceiling and the channel; then the envelope is queued last and its events are reserved, otherwise nothing changes. |
| `IngestService.Service.PostIngest` | `internal/web/ingest_handlers.go:114-157` | Exact answers: 503 when disabled or fatal, a refused body, 200 with nothing queued when no event is sound, 202 when the sound events fit ceiling and channel, else 503. What is acknowledged is exactly what is queued: the sound events in order as one envelope of the project; accepted and rejected account for the body. |
| `IngestService.Service.InsertIntoClickHouse` | `internal/ingest/flusher.go:97-138` | The batch lands, whole, exactly when begin, prepare, every exec, close and commit are answered; otherwise none of it does. |
| `IngestService.Service.WriteDLQ` | `internal/ingest/flusher.go:140-154` | One new active row holds the whole batch with no attempts exactly when every timestamp can be printed and Postgres answers; a batch that cannot be marshalled makes no call. |
| `IngestService.Service.RecordUsage` | `internal/ingest/flusher.go:182-197` | The calls it makes name each project of the batch once and charge each project exactly the events it has in the batch; over the service's life every project's charges equal its metered events. |
| `IngestService.Service.Emit` | `internal/ingest/flusher.go:194-196` | In whatever order the counts are visited, the calls add up to the length of the batch, one per distinct project. |
| `IngestService.Service.CountByProject` | `internal/ingest/flusher.go:190-193` | The counts have exactly the projects of the batch as keys and count each project's items. |
| `IngestService.CountIsCardinality` | `internal/ingest/flusher.go:190-193` | The count of a project is the number of positions of the batch that hold an item of it. |
| `IngestService.Service.AttemptFlush` | `internal/ingest/flusher.go:73-95` | For every answer of the stores: the batch lands and clears the flag if ClickHouse took it, else becomes a row if Postgres did, else is lost and sets the flag; no store is asked more or less than that. |
| `IngestService.Service.RunFlusher` | `internal/ingest/flusher.go:24-71` | For every sequence of select signals and every store answer: the loop hears the signals up to the first stop; the batches attempted followed by the buffer are, position by position, the events of the envelopes received, each under its envelope's project; the stores are as after attempting exactly these batches, cut as Fed says, and pending falls by what was flushed. |
| `IngestService.Service.TakeEnvelope` | `internal/ingest/flusher.go:46-58` | Appending the events of an envelope one by one, with a flush at each full buffer, adds to batches and buffer together exactly the envelope's events in order, each under its project, and cuts them where the specification does. |
| `IngestService.Service.Flush` | `internal/ingest/flusher.go:34-43` | Cuts the buffer off as one batch, attempts exactly that batch and releases its slots; an empty buffer attempts nothing. |
| `IngestService.Service.ProcessDLQRow` | `internal/ingest/dlq.go:75-114` | For every row and every answer of clock and stores: a row past its budget, its age or its parser is quarantined without an insert; otherwise it is replayed, counted if that failed, deleted if it landed, and metered and the flag cleared only if the delete went through. |
| `IngestService.Service.DrainOnce` | `internal/ingest/dlq.go:48-73` | One pass is exactly: the list, then each listed row in order on what the stores answer it, then the count; a failed list does nothing else; the depth gauge is the number of active rows if both were answered. |
| `IngestService.Service.CaptureResidual` | `internal/ingest/lifecycle.go:49-80` | Takes as many envelopes as it has time for. The row it writes holds exactly their events, in order, each under its project, and their slots are released, when the row is written; otherwise they are lost and the error is reported; nothing taken is a success. |
| `IngestStores.AttemptConserves` | `internal/ingest/flusher.go:76-95` | Whatever the stores answer, a flush puts its batch in exactly one place: landed, a row, or lost. |
| `IngestStores.BatchesConserved` | `internal/ingest/flusher.go:34-43` | For any number of batches, what landed, what became rows and what was lost add up to them, counted with repeats. |
| `IngestStores.BatchesMetered` | `internal/ingest/flusher.go:182-197` | Flushes meter exactly what they land, in order. |
| `IngestStores.FedTidy` | `internal/ingest/flusher.go:44-70` | The batches followed by the buffer are, position by position, the events of the envelopes received, each under its project; each batch has 1 to FlushEvents items, and at most one batch per tick or stop has fewer; the buffer stays below FlushEvents and is empty after a tick or a stop. |
| `IngestStores.ReceivedIsAccountedFor` | `internal/ingest/flusher.go:24-95` | For every sequence of signals and every store answer, what landed, became rows, was lost or is still buffered adds up to the events of the envelopes received. |
| `IngestStores.PassIsARound` | `internal/ingest/dlq.go:48-73` | What a drain pass does to the table on any answers of the stores is a round of the starvation theorem, a healthy one if Postgres answered every statement of the pass. |
| `IngestStores.DrainIsARound` | `internal/ingest/dlq.go:48-56` | A whole pass with its list, on any answers, is such a round over the oldest active rows if the list was answered, and leaves the table alone if not. |
| `IngestStores.DrainMetersWhatItReleases` | `internal/ingest/dlq.go:96-109` | Whatever the stores answer, what a pass takes out of the table is exactly what it meters. |
| `IngestStores.TriedIff` | `internal/ingest/dlq.go:116-127` | ClickHouse is asked exactly about rows that failed at most 18 times, are younger than 24 hours and parse; any other row is set aside untried. |
| `IngestStores.AttemptSpec` | `internal/ingest/flusher.go:76-95` | ClickHouse decides; if it refuses, a row takes the batch when it can be printed and Postgres answers; if nothing does the batch is lost; rows, losses, metering, flag and calls follow. |
| `FailedEvents.DeleteSpec` | `internal/postgres/db/failed_events.sql.go:24-32` | Exactly the row with the id goes; keys stay ordered. |
| `FailedEvents.DeleteReleases` | `internal/postgres/db/failed_events.sql.go:24-32` | Deleting a row releases exactly that row's events from what the table holds. |
| `FailedEvents.UpdatesHold` | `internal/postgres/db/failed_events.sql.go:34-53` | Counting an attempt and quarantining release no event and keep the keys ordered. |
| `FailedEvents.OthersKept` | `internal/postgres/db/failed_events.sql.go:121-133` | A row of another id survives delete, increment and quarantine unchanged. |
| `FailedEvents.ActiveSpec` | `internal/postgres/db/failed_events.sql.go:82-89` | The drain's list ranges over exactly the rows that are not quarantined, oldest first. |
| `DeadLetterDrain.ProcessAllSpec` | `internal/ingest/dlq.go:54-56` | What is active after a healthy pass was active before, with one more attempt exactly if the pass took it up, and then still below the limit of 20. |
| `DeadLetterDrain.TakenIffSenior` | `internal/postgres/db/failed_events.sql.go:82-89` | A pass takes up an active row exactly when fewer than `limit` active rows are older. |
| `DeadLetterDrain.PlaySound` | `internal/ingest/dlq.go:116-127` | Passes and arrivals keep ids ordered and every attempt count at most 19. |
| `DeadLetterDrain.SeniorsAreGone` | `internal/ingest/dlq.go:48-127` | A row among the `limit` oldest is deleted or quarantined within 20 passes, whatever ClickHouse and the clock answer. |
| `DeadLetterDrain.NoRowStarves` | `internal/ingest/dlq.go:48-127` | With Postgres answering, an active row with r older active rows is no longer active after 20*(r/limit+1) passes, whatever ClickHouse and the clock answer and however many rows arrive behind it. |
| `EventCodec.EventReceiver.UnmarshalJSON` | `internal/ingest/ingest.go:97-157` | Filling the receiver key by key from the working map yields what the whole-object decoder yields, rejections with their field and the nil-map panic included. |
| `EventCodec.EventReceiver.ReadIdentities` | `internal/ingest/ingest.go:117-131` | Each identity field is read under its snake-case spelling if present, else camel-case, and only the spelling read is removed. |
| `EventCodec.EventReceiver.FoldRest` | `internal/ingest/ingest.go:132-157` | What is left becomes extras over an explicit extras object, strays winning; a non-object is rejected; a null with strays panics. |
| `EventCodec.TakeFirst` | `internal/ingest/ingest.go:159-167` | Returns and removes the first spelling present and nothing else. |
| `EventCodec.Fold` | `internal/ingest/ingest.go:148-150` | In whatever order the strays are visited the result is the seed overridden by all of them. |
| `EventCodec.ValidateBatch` | `internal/ingest/validator.go:29-49` | Accepted and rejected are those of the specification, and account for the batch. |
| `EventCodec.ValidationSpec` | `internal/ingest/validator.go:29-49` | The accepted events are, in order, exactly those with a name and a timestamp, each keeping name, ids, timestamp and the properties and extras it had, an empty object where it had none; the rejections name exactly the others, in order, by what they lack first. |
| `EventCodec.DecodedIsCanonical` | `internal/ingest/ingest.go:137-157` | Every decoded event, validated or not, has an extras object or null. |
| `EventCodec.RoundTrip` | `internal/ingest/ingest.go:93-97` | Decoding the encoding of any canonical event whose timestamp can be printed gives the event back, whatever keys its extras hold. |
| `EventCodec.RequestSurvivesReplay` | `internal/ingest/flusher.go:144-180` | From request to dead-letter row to replay nothing changes but the two defaults validation fills in; encoding fails only for a year that cannot be printed. |
| `EventCodec.KeysArePartitioned` | `internal/ingest/ingest.go:97-157` | Each top-level key lands in exactly one place. A first-class key feeds its own field: name, timestamp and properties under their names, each identity under the spelling read, snake case first, none if absent or null. A stray reaches extras with its own value, winning over a seed entry; extras holds nothing else. |
| `EventCodec.DecodeVerdict` | `internal/ingest/ingest.go:97-157` | The outcome for every value: the first field of the wrong kind, in reading order, is reported; null extras crash on a stray key; anything else that is an object is an event, null is the empty object, and no other value is. |
| `EventCodec.TimestampsRead` | `internal/ingest/ingest.go:169-189` | An integer timestamp of 64 bits reads as that many milliseconds since the epoch, text as it parses, null or nothing as the first instant of year 1. |
| `EventCodec.CrashesExactlyOnNullExtrasWithStrays` | `internal/ingest/ingest.go:141-150` | The decoder writes to a nil map exactly when extras is an explicit null, a stray key exists, and the object would be accepted without its strays. |
| `EventCodec.BatchEncodesIff` | `internal/ingest/flusher.go:144-148` | A batch can be stored exactly when every timestamp can be printed. |
| `EventCodec.BatchRoundTrip` | `internal/ingest/flusher.go:166-180` | A stored batch reads back as the same items with the same projects in the same order. |
| `IdentitySurface.SumPermuted` | `migrations/clickhouse/0002_identity_query_surface.up.sql:31-42` | The aggregate over any set of keys does not depend on the order of the rows. |
| `IdentitySurface.GroupByKeys` | `migrations/clickhouse/0002_identity_query_surface.up.sql:60-72` | GROUP BY yields exactly one row for each key of the block. |
| `IdentitySurface.SumGroupBy` | `migrations/clickhouse/0002_identity_query_surface.up.sql:60-72` | Grouping a block changes no aggregate over any set of keys. |
| `IdentitySurface.SumMergeRows` | `migrations/clickhouse/0002_identity_query_surface.up.sql:19-29` | A background merge of two rows of one key changes no aggregate over any set of keys. |
| `IdentitySurface.Earliest` | `migrations/clickhouse/0002_identity_query_surface.up.sql:101-108` | argMin picks a link of the id with the smallest linked_at, and none exactly when there is no link. |
| `IdentitySurface.LinkedUserPermuted` | `migrations/clickhouse/0002_identity_query_surface.up.sql:101-108` | With unambiguous links the identity map depends on which links the project has, not on their order. |
| `IdentitySurface.FirstLinkWins` | `migrations/clickhouse/0002_identity_query_surface.up.sql:44-58` | Among links, one made later than the earliest of its id changes nothing the identity map says. |
| `IdentityTheorems.ReachableIndexed` | `migrations/clickhouse/0002_identity_query_surface.up.sql:44-88` | After every history of insert blocks and merges the state tables sum, over any set of keys, to what the raw events sum to, and the links are those of the raw events. |
| `IdentityTheorems.SplitAndMergeOrderDoNotMatter` | `migrations/clickhouse/0002_identity_query_surface.up.sql:60-88` | Two histories of the same raw events give the same aggregates and the same links. |
| `IdentityAttribution.LinkedByFirst` | `migrations/clickhouse/0002_identity_query_surface.up.sql:44-58` | In every reachable store an anonymous id is linked to the user of the earliest $identify that names both, and to nobody if there is none. |
| `IdentityAttribution.EventsAreAttributed` | `migrations/clickhouse/0002_identity_query_surface.up.sql:90-110` | Every raw event is one row of the events view with its own columns; its distinct_id is its user id, else the user its anonymous id was first named with, else the anonymous id, else none. |
| `IdentityAttribution.PersonsCountRaws` | `migrations/clickhouse/0002_identity_query_surface.up.sql:112-132` | Unless two first $identify events of one id tie, the persons view counts under each distinct_id exactly the raw events whose own id was first named with it, or is it and was never named. |
| `IdentityAttribution.LaterIdentifyChangesNothing` | `migrations/clickhouse/0002_identity_query_surface.up.sql:101-108` | A further block of later $identify events of an id changes neither the rows of that id in the events view nor the person its events count for, past events included. |
| `IdentityTheorems.SameAttributionIff` | `migrations/clickhouse/0002_identity_query_surface.up.sql:90-115` | persons and events attribute an event to the same distinct_id if and only if its user id, as an anonymous id, is not linked to someone else. |
| `IdentityTheorems.PersonsMatchEvents` | `migrations/clickhouse/0002_identity_query_surface.up.sql:112-132` | If no user id of the project is linked away, the persons row of each distinct_id has the count, first and last timestamp and session set of that id's rows in the events view, and exists exactly when there are such rows. |
| `IdentityTheorems.PersonsKeepAgreeingIff` | `migrations/clickhouse/0002_identity_query_surface.up.sql:112-132` | The two views agree now and after every further batch of ordinary events of a set of users if and only if none of those users is linked away. |
| `IdentityTheorems.PersonsCanDisagree` | `migrations/clickhouse/0002_identity_query_surface.up.sql:44-132` | For any two distinct ids a history of at most two events makes the views disagree. |
| `IdentityTheorems.SessionsMatchEvents` | `migrations/clickhouse/0002_identity_query_surface.up.sql:134-166` | A session's start, end and count equal the plain aggregates over the events view, it exists exactly when it has events, and its duration is the time between the two rows that are furthest apart. |
| `IdentityTheorems.FilterCommutesWithEvents` | `internal/query/query.go:117-128` | Reading the events view over filtered physical tables is filtering the view, row for row. |
| `IdentityTheorems.FilterCommutesWithPersons` | `internal/query/query.go:238-245` | The filtered persons view has exactly the tenant's rows of the unfiltered one. |
| `IdentityTheorems.FilterCommutesWithSessions` | `internal/query/query.go:238-245` | The filtered sessions view has exactly the tenant's rows of the unfiltered one. |
| `IdentityTheorems.PersonsSeeOwnRowsOnly` | `internal/query/query.go:117-128` | Non-interference: two histories with the same raw rows of a project give its filtered persons queries the same answers, whatever other tenants, blocks and merges did. |
| `IdentityTheorems.SessionsSeeOwnRowsOnly` | `internal/query/query.go:117-128` | The same for sessions. |
| `IdentityTheorems.EventsSeeOwnRowsOnly` | `internal/query/query.go:117-128` | The same for the rows of the events view. |
| `TenantFilter.FilterNamesIsolate` | `internal/query/query.go:117-128` | For every database and project id, reading each table or materialized view of the migrations through the map the executor prints, parsed back, is reading the project's rows of it. |
| `TenantFilter.QueriesSeeOwnProject` | `internal/query/query.go:229-236` | Under an isolating map the events, persons and sessions views show exactly what they have for the project, and every row shown is the project's. |
| `Scrubber.LexSpec` | `internal/query/query.go:361-366` | Every text has a well-formed reading as plain bytes, literals and comments. |
| `Scrubber.LexOfText` | `internal/query/query.go:361-366` | The well-formed reading of a text is unique. |
| `Scrubber.TokensInBytes` | `internal/query/query.go:361-417` | Every token of a text in bytes: a plain byte is none of the three quotes and opens no comment; a literal holds its quote only doubled or behind a backslash and ends with it; a line comment ends before the newline; a block comment at the first star and slash from its second byte on; what is open runs to the end. |
| `Scrubber.MaskLiteralsAndComments` | `internal/query/query.go:367-417` | The nested loops compute, for every input, the text with each byte kept that is plain in that reading and a space for every other byte. |
| `Scrubber.MaskLiteral` | `internal/query/query.go:373-395` | The inner loop stops at the end of the literal the reading has there, backslash and doubled-quote escapes included. |
| `Scrubber.MaskLineComment` | `internal/query/query.go:396-400` | A line comment is blanked up to its newline. |
| `Scrubber.MaskBlockComment` | `internal/query/query.go:401-410` | A block comment is blanked through the first closer at offset one or later, or to the end of input. |
| `Scrubber.MaskedKeepsPositions` | `internal/query/query.go:361-366` | For any token of a text, scrubbing keeps the length and keeps the token's byte if it is plain and blanks all of it otherwise. |
| `Scrubber.MaskedIsClean` | `internal/query/query.go:361-366` | The result has the same length and holds no quote, no `--` and no block-comment opener. |
| `Scrubber.MaskedTwice` | `internal/query/query.go:367-417` | Scrubbing is idempotent. |
| `Scrubber.VerdictAround` | `internal/query/query.go:353-359` | Around any literal or comment the SETTINGS verdict is the verdict on what precedes it or on what follows it. |
| `Scrubber.VerdictIgnoresBodies` | `internal/query/query.go:353-359` | Replacing the body of any closed literal or comment by any other well-formed body leaves the verdict unchanged. |
| `Scrubber.RefusedIff` | `internal/query/query.go:353-359` | A query is refused exactly when its text with literals and comments blanked has the keyword as a word of its own, letter by letter in either case, or U+017F for an s. |
| `Scrubber.SettingsIsRefused` | `internal/query/query.go:353-359` | Eight bytes outside literals and comments that spell it in any mix of cases, with no word character beside them, are refused. |
| `Quoting.AdditionalTableFilters` | `internal/query/query.go:238-245` | For every list of names the loop prints the filter map. |
| `Quoting.QuotedReadsBack` | `internal/query/query.go:419-425` | A quote-doubling reader recovers every string from its quoted form. |
| `Quoting.FilterMapReadsBack` | `internal/query/query.go:238-245` | For every project id and list of tables the printed map reads back as exactly those tables in order, each with a predicate that compares project_id for equality with exactly that project id. |
| `Quoting.PredicateReadsBack` | `internal/query/query.go:238-240` | The predicate reads back as the comparison of project_id for equality with exactly the project id. |
| `Quoting.QualifiedNameReadsBack` | `internal/query/query.go:111-116` | A qualified table name reads back as its database and table. |
| `Quoting.QuoteStringIsOneLiteralIff` | `internal/query/query.go:423-425` | Placed at top level and not followed by a quote, quoteString(s) is exactly one closed literal to the scrubber if and only if every backslash of s, read from the left, takes with it a byte that is no quote. |
| `Quoting.NoBackslashIsSettled` | `internal/query/query.go:423-425` | A string without backslashes meets that condition. |
| `Quoting.BackslashIsNotOneLiteral` | `internal/query/query.go:423-425` | A single backslash does not. |
| `Streaming.OneMoreRow` | `internal/query/query.go:268-281` | Streaming one more row appends a comma, unless it is the first, and the row. |
| `Streaming.EarlyStopIsPrefix` | `internal/query/query.go:258-290` | What has been written after any number of rows is a prefix of the whole envelope. |
| `Streaming.EnvelopeReadsBack` | `internal/query/query.go:142-150` | The whole envelope reads back, by any JSON reader that stops behind a value, as an object of the columns, the rows one by one in order, and the statistics. |
| `Streaming.JsonSink.Begin` | `internal/query/query.go:258-266` | Succeeds exactly when the columns can be marshalled and the write is taken; then the stream is that of no rows; in any case only a part of it was added. |
| `Streaming.JsonSink.Row` | `internal/query/query.go:268-281` | Succeeds exactly when the row can be marshalled and its writes are taken; then the stream is that of one more row; otherwise what was written is a prefix of it. |
| `Streaming.JsonSink.End` | `internal/query/query.go:283-290` | Succeeds exactly when the statistics can be marshalled and the write is taken; then the whole envelope has been written; otherwise a prefix of it. |
| `Streaming.CollectSink.Row` | `internal/query/query.go:303-310` | Refuses a row exactly when maxRows > 0 and it already holds maxRows. |
| `Streaming.Executor.constructor` | `internal/query/query.go:107-133` | For every project id the filter map this executor will send isolates that project in its database (analytics when the name is blank): read through the map, each physical table shows the project's rows and no other. |
| `Streaming.Executor.Query` | `internal/query/query.go:162-191` | A blank text, then a text with a SETTINGS clause, is refused and never reaches the database; any other is asked once, as given, under a map that isolates the caller's project; columns come back by name with their types, missing types empty. |
| `Streaming.Executor.StreamJSON` | `internal/query/query.go:148-150` | Succeeds exactly when the guards let the query through, the cursor delivers every row, everything can be marshalled and every write is taken; then the writer holds exactly the one-shot envelope and the row statistic is the number of rows. Any error leaves a prefix of the envelope, and nothing at all if a guard or the database refused. |
| `Streaming.Executor.StreamRows` | `internal/query/query.go:192-221` | Succeeds exactly when every row is scanned and marshalled and every write is taken; then the stream is that of all rows; otherwise a prefix of the envelope and an error. |
| `Streaming.Executor.CollectRows` | `internal/query/query.go:202-218` | Keeps every row in its normal form, until one cannot be scanned or is one more than maxRows allows. |
| `Streaming.Executor.Collect` | `internal/query/query.go:152-160` | Returns all rows, cell by cell in their normal form, and their number, or the row-limit error exactly when the cursor delivers more than a positive maxRows, or the first other failure. |
| `OAuthCodes.Service.IssueCode` | `internal/oauth/codes.go:46-80` | Succeeds exactly for the S256 method with a challenge when secret and insert are answered; the one new row has, column by column, the code's hash, the grant with scope api if it names none, redirect, challenge and expiry as asked; a failure stores nothing. |
| `OAuthCodes.Service.GetActiveOAuthCodeByHash` | `internal/postgres/db/oauth_codes.sql.go:32-64` | Returns an unused, unexpired row of the hash, or reports none exactly when there is none. |
| `OAuthCodes.Service.MarkOAuthCodeUsed` | `internal/postgres/db/oauth_codes.sql.go:117-134` | Affects the row exactly when it is there and unused, stamps it used now, and changes no other. |
| `OAuthCodes.SweepIsInvisible` | `internal/postgres/db/oauth_codes.sql.go:14-24` | The sweep of expired rows changes the answer of no later lookup. |
| `OAuthCodes.Service.ConsumeCode` | `internal/oauth/codes.go:101-140` | Uninterrupted: succeeds exactly when both statements are answered and an unused, unexpired row of the code names the client and the redirect and has the digest of the presented verifier as its challenge; it then yields that row's grant and stamps that row used. invalid_grant means exactly that no such row exists; every refusal leaves every row unchanged. |
| `OAuthCodes.Service.IssueAccessToken` | `internal/oauth/tokens.go:49-74` | Stores one token with the grant and its default scope, or nothing. |
| `OAuthCodes.Service.PostOAuthToken` | `internal/web/oauth_handlers.go:244-311` | A token is stored exactly when the request is a code exchange by a client, every call is answered and a row matches, the digest of the verifier included; it carries that row's grant. Once the code is burnt it stays burnt even if the token cannot be stored. |
| `OAuthRaces.ReachableInv` | `internal/oauth/codes.go:91-140` | The invariant tying rows, claims, winners and tokens holds in every reachable state of any number of interleaved requests. |
| `OAuthRaces.ConsumedAtMostOnce` | `internal/oauth/codes.go:97-133` | In every interleaving at most one request consumes a code row, and no two requests that presented the same code both do (section 4.1.2 of RFC 6749). |
| `OAuthRaces.TokenIsEarned` | `internal/web/oauth_handlers.go:266-291` | Every token carries the grant issued with its code and belongs to a request that presented that code, its client, its redirect and a verifier whose digest is its challenge (section 4.6 of RFC 7636) and found it unused and unexpired; no two tokens share a code. |
| `OAuthRaces.UsedIffConsumed` | `internal/oauth/codes.go:91-95` | In every reachable state a row is used if and only if some request consumed it; refused requests burnt nothing. |
| `OAuthRaces.StepsThatSpareRows` | `internal/postgres/db/oauth_codes.sql.go:117-122` | The only step that changes an unexpired row is the winning update of a request that claims it. |
| `OAuthRaces.ConsumedAfterExpiry` | `internal/oauth/codes.go:107-125` | For every issued code some reachable run consumes it at its expiry or any time after: expiry binds the lookup only. |
| `OAuthRaces.CanConsumeIff` | `internal/oauth/codes.go:107-133` | A request past its checks can still consume its code after any given further delay if and only if the row is there and unused now. |
| `OAuthRaces.SpentStaysSpent` | `internal/postgres/db/oauth_codes.sql.go:117-122` | A request whose row is used or swept can only be refused, along every run. |
| `OAuthRaces.CodeLostWithoutToken` | `internal/web/oauth_handlers.go:286-296` | For every issued code some reachable state has the code used and no token. |
| `OAuthRaces.TokenIffAnswered` | `internal/web/oauth_handlers.go:286-296` | A consumed code has a token if and only if the request that consumed it was answered; either way the code cannot be used again. |
| `Membership.ActiveInvite` | `internal/postgres/db/team_invites.sql.go:14-22` | Finds an invite of the hash that is unconsumed and unexpired, or none exactly when there is none. |
| `Membership.AuthService.Signup` | `internal/auth/service.go:120-175` | Appends exactly one user with the email, one team founded by that user and the membership of the one in the other, exactly when the form is valid, every call goes through and the email is free, or changes nothing; the taken-email error is exact. |
| `Membership.AuthService.ConsumeInvite` | `internal/auth/service.go:413-452` | Succeeds exactly when every call goes through and an unconsumed, unexpired invite has the hash of the token; then that invite and no other is consumed, and its team gains the user and nobody else. Without such an invite the answer is the invalid-invite error; any error changes nothing. |
| `Membership.AuthService.SignupWithInvite` | `internal/auth/service.go:470-553` | Signs up and joins by an invite of the token's hash exactly when token and form are valid, every call goes through, the email is free and there is such an invite; otherwise users, teams, memberships and invites are exactly as they were, whichever statement failed; each error is exact. |
| `Membership.AuthService.CreateInvite` | `internal/auth/viewer.go:278-297` | Appends one invite of team and viewer with the secret's hash, valid seven days, exactly when secret and insert are answered and the viewer is a member of the team; otherwise nothing changes. |
| `Membership.AuthService.CreateUserAndTeam` | `internal/auth/service.go:142-168` | The three inserts of a sign-up on the transaction's copy. |
| `Membership.AuthService.BurnAndJoin` | `internal/auth/service.go:423-446` | Burn, conflict-tolerant membership and team fetch on the transaction's copy. |
| `Membership.RunKeeps` | `internal/auth/service.go:399-412` | Along every run memberships stay explained, and invites change only by being consumed. |
| `Membership.EveryMemberWasInvited` | `internal/postgres/db/team_invites.sql.go:47-56` | In every reachable state each member is its team's founder or is reached from the founder by a finite chain of consumed, pairwise distinct invites, each made by someone who had joined before its consumer did. |
| `Membership.ConsumedOnce` | `internal/postgres/db/team_invites.sql.go:14-22` | Along every run a consumed invite keeps its consumer, and every invite its team, creator and expiry. |
| `Membership.OwnInvites` | `internal/auth/service.go:399-412` | Two members who were brought in by invites were brought in by different invites. |
| `Membership.SpentInviteIsUseless` | `internal/postgres/db/team_invites.sql.go:14-22` | No step changes an invite that is consumed, expired, or of another hash than the one presented. |
| `Membership.JoiningNeedsTheSecret` | `internal/auth/service.go:413-452` | Every step that joins a team consumes an unconsumed, unexpired invite of the hash presented, and admits its user and nobody else. |
| `Sessions.ComputeExpiry` | `internal/auth/service.go:292-300` | Never past either bound, and equal to one of them. |
| `Sessions.Service.CreateSession` | `internal/auth/service.go:195-230` | The new row expires at the computed expiry from the clock the service read, and is stamped by the database; an error after the insert leaves the row behind. |
| `Sessions.Service.LookupSession` | `internal/auth/service.go:232-258` | A session is returned exactly as stored and only while live; an expired one is reported as such and at most itself deleted. |
| `Sessions.Service.TouchSession` | `internal/auth/service.go:260-281` | The expiry is raised to the earlier of window and lifetime bound, in the row if it still exists and in the snapshot, when that is later than the snapshot and the write is answered; otherwise nothing changes; other rows never do. |
| `Sessions.LifetimeIsCapped` | `internal/auth/service.go:260-268` | However requests interleave, expires_at <= created_at + MaxLifetime, so every lookup at or after that instant fails. |
| `Sessions.RowsKeepIdentity` | `internal/postgres/db/sessions.sql.go:116-130` | Along every run a row keeps owner and creation time, and a deleted row is never revived by a touch. |
| `Sessions.LiveSessionsStay` | `internal/postgres/db/sessions.sql.go:116-130` | An unexpired session leaves the table only when it is destroyed, only its own touches change it, and the sweep removes exactly the expired ones. |
| `Sessions.TouchShortensIff` | `internal/auth/service.go:263-281` | In every reachable state a touch shortens its session if and only if an earlier-written touch of it read a later clock and this touch's window ends before the maximum lifetime does. |
| `Sessions.SerialisedNeverShortens` | `internal/auth/service.go:263-281` | Along every run in which each touch writes from a current snapshot, no session's expiry ever falls. |
| `Sessions.StaleTouchCanShorten` | `internal/auth/service.go:263-281` | With two interleaved requests a session can be shortened. |

## Left out

- Byte-level JSON, JSONB normalisation and time formatting: the codec works on JSON values and on a pair of show and parse functions with the law that what is shown parses back.
- EventCodec.DecodeItem: yields None both for a payload that does not parse and for one on which the event decoder would panic, because the program writes neither; case-insensitive matching of the two wire field names is not modelled.
- EventCodec.EventReceiver.UnmarshalJSON: starts from an empty receiver, the only way the decoder is used, and assumes no duplicate keys in one object.
- IngestService.Service.Submit: runs without interference; the compare-and-swap loop under contention is the machine's Load and Swap steps.
- IngestService.Service.RunFlusher: takes the signals its select receives as a sequence; their arbitrary arrival is the machine's.
- A request that arrives once the service is disabled is refused at its first check and takes no step in the machine; the switch is not turned back.
- The exit of App.Run when the listener fails: Close then calls Shutdown without the first two phases, while open connections may still be served.
- PipelineWitnesses.OneDoubleFailureIsForever: exhibits one such run per configuration; FatalFlag.FatalClearsIff is the statement about all states at rest.
- FatalRecovery: counts steps of the flusher and of the drain; that the scheduler and the tickers go on giving them steps is not modelled.
- IngestStores: a stored payload is the batch itself, which is what reading it back yields (EventCodec.BatchRoundTrip).
- Failure of the counting query in a drain pass and every log line have no effect on anything modelled.
- ClickHouse inserts are atomic and ClickHouse does not deduplicate blocks; a batch whose commit succeeded but reported an error is not modelled.
- The dead-letter table's created_at values are distinct and increase with insertion.
- Timezone and session-identity columns, whose any and anyLast are order-dependent, and therefore the distinct_id of the sessions view.
- IdentitySurface.LinkedUserPermuted: assumes that two links of one anonymous id made in the same millisecond name the same user, because argMin may return either; so do IdentityTheorems.PersonsSeeOwnRowsOnly and IdentityTheorems.EventsSeeOwnRowsOnly.
- The approximate counting of uniq is an exact set; partition boundaries only restrict which merges happen.
- IdentityTheorems.PersonsKeepAgreeingIff: the exact condition is about all further batches of a set of users; on one fixed history the aggregates may agree by coincidence even though some event is attributed differently.
- Scrubber.KeywordAt: models the one regular expression used, on bytes; the general regular-expression engine is not part of this model.
- Quoting: what ClickHouse itself does with backslashes inside the printed filter map is not part of this model.
- Streaming.EnvelopeReadsBack: the JSON reader is a parameter that takes back any marshalled text in front of a comma or a closing bracket; the grammar of JSON values is not modelled.
- TenantFilter: a materialized view read by name is read as the table it writes to, and that ClickHouse applies a table's filter inside views is its own behaviour; system tables are not part of this model.
- Streaming.Executor.StreamJSON: which error a failing writer or marshaller reports is one value, SinkFailed; elapsed time is arbitrary.
- Trimming of blank queries is a parameter, and so is the normal form of scanned values.
- OAuth clients, consent, redirect checks, token lookup and revocation: plumbing, or settled by reading one function.
- OAuthRaces: application and database share one clock, and cascading deletes of users, clients and projects are not modelled.
- Membership: email normalisation and validation, password hashing, project creation and operator scripts; nothing in the program deletes a membership or a team.
- Membership.AuthService.SignupWithInvite: a transaction is one atomic step, so isolation between two open transactions is the database's.
- Sessions: users, CSRF tokens and cookies.
- HTTP routing, CORS, gzip, templates, MCP, configuration and migrations: plumbing.
