# Event platform: outbox, inbox and dead-letter protocol in Dafny

This project models the parts of the event platform that have to be right on any number of nodes at once,
and proves what they keep:

- the ten Cassandra tables of the event store and the operations on them,
- the protocol that HTTP publishers, relay workers, cleanup loops, admin replays and stream consumers run over
  those tables and the message bus,
- the circuit breaker and the publish retry loop, the bounded table of client addresses, the persisted backoff,
  and the rule tables of the configuration.

`dafny verify dfyconfig.toml` checks everything.

## How it is built

| module | content |
|---|---|
| `Schema`, `Statements`, `Ordering`, `Collections` | rows and tables; one function per CQL statement or logged batch; clustering order; facts about sets and sequences |
| `Protocol` | the interleaved state machine: a world is the tables, a history and a program counter per process; one move is one statement, one batch or one bus call; a process may halt between any two moves, and a statement may be refused or have its reply lost |
| `Invariant`, `Preservation`, `Moves` | the inductive invariant (shared part, local part per process, and what a process may rely on), kept by every move of every process |
| `Guarantees` | what holds over whole runs of the protocol |
| `KeyCleanup`, `Overlap`, `PassRuns`, `PassDrain`, `Orphans` | idempotency keys: what passes remove under interleaving, exactly when overlapping passes are harmless, how pass after pass drains while publishers append, exactly which keys no pass can reach |
| `EventLetters`, `QuarantineReplay` | dead letters of one event under interleaving: when its two views agree, quarantine and replay, failures after a replay |
| `Handout`, `DueTimes`, `Columns`, `Consumers` | in stored columns and clock readings: which rows a scan takes, when an event is due after an append, a failure or a replay, what every write leaves behind, what consumers write out |
| `Runs`, `Witness`, `LeaseWitness`, `FenceWitness`, `DueWitness` | building runs, and concrete runs where a claim fails |
| `Operations`, `CassStore`, `Solo`, `SoloLoops` | the operations as functions of the faults their statements meet, the store class proved equal to them, and the proof that an undisturbed protocol process does the same under every fault, its loops included |
| `Cleanup`, `DeadLetters`, `Relay`, `RelayWork`, `Drain` | passes and their repetition, whole operations on dead letters, relay ticks, the relay potential, draining in order |
| `Backoff`, `Breaker`, `PublishRetry`, `IpTable`, `RuleText`, `RuleTables` | the timed machines, the arithmetic and the parsers |

## Assumptions

- Logged batches and `IF` statements are atomic and happen in one order. Replication and partially visible batches are not modelled.
- A `TimeUUID` is fresh over all nodes.
- Times are integer milliseconds (nanoseconds inside the backoff, the breaker and the address table). Clock readings
  are arbitrary everywhere except where a row says otherwise: `KeyCleanup`, `Overlap`, `PassRuns` and `PassDrain`
  need a clock that does not run backwards between the two statements of one append, `PassDrain` also one that does not
  date index rows before the cutoff of a pass under way, `OpenWindow` and the address table need a non-decreasing clock,
  the draining lemmas need readings after the moment everything is ready.
- A refused `INSERT ... IF NOT EXISTS` hands back the stored `event_id`.
- All nodes run with the same settings. The lease is at least 1000 ms, the quarantine limit and the number of attempts
  at least 1, as the clamps in `internal/core/app.go` make them.
- The bus is an append-only log that may accept a message and lose the acknowledgement. A consumer receives a message of
  that log, or one that others published.
- Random draws, UUIDs, the outcome of parsing an id, clock readings, bus answers, cancellations and leadership are chosen
  by the environment.

## What turned out false, and the exact condition

- "Outbox leasing prevents duplicate relay processing": a lease survives an event of a run if and only if that event
  does not record a failure, replay a dead letter or mark the event published, whoever owns the lease (`LeaseExact`).
  `LeaseDoesNotExclude` is a run in which a repeated request fails to publish, records the failure, and a second relay
  claims and publishes the event inside the lease of the first. Claims without such an event between them are separated
  (`LeaseSeparation`).
- The fence after publication is lifted by a recorded failure or a replay: `FenceExact` is the if-and-only-if, and
  `FenceLifted` a run in which a publisher that gives up late makes a published event claimable for a stale relay.
- "After a failure the event is left alone until its next attempt, unless it is replayed": the stored next attempt
  survives an event of a run if and only if that event neither marks the event published nor records a failure or a
  replay with an earlier time (`DueExact`). Without such an event no relay's scan picks the event up early
  (`HeldUntilDue`, `FailureHolds`). `MarkedStillScanned` is a run, for every validated configuration that fits, in which
  a relay with an old page picks the event up early because the mark has deleted the retry row.
- A cleanup pass can delete a key younger than its cutoff: `OverlapRemovesFreshKey` is such a run. From any world,
  passes under way remove only expired keys in all continuations that read no further page if and only if no two of
  them hold the same row (`OverlapExact`).
- Repeated passes do not drain all expired keys: a publisher that stops between taking its key and indexing it leaves a
  key no pass can find (`StoppedAppendLeavesOrphan`). A live key can never be removed if and only if no by-created row
  names it, no append is about to write one and no pass holds one (`OrphanExact`); after enough passes with one cutoff a
  key is gone if and only if a row older than the cutoff named it (`KeysDrainExact`). What is indexed does drain, also
  while publishers append between and during the passes (`RoundsDrainAll`). Such a key also makes every append
  that meets it fail, since its event was never stored (`StalledKeyFails`), forever if it is not indexed
  (`OrphanStalledForever`).
- The backoff loop doubles before it compares with the cap, so it can overflow. A validated configuration keeps its
  schedule and bounds for all retry counts and draws if and only if its cap and the first wait that reaches it fit in an
  int64 of nanoseconds (`BackoffBound`); `ValidatedOverflow` is a validated configuration whose second retry is due in
  the past. The retry loop around the bus can overflow too: the waits of a call are the intended ones if and only if it
  makes at most one wait or two doublings fit (`WaitsExact`); `NegativeWait` is a call of three attempts that waits a
  negative time.
- The two dead-letter views drift apart: exactly when a statement about one letter executes while the by-id view holds
  another (`LettersExact`), and for whole operations exactly when a quarantining failure is recorded for an event that
  still has an older letter (`FailureViewsExact`, with `SecondFailureDoubles`).
- After a replay the next recorded failure need not quarantine again: it does for all continuations without a published
  mark if and only if no failure that read a lower count is still waiting to be recorded (`FailsAgainExact`);
  `LowCountAfterReplay` is a run that ends with such a failure waiting.
- The address table exceeds its limit exactly when the empty address is among the oldest entries of a full table
  (`BoundExact`, reached in `FillAfterEmptyAddress`), because the eviction treats the empty string as "nothing found".
- A version rule with an empty event type is accepted, unlike in the other two tables; the round trip covers it.

## Model

| member | source | states |
|---|---|---|
| `Guarantees.NoLoss` | internal/modules/cassstore/module.go:285-308 | after an append returned, in every later world of every run its event is either pending with exactly one index row at its own time and a leasable retry row, or published with no index row and an earlier acceptance by the bus, never both |
| `Guarantees.StoredTracked` | internal/modules/cassstore/module.go:342-355 | the same dichotomy for every event stored in any state of the invariant |
| `Guarantees.ContentAgreement` | internal/core/app.go:601-618 | every message accepted or emitted for an event and every copy in six tables carries what the append returned, whoever put it there |
| `Guarantees.MarkFences` | internal/modules/cassstore/module.go:342-355 | the published mark leaves the event published and without retry row |
| `Guarantees.FenceExact` | internal/modules/cassstore/module.go:521-528 | the fence survives an event of the run if and only if that event does not record a failure or replay a letter of it |
| `Guarantees.FenceHolds` | internal/modules/cassstore/module.go:507-529 | the fence survives every run without such an event |
| `Guarantees.FencingAfterPublication` | internal/core/app.go:949-953 | from the mark on no claim succeeds at any time, a relay with a stale batch changes nothing and moves on, and a duplicate append reports Published and does not publish |
| `Guarantees.FailureLiftsFence` | internal/modules/cassstore/module.go:591-594 | a failure or replay after the mark makes the event claimable again |
| `Guarantees.ClaimTakes` | internal/modules/cassstore/module.go:521-528 | a successful claim holds the lease until its clock reading plus the duration |
| `Guarantees.LeaseExact` | internal/modules/cassstore/module.go:521-528 | a lease survives an event if and only if the event neither records a failure, nor replays, nor marks |
| `Guarantees.LeaseLasts` | internal/modules/cassstore/module.go:521-528 | the lease is not shortened by any run without mark, failure or replay of the event |
| `Guarantees.LeaseSeparation` | internal/modules/cassstore/module.go:507-529 | two successful claims without mark, failure or replay between them are more than the lease duration apart, for all owners and clocks |
| `Guarantees.Idempotency` | internal/modules/cassstore/module.go:250-283 | all successful appends of one life of a key return one id and one content, and at most one is not a duplicate |
| `Guarantees.LifeChanges` | internal/modules/cassstore/module.go:752-774 | a key enters its next life exactly when a cleanup pass deletes it |
| `Guarantees.OneEventPerKey` | internal/modules/cassstore/module.go:250-283 | in a run that never cleans a key, all its appends agree |
| `Guarantees.AtMostOnceEmission` | internal/core/app.go:826-848 | a consumer name writes a message id at most once over all nodes and runs, and only after an inbox claim |
| `Consumers.ClaimExact` | internal/core/app.go:833-838 | a consumer's claim leads to writing the delivery if and only if its answer arrives and it was the first for that consumer and id, or the delivery has no id; a first claim keeps its time; otherwise nothing is written and the consumer waits for the next delivery |
| `Consumers.WriteExact` | internal/core/app.go:839-846 | writing makes what was written out longer by exactly this delivery of this consumer, unless it fails, and touches no table |
| `Consumers.ReceiveExact` | internal/core/app.go:830-832 | an arriving delivery is the one claimed next |
| `Consumers.OnlyWritesEmit` | internal/core/app.go:826-848 | no other move of any process writes anything out |
| `Consumers.ExactlyOnceEmission` | internal/core/app.go:833-846 | over runs: once the first claim of an id was answered and its process wrote the message, then in every later world of every run that consumer name has written that id exactly once |
| `Consumers.RedeliveredOnce` | internal/core/app.go:826-848 | a run in which a message is delivered twice: claimed and written the first time, found claimed the second time, one emission |
| `Guarantees.RoundsCounted` | internal/core/app.go:602-604 | the failed rounds the history keeps are exactly the publication rounds that ended without success |
| `Guarantees.NoPrematureQuarantine` | internal/modules/cassstore/module.go:554-594 | every retry count of an event is at most its failed rounds: in the retry row, in both dead-letter views, and in every local copy (counts about to be written, letters about to be written or replayed, relay records); quarantine, dead letters and letters on their way have reached the limit |
| `Guarantees.DeadLettersBacked` | internal/modules/cassstore/module.go:699-730 | every letter found by id is listed by time with equal fields and has an outbox row with equal content, so the replay fallback for a missing row is never taken |
| `DueTimes.BatchDue` | internal/modules/cassstore/module.go:285-306 | the append batch in every run: all five rows of the event in full, the event can be handed out at u if and only if u is not before its own time and the epoch, and claimed if and only if u is after the epoch |
| `DueTimes.CheckExact` | internal/modules/cassstore/module.go:394-415 | in every run a relay's look at a row takes it into the batch if and only if the read works and the row is not quarantined, its next attempt not later and its lease not later than the clock reading; a failed read passes it over |
| `DueTimes.FailWriteDue` | internal/modules/cassstore/module.go:565-594 | the failure statement in every run: with a validated configuration that fits, the next attempt minus the clock is the scheduled wait in ms without jitter, and between 10 ms and the scheduled wait plus its percentage with it; every other column by name |
| `DueTimes.FailedUnderDue` | internal/modules/cassstore/module.go:545-594 | the same for the whole operation under any faults that let the write execute, with the first failure kept |
| `DueTimes.FailedDue` | internal/modules/cassstore/module.go:545-594 | the same when all statements work |
| `DueTimes.FailureAnswer` | internal/modules/cassstore/module.go:549-624 | what recording a failure answers: count, quarantined or not, and exactly when an error |
| `DueTimes.DueExact` | internal/modules/cassstore/module.go:585-594 | a stored next attempt survives an event of a run if and only if the event neither marks the event nor records a failure or replay with an earlier time |
| `DueTimes.HeldUntilDue` | internal/modules/cassstore/module.go:400-404 | over runs without such an event no relay's scan picks the event up at a clock reading before that time |
| `DueTimes.FailureHolds` | internal/modules/cassstore/module.go:585-594 | from a recorded failure on, no scan picks the event up before the configured wait is over: the scheduled wait without jitter, 10 ms with it |
| `DueWitness.MarkedStillScanned` | internal/modules/cassstore/module.go:342-355 | a reachable run for every validated configuration that fits: failure recorded, event published and marked by another relay, and picked up early by a relay with an old page |
| `Columns.MarkBatchColumns` | internal/modules/cassstore/module.go:342-355 | the mark in every run: state, time and broker id in the outbox row, index row and retry row gone, nothing else changed |
| `Columns.MarkedColumns` | internal/modules/cassstore/module.go:329-355 | the same for the whole operation, which changes something exactly when it finds the event and its batch is not refused |
| `Columns.ClaimExact` | internal/core/app.go:949-953 | a relay's claim takes the lease if and only if the stored one is set and over, writes owner and expiry only, and leads to publishing exactly the first record of the batch |
| `Columns.ReplayBatchColumns` | internal/modules/cassstore/module.go:709-731 | the replay batch in every run: all rows in full; the event can be handed out from the replay on and not before, and claimed after the epoch |
| `Columns.ReplayedColumns` | internal/modules/cassstore/module.go:683-731 | the same for the whole operation, also for a letter without outbox row, and exactly when nothing changes |
| `Columns.LetteredColumns` | internal/modules/cassstore/module.go:600-624 | the dead letter carries outbox content, count, error and time in both views, or nothing is written |
| `Columns.AppendedColumns` | internal/modules/cassstore/module.go:250-283 | a successful keyed append claims and indexes a free key at its two times, or changes nothing and answers with the stored event and its publish state |
| `Columns.DuplicateExact` | internal/modules/cassstore/module.go:262-275 | a duplicate in every run reports the original event and its publish state and publishes if and only if it is pending |
| `Columns.PublisherBegins` | internal/modules/cassstore/module.go:240-242 | a publisher starts with the request as given, an empty stream meaning `default` |
| `Moves.NextKeeps` | internal/core/app.go:935-963 | every begin, move or halt of any process keeps the invariant of the shared state and of all processes |
| `Moves.Reachable` | internal/modules/cassstore/module.go:227-313 | every run from the empty store ends in a state of the invariant |
| `Moves.RunGrows` | internal/modules/cassstore/module.go:285-308 | along a run stored originals, results and the bus log only grow |
| `KeyCleanup.NextKeepsKeys` | internal/modules/cassstore/module.go:252-282 | one event keeps index, keys, half-done appends and half-done passes consistent when no two passes hold the same row and the append clock does not run backwards |
| `KeyCleanup.IndexNamesLiveKeys` | internal/modules/cassstore/module.go:752-774 | along orderly runs every by-created row names a live key of the same event created no later |
| `KeyCleanup.OnlyExpiredKeysRemoved` | internal/modules/cassstore/module.go:752-774 | in runs where no two passes ever hold the same row, a key vanishes only through a pass and only if its own creation time is before that pass's cutoff |
| `Overlap.OverlapExact` | internal/modules/cassstore/module.go:767-774 | passes under way remove only expired keys in every continuation that reads no further page if and only if no two hold the same row |
| `Overlap.SharedRowRemovesYoung` | internal/modules/cassstore/module.go:752-774 | from any world where two passes hold a row, a run and an event that deletes a key not older than the cutoff |
| `PassRuns.PassExactAmongOthers` | internal/modules/cassstore/module.go:752-774 | while appends and other passes interleave, a pass whose statements work deletes, each while it is there, exactly the oldest min(limit, expired) rows of the page it read |
| `PassDrain.PassDrains` | internal/modules/cassstore/module.go:752-774 | while publishers append, a pass reduces the rows older than a cutoff by its limit, down to zero |
| `PassDrain.RoundsDrain` | internal/core/app.go:994-1012 | any number of passes with any events between and during them leave at most the old rows beyond that many times the limit, and keep the key invariant |
| `PassDrain.RoundsDrainAll` | internal/core/app.go:994-1012 | once that covers the rows old at the start, every row left is dated at or after the cutoff and names a live key |
| `Orphans.OrphanForever` | internal/modules/cassstore/module.go:252-282 | a live key without index row, unknown to any append or pass under way, stays so in every run |
| `Orphans.OrphanExact` | internal/modules/cassstore/module.go:752-774 | a live key can never be removed if and only if it is such an orphan |
| `Orphans.StalledKeyFails` | internal/modules/cassstore/module.go:258-275 | once the publisher that took a key stopped before its batch, no result ever names this life of the key, and a duplicate finds no event and gives up |
| `Orphans.OrphanStalledForever` | internal/modules/cassstore/module.go:250-283 | without index row this lasts in every run: same key row, same event, never readable |
| `Witness.StoppedAppendLeavesOrphan` | internal/modules/cassstore/module.go:252-282 | a reachable world with such a key: a publisher that halts after its first statement |
| `Witness.OverlapRemovesFreshKey` | internal/modules/cassstore/module.go:767-774 | a run of two overlapping passes with cutoff 10 that deletes a key created at 100 and orphans its index row |
| `LeaseWitness.LeaseDoesNotExclude` | internal/core/app.go:602-604 | a reachable run: relay 1 claims, a repeated request records a failed publication, relay 2 claims within the lease of relay 1 while relay 1 is publishing, and publishes too |
| `FenceWitness.FenceLifted` | internal/core/app.go:602-604 | a reachable run: relay 1 publishes and marks, the publisher gives up and records its failure against a missing retry row, relay 2 claims the published event |
| `FenceWitness.LowCountAfterReplay` | internal/modules/cassstore/module.go:554-594 | a reachable run with a limit of two: after quarantine and replay a failure with count 1 still waits, so not every failure quarantines |
| `CassStore.Module.constructor` | internal/modules/cassstore/module.go:43-50 | a new module has no session and empty tables |
| `CassStore.Module.Start` | internal/modules/cassstore/module.go:54-204 | the session is there exactly if setting up worked now or before |
| `CassStore.Module.Stop` | internal/modules/cassstore/module.go:216-225 | no session afterwards |
| `CassStore.Module.AppendEventExactlyOnce` | internal/modules/cassstore/module.go:227-313 | tables and result are those of the specification for missing session, empty key, new key, duplicate and half-written duplicate, whichever statement is refused or loses its reply; a new event has the submitted content, the given time or now, the given stream or `default` |
| `CassStore.Module.StoreEvent` | internal/modules/cassstore/module.go:285-308 | the batch writes the five rows of an event and nothing else, or nothing when refused; `Handout.AppendedDue` says what they hold and from when on the event is due |
| `CassStore.Module.ReadExisting` | internal/modules/cassstore/module.go:262-275 | the answer to a duplicate, with a missing event, a missing outbox row and failing reads told apart |
| `CassStore.Module.MarkOutboxPublished` | internal/modules/cassstore/module.go:315-356 | tables and result are those of the specification, with all error cases and faults |
| `CassStore.Module.PendingOutboxEvents` | internal/modules/cassstore/module.go:358-423 | the scan returns the first L rows, among the first max(100, 5L) in clustering order, that are eligible and readable; in columns: every record comes from a row not quarantined, due and not leased at the reading taken for it, and every other row up to the last taken one was held back by one of these or could not be read; a failed listing is an error |
| `CassStore.Module.ScanPage` | internal/modules/cassstore/module.go:394-418 | the loop with its early stop is the recursive scan |
| `CassStore.Module.LoadRetryState` | internal/modules/cassstore/module.go:807-825 | the stored count, next attempt, quarantine flag and lease, or those of a row never tried; they decide eligibility at every clock reading |
| `CassStore.Module.ClaimInboxMessage` | internal/modules/cassstore/module.go:425-446 | true exactly for the first claim, which keeps its time; an error may have claimed or not |
| `CassStore.Module.ClaimOutboxLease` | internal/modules/cassstore/module.go:507-529 | applied exactly when the stored lease is set and before now, writing owner and expiry only; an error may have claimed or not |
| `CassStore.Module.RecordOutboxFailure` | internal/modules/cassstore/module.go:531-625 | tables and the three results are those of the specification, backoff and quarantine included, for every combination of faults |
| `CassStore.Module.WriteLetter` | internal/modules/cassstore/module.go:600-624 | the dead letter in both views, or the error that kept it out |
| `CassStore.Module.ReplayDeadLetter` | internal/modules/cassstore/module.go:670-732 | tables and result are those of the specification, with all error cases and faults |
| `CassStore.Module.ReplayBatch` | internal/modules/cassstore/module.go:709-731 | the five statements of the replay batch |
| `CassStore.Module.CleanupExpired` | internal/modules/cassstore/module.go:734-805 | both halves, both counts and the error are those of the specification; the counts are the rows that left the two indexes unless a reply is lost, and never more |
| `CassStore.Module.CleanKeyRows` | internal/modules/cassstore/module.go:767-774 | the deletion loop over key rows |
| `CassStore.Module.CleanDeadRows` | internal/modules/cassstore/module.go:794-802 | the deletion loop over dead letters |
| `CassStore.Collect` | internal/modules/cassstore/module.go:752-764 | the collecting loop keeps exactly the rows older than the cutoff, in order |
| `Solo.SoloAppend` | internal/modules/cassstore/module.go:227-313 | an undisturbed publisher leaves the tables of the append specification under any faults, reports exactly its answer, and goes on to publish exactly what that answer does not call published |
| `Solo.SoloMark` | internal/modules/cassstore/module.go:329-355 | an undisturbed mark does what the specification does under any faults |
| `Solo.SoloFailure` | internal/modules/cassstore/module.go:545-625 | an undisturbed failure record does what the specification does under any faults, known event or not |
| `Solo.SoloReplay` | internal/modules/cassstore/module.go:683-731 | an undisturbed replay does what the specification does under any faults, letter or not |
| `SoloLoops.SoloScan` | internal/modules/cassstore/module.go:394-418 | an undisturbed relay finds exactly the records of the scan operation, failed reads included |
| `SoloLoops.SoloRound` | internal/core/app.go:863-911 | a publication round that nobody answers makes exactly the configured attempts and leaves on the bus exactly the copies whose acknowledgement was lost |
| `SoloLoops.SoloClean` | internal/modules/cassstore/module.go:734-805 | an undisturbed cleanup pass leaves the tables of the operation in both halves, whichever deletions fail |
| `Operations.ScanIsFirstEligible` | internal/modules/cassstore/module.go:371-417 | the recursive scan equals the first `room` eligible rows of its page, as records |
| `Handout.ScanSelects` | internal/modules/cassstore/module.go:394-417 | in columns: the scan takes, in page order, exactly the rows that are not quarantined, due, not leased and readable, until it has found enough |
| `Handout.PageOldest` | internal/modules/cassstore/module.go:371-384 | the page is the oldest max(100, 5L) pending rows by time and id, with L between 1 and 2000 and 100 by default |
| `Handout.ScanReaches` | internal/modules/cassstore/module.go:394-417 | a row that nothing holds back is returned unless enough such rows come before it |
| `Handout.AppendedDue` | internal/modules/cassstore/module.go:285-306 | after a successful append of a new event under any faults: its rows in full, handed out at u if and only if u is not before its own time and the epoch, claimable if and only if u is after the epoch |
| `Handout.AppendedScanned` | internal/modules/cassstore/module.go:304 | a scan at such a u returns it, when its row is on the page and fewer than the limit of rows before it are handed out |
| `Operations.FailedTables` | internal/modules/cassstore/module.go:565-594 | a recorded failure leaves outbox and index alone, raises the count by one, clears the lease and quarantines exactly from the limit on |
| `Cleanup.PassCollects` | internal/modules/cassstore/module.go:752-764 | in a listing ordered by time a pass collects the first n expired rows, each once |
| `Cleanup.KeyPassExact` | internal/modules/cassstore/module.go:752-774 | a pass whose batches succeed removes exactly the oldest min(limit, expired) rows and the keys they name, and returns that count |
| `Cleanup.LetterPassExact` | internal/modules/cassstore/module.go:779-802 | the same for dead letters |
| `Cleanup.CleanedCounts` | internal/modules/cassstore/module.go:734-805 | the two counts of a pass are the rows that left the by-created and the by-time index, except those whose reply was lost |
| `Cleanup.CreatedTies` | internal/modules/cassstore/module.go:124-131 | keys indexed at the same time come by stream, then by name |
| `Cleanup.PassShrinks` | internal/modules/cassstore/module.go:752-774 | a pass with a cutoff no earlier than c reduces the rows expired by c by the limit, down to zero |
| `Cleanup.PassesDrain` | internal/core/app.go:994-1012 | m such passes reduce them by m times the limit |
| `Cleanup.PassesDrainAll` | internal/core/app.go:994-1012 | enough passes leave no row older than the cutoff |
| `Cleanup.KeysDrain` | internal/core/app.go:994-1012 | enough passes remove every key that a row older than their earliest cutoff names, and none that no row older than their latest cutoff names |
| `Cleanup.KeysDrainExact` | internal/modules/cassstore/module.go:752-774 | after enough passes with one cutoff a key is gone if and only if a row older than the cutoff named it |
| `DeadLetters.ApplyPerforms` | internal/modules/cassstore/module.go:227-805 | each operation of a history is the store operation with working statements |
| `DeadLetters.QuarantineReplayRoundTrip` | internal/modules/cassstore/module.go:586-624 | quarantine and replay with any whole operations on other events between restore all rows of the event except the retry row, which keeps the count and is eligible and claimable at once |
| `DeadLetters.ReplayedFailsAgain` | internal/modules/cassstore/module.go:719-722 | after a replay and any history of whole operations that does not mark the event, a recorded failure quarantines it again |
| `DeadLetters.FailureViewsExact` | internal/modules/cassstore/module.go:608-624 | a failure keeps the two views equal if and only if it does not write a second letter beside an older one |
| `DeadLetters.SecondFailureDoubles` | internal/modules/cassstore/module.go:608-624 | an append and two quarantining failures at times 5 and 6 leave a letter in one view only |
| `DeadLetters.ReplayViews` | internal/modules/cassstore/module.go:723-731 | a replay keeps the views equal |
| `DeadLetters.PassViews` | internal/modules/cassstore/module.go:794-802 | a cleanup pass keeps the views equal, whichever batches fail |
| `DeadLetters.ViewsCoincideAlways` | internal/modules/cassstore/module.go:608-624 | the views are equal as a whole in every history of whole operations without a doubled letter |
| `EventLetters.LettersExact` | internal/modules/cassstore/module.go:795-802 | the views go on agreeing on an event if and only if the executing statement is not about another letter than the one held by id |
| `EventLetters.ViewsAgreeOn` | internal/modules/cassstore/module.go:608-624 | in every run where operations on the letters of one event do not interleave with each other and none of its failures quarantines it while it has a letter, both views agree on it in every world, however everything else interleaves |
| `QuarantineReplay.RoundTrip` | internal/modules/cassstore/module.go:586-624 | over protocol runs: between the failure, its letter and the replay anything may happen to other events; all rows of the event but the retry row are restored, the count is kept, the event is eligible and claimable at once |
| `QuarantineReplay.FailsAgainExact` | internal/modules/cassstore/module.go:554-594 | once the count has reached the limit every failure recorded before a mark quarantines, if and only if no failure with a lower count is waiting to be recorded |
| `QuarantineReplay.ReplayCounts` | internal/modules/cassstore/module.go:719-722 | a replay leaves a count that has reached the limit |
| `Relay.Worker.constructor` | internal/core/app.go:913-933 | a worker starts with an empty bus log |
| `Relay.Worker.RelayOutboxBatch` | internal/core/app.go:935-963 | store, bus log and claim count are those of the tick specification; without a session nothing changes |
| `Relay.Worker.RelayRecords` | internal/core/app.go:948-961 | the loop over a batch is the recursive batch |
| `Relay.Worker.RelayOne` | internal/core/app.go:949-961 | one record is claimed, published and marked or failed as specified; an unclaimable one is left alone |
| `Relay.ChosenRecords` | internal/core/app.go:942-943 | a tick works on the first L eligible rows of its page |
| `RelayWork.HandleSpends` | internal/core/app.go:949-961 | every claimed record lowers the potential by at least one, keeps the index sound and touches no other event |
| `RelayWork.HandleExact` | internal/core/app.go:949-961 | a claimed record puts its copies on the bus and its lease in the name of the node, and ends as published with the id and time of the acknowledgement, or with the next failure due on schedule |
| `RelayWork.HandleLeaves` | internal/core/app.go:949-953 | a record whose lease is not over is left alone |
| `RelayWork.BoundedRelayWork` | internal/core/app.go:935-963 | over any number of ticks and any bus behaviour, claimed rounds plus remaining potential never exceed the initial potential |
| `RelayWork.PotentialZero` | internal/modules/cassstore/module.go:396-417 | the potential is zero exactly when every event is published or quarantined |
| `RelayWork.WorkFinishes` | internal/core/app.go:935-963 | after as many rounds as the potential allowed, every event is published or quarantined |
| `Drain.TickDrains` | internal/core/app.go:942-961 | with everything ready and an accepting bus a tick publishes exactly the oldest min(k, L) events, in order |
| `Drain.TicksDrain` | internal/core/app.go:913-933 | m ticks publish exactly the oldest min(k, m L) events, in order |
| `Drain.OutboxDrains` | internal/core/app.go:913-933 | enough ticks empty the outbox and append all k events to the bus log in order |
| `Breaker.CircuitBreaker.constructor` | internal/core/app.go:1298-1306 | limits are clamped to at least one and the trace is empty |
| `Breaker.CircuitBreaker.Allow` | internal/core/app.go:1308-1326 | granted if and only if the breaker is not open or its window is over, and then half-open with no success counted; the fields are the run of the trace |
| `Breaker.CircuitBreaker.Success` | internal/core/app.go:1328-1342 | field by field for closed, open and half-open; the fields are the run of the trace after a success |
| `Breaker.CircuitBreaker.Failure` | internal/core/app.go:1344-1355 | one more failure, no success; open from now on exactly from half-open or at the threshold |
| `Breaker.ClosedExactly` | internal/core/app.go:1328-1355 | over any trace, closed if and only if the failures on record are below the threshold |
| `Breaker.OpenWindow` | internal/core/app.go:1308-1326 | after a failure that leaves the breaker open no Allow is granted within the open duration |
| `Breaker.ClosesOnlyAfterSuccesses` | internal/core/app.go:1328-1342 | an open breaker closes only at the end of a failure-free stretch with the required number of successes |
| `Breaker.Recovers` | internal/core/app.go:1314-1320 | after a failure at t that leaves the breaker open, and without another failure, the first Allow at least the open duration after t is granted and starts counting successes at zero |
| `Breaker.ClosesExactly` | internal/core/app.go:1331-1338 | a half-open breaker without a failure is closed if and only if it has seen the required number of successes |
| `Breaker.ReopensAtOnce` | internal/core/app.go:1344-1355 | a failure of a half-open breaker opens it again |
| `Breaker.SuccessResets` | internal/core/app.go:1339-1341 | a success that leaves the breaker closed starts the failure count again |
| `Breaker.OpensExactly` | internal/core/app.go:1344-1355 | from then on, without a success, the breaker is closed if and only if fewer failures than the threshold have come |
| `Breaker.OpensOnlyAfterFailures` | internal/core/app.go:1344-1355 | a closed breaker opens only at the end of a success-free stretch with as many failures as the threshold |
| `PublishRetry.BusPublish` | internal/core/app.go:1014-1032 | the bus is reached exactly when the breaker grants it, the breaker sees the outcome, and a rejected attempt leaves it as it was |
| `PublishRetry.PublishWithRetry` | internal/core/app.go:851-911 | at most the configured attempts, none after a success or cancellation; the call succeeds if and only if an attempt did, with its id; every attempt fits breaker and bus; the waits are the schedule |
| `PublishRetry.WaitsExact` | internal/core/app.go:876-902 | the waits of a call that uses all its attempts are the first wait doubled and capped if and only if it makes at most one wait or doubling the first and the last but one fit in an int64 |
| `PublishRetry.ConfiguredWaits` | internal/core/app.go:867-902 | the waits in milliseconds: the configured first wait doubling up to the configured cap, 150 and 3000 by default, for settings that fit |
| `PublishRetry.NegativeWait` | internal/core/app.go:884-902 | a call of three attempts against a silent bus whose second wait is negative |
| `Backoff.ExponentialWait` | internal/modules/cassstore/module.go:566-573 | the loop with its early exit is the recursive wait, wrap-around included |
| `Backoff.ValidatedPolicy` | internal/core/app.go:979-987 | a validated configuration hands over the configured durations, in order, if and only if its cap fits in an int64 |
| `Backoff.LoopMeetsSchedule` | internal/modules/cassstore/module.go:566-573 | the loop yields min(base * 2^(n-1), max) when the doubling fits |
| `Backoff.OverflowShows` | internal/modules/cassstore/module.go:566-573 | where it does not fit, some retry count gets a negative wait |
| `Backoff.BackoffExact` | internal/modules/cassstore/module.go:566-573 | the loop meets the schedule for all retry counts if and only if the first wait to reach the cap fits in an int64 |
| `Backoff.SmallCapFits` | internal/config/config.go:211-222 | every cap below 2^62 ns meets the schedule |
| `Backoff.ScheduleMonotone` | internal/modules/cassstore/module.go:566-573 | the schedule is monotone and stays between base and cap |
| `Backoff.JitterBound` | internal/modules/cassstore/module.go:574-583 | jitter stays between 10 ms and the cap plus its percentage for every percentage and draw, overflow or not |
| `Backoff.FinalWaitExact` | internal/modules/cassstore/module.go:565-585 | the final wait keeps those bounds for all retry counts, percentages and draws if and only if the doubling fits |
| `Backoff.BackoffBound` | internal/config/config.go:211-222 | a validated configuration keeps its configured schedule and bounds for all retry counts and draws if and only if its cap and the first wait that reaches it fit, wrapped durations included |
| `Backoff.ValidatedOverflow` | internal/config/config.go:211-222 | a validated configuration whose second retry is due in the past |
| `Backoff.WaitOnSchedule` | internal/modules/cassstore/module.go:565-585 | for every validated configuration that fits, the milliseconds added to the clock are the scheduled ones without jitter, and within their percentage and at least 10 with it |
| `Backoff.JitterReaches` | internal/modules/cassstore/module.go:574-583 | every shift within the percentage is reached by some draw |
| `IpTable.AllowKeepsOrder` | internal/core/app.go:1196-1216 | every tracked address was seen no earlier than every dropped one, across inserts, evictions and sweeps |
| `IpTable.StaysBounded` | internal/core/app.go:1204-1207 | the table stays within its limit when the empty address is not the victim |
| `IpTable.BoundExact` | internal/core/app.go:1232-1249 | an Allow is sure to stay within the limit if and only if it is not the overfilling case |
| `IpTable.AllowExact` | internal/core/app.go:1196-1249 | entry by entry: expired ones go at a sweep, nothing else is added or changed, and a live one goes only when the table is full, the address new and the entry oldest and not empty, and only that one |
| `IpTable.IpRateLimiter.constructor` | internal/core/app.go:1185-1194 | at least 100 addresses, an empty table, the first sweep in a minute |
| `IpTable.IpRateLimiter.Allow` | internal/core/app.go:1196-1216 | the table changes as specified, stays least-recently-used, and stays bounded while no empty address came in |
| `IpTable.IpRateLimiter.Sweep` | internal/core/app.go:1218-1230 | exactly the expired entries go, none without a TTL |
| `IpTable.IpRateLimiter.EvictOldest` | internal/core/app.go:1232-1249 | some oldest entry goes, unless its address is empty |
| `IpTable.FillAfterEmptyAddress` | internal/core/app.go:1196-1249 | through Allow alone, a table of 100 addresses comes to hold 101 entries |
| `RuleTables.ParseIntMap` | internal/config/config.go:319-346 | the loop yields the table of its entries |
| `RuleTables.ParseSchemaVersionRules` | internal/config/config.go:377-406 | the loop yields the table of its entries, every rule with 1 <= min <= max |
| `RuleTables.ParseVersionEntry` | internal/config/config.go:385-403 | one entry is read or skipped as specified |
| `RuleTables.ParseRequiredFieldRules` | internal/config/config.go:408-439 | the loop yields the table of its entries, every rule with a name and a field |
| `RuleTables.ParseFieldEntry` | internal/config/config.go:416-436 | one entry is read or skipped as specified |
| `RuleTables.SplitOr` | internal/config/config.go:267-278 | the trimmed, non-empty items of the setting or its fallback |
| `RuleTables.VersionsInRange` | internal/config/config.go:396-402 | every rule of a parsed version table satisfies 1 <= min <= max |
| `RuleTables.FieldsPresent` | internal/config/config.go:422-436 | every rule of a parsed field table has a name and a field |
| `RuleTables.IntRuleExact` | internal/config/config.go:326-344 | an entry is read as name and number if and only if it is `name=number` with a name, a 64-bit decimal and white space around any part |
| `RuleTables.RangeExact` | internal/config/config.go:393-402 | a range is read if and only if it is `min-max` with decimals and 1 <= min <= max |
| `RuleTables.VersionRuleExact` | internal/config/config.go:384-403 | an entry is read as a version rule if and only if it is `type:range`, the type possibly empty |
| `RuleTables.FieldRuleExact` | internal/config/config.go:415-436 | an entry is read as a field rule if and only if it is `type=field|field` with a type and at least one field, blank fields left out |
| `RuleTables.MalformedIgnored` | internal/config/config.go:327-344 | a malformed entry changes nothing, wherever it stands |
| `RuleTables.LaterOverrides` | internal/config/config.go:327-344 | the last rule for a name wins |
| `RuleTables.IntTableRoundTrip` | internal/config/config.go:319-346 | parsing the canonical text of a number table gives the table back |
| `RuleTables.VersionTableRoundTrip` | internal/config/config.go:377-406 | parsing the canonical text of a version table gives the table back |
| `RuleTables.FieldTableRoundTrip` | internal/config/config.go:408-439 | parsing the canonical text of a required-field table gives the table back |
| `RuleTables.ListRoundTrip` | internal/config/config.go:267-278 | reading a joined list gives the list back |
| `RuleText.SplitJoin` | internal/config/config.go:325-326 | splitting a join of separator-free parts gives the parts back |
| `RuleText.AtoiItoa` | internal/config/config.go:339-341 | reading a printed 64-bit number gives the number back |
| `RuleText.AtoiExact` | internal/config/config.go:339-341 | a text is read as n if and only if it is an optional sign and digits with value n within 64 bits |
| `RuleText.TrimExact` | internal/config/config.go:326 | trimming gives exactly the bare text inside the white space |
| `RuleText.SplitExact` | internal/config/config.go:325 | the parts are free of the separator and join to the text |
| `RuleText.CutExact` | internal/config/config.go:330-333 | cutting finds the first separator, or none if and only if there is none |
| `RuleText.KeptExact` | internal/config/config.go:270-277 | the items kept are the parts without white space, in order, blank ones left out |

## Left out

- HTTP routing, middleware, JSON, metrics, tracing, logging, CORS, TLS, token scopes and access lists: plumbing around the protocol.
- Token buckets of the per-address and per-subject limiters, the concurrency guards and the authentication failure counter: one-step counters of a request.
- `RecentEvents` and `ListDeadLetters`: plain reads of one table; the copies they read are covered by `ContentAgreement`.
- The payload hash: it is stored and never compared.
- etcd leadership: the relay's leader check only decides whether a tick runs, so leadership is arbitrary here.
- NATS deduplication and retention: the bus log keeps every accepted message.
- The breaker around the store and context deadlines: a statement may be refused, and a round may be cancelled, at any moment.
- Subscriber channels that drop messages when full: a consumer may skip any message.
- Liveness that depends on timers: what a given number of ticks or passes achieves is proved, not that they happen.
- `parseInt64Map` (internal/config/config.go:348-375): the same text with the same 64-bit numbers as `ParseIntMap`.
- Handout.AppendedScanned: is about a scan that nothing interleaves with; `DueTimes.CheckExact` is the exact statement for every look of every run.
- Unreadable text inside a number beyond sign and decimal digits: Go's base-10 reader is modelled on optional sign and digits within 64 bits.
- IpTable.IpRateLimiter.Allow: does not model the token bucket, so it returns no verdict.
- Relay.Worker.RelayOne: models the publish round by its outcome and the copies the bus took; attempts and waits are in `PublishRetry.PublishWithRetry`.
- Relay.Worker.RelayOutboxBatch: runs against a store whose listing and statements work, as the work bound assumes; store errors in the middle of a batch are moves of `Protocol`.
- Cleanup.KeyPassExact: is about a pass that nothing interleaves with; `PassRuns.PassExactAmongOthers` is the form with appends and other passes around it.
- Cleanup.LetterPassExact: is about a pass that nothing interleaves with; under interleaving a letter may be replayed between the page read and its deletion.
- DeadLetters.ViewsCoincideAlways: is about histories of whole operations; `EventLetters.ViewsAgreeOn` is the form with interleaving.
- Cleanup.KeysDrain: is about passes that nothing interleaves with; `PassDrain.RoundsDrain` is the form with appends between and during them.
- Cleanup.KeysDrainExact: is about passes that nothing interleaves with; `Orphans.OrphanExact` is the exact statement over all runs.
- DeadLetters.QuarantineReplayRoundTrip: is about histories of whole operations; `QuarantineReplay.RoundTrip` is the form with interleaving.
- DeadLetters.ReplayedFailsAgain: is about histories of whole operations; `QuarantineReplay.FailsAgainExact` is the form with interleaving.
