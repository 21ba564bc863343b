# Verified model of the OCR gateway's document-event courier

The gateway consumes `document.processed` events from Kafka, writes one routed event per source event into a
Postgres outbox, and a worker publishes the outbox to per-caller topics. Consumers and workers may crash between any
two steps, Redis may forget or fail, commits may succeed and report an error, leases may run out. What the gateway
promises - nothing lost, every event routed exactly once in effect, dedupe that does not depend on Redis - is a
property of whole runs. This project models the courier as a state machine over those steps, proves the promises for
all runs, and proves that imperative versions of the consumer, the worker, the SQL statements and the gate in front of
the API take only the steps the machine allows. The same configuration feeds authentication, rate limits and routing;
that glue and the shared rate limiter are modelled and proved too.

## How it is organised

| file | what it holds |
|---|---|
| `Prelude.dfy` | options, results, time, small facts about sequences and sets |
| `Envelopes.dfy` | the event's wire shape, decoding, validation and re-encoding |
| `Outbox.dfy`, `Queries.dfy` | the table and its SQL statements: as functions, and as a class that changes its rows |
| `Kafka.dfy`, `Routing.dfy` | records and headers; what becomes of one record, and what is published for it |
| `Courier.dfy`, `Reach.dfy` | the protocol: state, actions, `Step`, `Run`; how a consumer by itself gets through a partition |
| `IntakeSafety.dfy`, `OutboxSafety.dfy`, `Provenance.dfy`, `Ledger.dfy`, `Copies.dfy`, `OwnCopies.dfy` | invariants over every run |
| `LossBound.dfy`, `Versions.dfy` | exactly when nothing is lost, and when copies agree |
| `LeaseSafety.dfy`, `LeaseBound.dfy`, `Spacing.dfy`, `Retention.dfy` | what the lease, the backoff and the retention delete guarantee, and when they do not |
| `Deployment.dfy` | the protocol with the gateway's own checks put in; the guarantees in terms of records |
| `Ticks.dfy`, `Draining.dfy`, `Waits.dfy`, `Shifts.dfy`, `Starvation.dfy`, `Arrival.dfy` | one worker ticking: refinement, draining, alone and with others about, no starvation; arrival end to end |
| `RateLimiter.dfy`, `RateBound.dfy` | the fixed-window counter shared by replicas |
| `Registry.dfy`, `Config.dfy`, `Auth.dfy` | callers: configuration, tables, authentication, limits, submit |
| `Environment.dfy`, `Consumer.dfy`, `Publisher.dfy`, `Assurance.dfy` | the processes as programs, refining the protocol |

In the protocol every choice of the environment is part of the action, so a run is a list of actions and "for all runs"
is "for all lists". An action that is not enabled changes nothing. Times of the database and the worker are in
microseconds, those of the rate limiter in nanoseconds.

The programs run against `Environment.World`. Each call into Redis, the database or Kafka first lets others act in any
way they can, may fail, and may have its effect although it reports an error; the calls know nothing of the protocol.
Beside the world goes the protocol's state. After each call the program names the protocol step it takes the call to
be, and `World.Record` demands a proof that the call was made, came to what the step says, and had exactly the effect
that the step has; the world also keeps count of the calls that failed. So no program can report a failure that no call
has had, and the contracts say that it does its work unless one did. A program cut short at any point leaves a state
that some run of the protocol reaches, so every theorem about runs applies to it (`Assurance.dfy`). The endless loops
are modelled up to any number of polls or ticks.

## Assumptions

- `CommitUncommitted` commits, per partition, nothing beyond the first offset polled and not yet processed (`Prudent`). The
  library is not part of this model. The comment at `internal/app/consumer.go:143` says it flushes processed offsets, and
  the failure path at `internal/app/consumer.go:132` relies on it. A flush policy is any predicate of the processed offset,
  the polled one and the one committed; `NothingLostIff` proves that, given the next assumption and a log in which partition
  0 repeats no event, no record is lost in any run exactly if the policy is prudent.
- A partition without a committed offset is read from its first record (the client's reset to the earliest offset), and a
  partition's offsets have no gaps.
- Name-based identifiers of the events in one log do not collide (`NoCollisions`); it is needed only to tell whose row
  stands for a committed record (`CommittedRecordsAreKept`). Parsing an identifier is many-to-one in its spelling, and
  nothing assumes otherwise.
- An identifier's canonical text parses back to it, and no identifier has an empty text (`Lawful`).
- The exactly-once results are for deployments that never run the retention delete; what the delete changes is in
  `Retention.dfy`, and where records come from (`RoutedRecordsAreFaithful`) holds with it as well. Neither
  `DeletePublishedOutboxEvents` nor `ReleaseOutboxEventLock` has a caller in the repository; both are optional steps.

## What turned out not to hold as stated

- A worker's marks are not guarded by the lease's owner. `OverrunLease` exhibits a run in which a late failure mark clears
  another worker's lease; `LeaseSafetyIff` says that batches kept no longer than five minutes are exactly what excludes it.
- The comment at `internal/server/auth.go:112` says that twice the window covers clock skew. `SurvivalIff` makes it exact:
  skew plus the delay from reading the clock to the increment must not exceed any configured window.
- Validation accepts two callers with one key hash (`internal/config/config.go:306-318`); `SharedKeyIsAccepted` gives one
  such configuration. Then the earlier one is configured but unknown (`SharedKeyShadows`): nobody can authenticate as it,
  and its events are dead-lettered, as those of a caller are exactly if a later one has its key (`RoutedIffKeyIsLast`).
  `AllKnownIff` says that distinct hashes are exactly what is needed.
- The comment at `internal/envelope/envelope.go:16` promises data and error byte for byte. The encoder compacts raw
  messages and the column is JSONB, so at most the JSON value is kept; bytes are outside this model. At the value level a
  missing data or error comes out as null, and `MarshalExactIff` says that nothing else is changed by the round trip.
- With the retention delete, a published row need not have been published with its own content: `StaleMarkPublishes`
  exhibits a run in which a removed row comes back with other content and a stale worker marks it. `OwnContentIff` says
  that batches kept no longer than seven days are exactly what excludes it; `PublishedHasCopy` is what holds regardless.
- With the retention delete, an event that comes in two differently rendered versions can be published in both, since
  the id is free again once its row is gone. `CopiesAgreeIff` says that copies agree in every run exactly if no event
  does, and `TwoVersionsOccur` gives a deployment in which one does.
- The comment at `internal/app/consumer.go:48` says that without Redis every redelivery would be a second routed event.
  `RedisIsOnlyAFastPath` proves that it would not, as long as the retention delete is not run.

## Model

| member | source | states |
|---|---|---|
| Deployment.ExactlyOnce | internal/service/router/service.go:90-148 | in every run without retention, the routed topics collapsed by event-id are part of the ideal "first delivery per row", all copies of an event are identical, and the ideal is complete once no row is pending |
| Deployment.RedisIsOnlyAFastPath | internal/service/router/service.go:95-148 | whatever Redis loses, expires or fails to write, the rows are those that insert-if-absent makes of the same deliveries, and a mark present implies its row |
| Deployment.CommittedRecordsAreKept | internal/app/consumer.go:116-152 | every record below a committed offset is in the DLQ or an event with its source UUID has had a durable row |
| Deployment.OutcomesExclude | internal/app/consumer.go:172-197 | a record in the DLQ is one its own contents condemn, a delivered record is one they do not; so none is in both and no fault dead-letters a routable record |
| Deployment.RoutedRecordsAreFaithful | internal/service/outbox/service.go:85-111 | every record ever published, with retention or without, is the rendering of an accepted source record and a faithful copy of it, value, key, topic and headers |
| Deployment.RedeliveryIsRecognised | internal/service/router/service.go:95-148 | for as long as the configured TTL after its mark was written, and unless Redis loses it, whoever takes up a record with that mark finishes it without touching the table |
| LossBound.NothingLostIff | internal/app/consumer.go:125-152 | whatever offsets the flush may commit: no record is lost in any run if and only if it commits nothing beyond what is processed - for a log that repeats no event in partition 0, or a flush that goes too far from the first record on |
| IntakeSafety.IntakeAlways | internal/app/consumer.go:116-152 | in every run: no gaps below positions or commits, marks only for durable rows, DLQ copies only of condemned records, deliveries true to their records |
| IntakeSafety.FetchLeavesNoGap | internal/app/consumer.go:117-126 | a fetched batch continues where the position says: everything below the new position was dealt with before or waits in the batch |
| LossBound.ImprudentFlushLoses | internal/app/consumer.go:129-152 | if the flush may commit record a with only those before it processed, and a repeats none of their events, there is a run that loses a record |
| OutboxSafety.FastPathAgrees | internal/service/router/service.go:95-148 | for any record checks in which one mark names one row: rows equal first-delivery-wins, marks imply rows |
| OutboxSafety.ExactlyOnceEffect | internal/repository/outbox.sql.go:95-114 | every routed record renders a row of the simple form; when all rows are published, every row has been rendered |
| OutboxSafety.FirstWinsIsFirst | internal/repository/outbox.sql.go:113 | the simple form keeps for each id the content of its first delivery and has no other ids |
| Provenance.ProvenanceAlways | internal/repository/outbox.sql.go:95-114 | in every run, retention or not, every row, claimed event and routed record goes back to one delivery |
| Ledger.StepAges | internal/repository/outbox.sql.go:161-191 | no step but a removal changes what is fixed of a row: published_at once set stays, the counter never falls, insert-time columns never change |
| Ledger.RowsSoundAlways | internal/repository/outbox.sql.go:161-191 | in every run: locked_at is null exactly when locked_by is, a published row has no lock and no last error |
| Ledger.PublishedForGood | internal/repository/outbox.sql.go:183-191 | a row once published stays exactly as it is in every later state, until the retention delete removes it |
| Ledger.AttemptsBalance | internal/service/outbox/service.go:106-138 | in every run and for every row, publish attempts are at least attempt_count + published + wasted marks + attempts in flight, and exactly that many if the row was never removed |
| Copies.PublishedHasCopy | internal/service/outbox/service.go:106-121 | in every run, retention or not: a published row, a row removed, and a row about to be marked as published each have in the routed topics the rendering of a delivery under their id |
| OwnCopies.OwnContentPublished | internal/repository/outbox.sql.go:183-191 | where no row is ever removed, what has been published for a published row is its own content, in every run |
| OwnCopies.OwnContentIff | internal/repository/outbox.sql.go:183-191 | with retention on and an event that comes in two versions, that is so in every run if and only if workers keep their batches at most seven days |
| OwnCopies.StaleMarkPublishes | internal/repository/outbox.sql.go:183-191 | a concrete run beyond that, step by step: a row published and about to be marked again is removed, comes back pending with the other version's content, and the stale mark declares it published though that content never was |
| Versions.CopiesAgreeIff | internal/repository/outbox.sql.go:146-151 | with retention on, all copies of an event are one and the same record in every run if and only if no event comes in two differently rendered versions |
| Versions.TwoVersionsOccur | internal/service/router/service.go:90-137 | a concrete deployment whose log has one event in two versions |
| Spacing.AttemptsAreExact | internal/service/outbox/service.go:106-138 | with no mark lost (dropped, or owed by a worker that crashes), no lease overrun or released by hand and none in flight, attempts on a row never removed whose counter is not full are exactly attempt_count + published |
| LeaseSafety.LeasesAlways | internal/repository/outbox.sql.go:22-34 | if no batch is kept longer than the lease and no lock is released by hand, no two workers hold one row and every held row bears its holder's lease |
| LeaseSafety.MarksLandOnOwnLease | internal/repository/outbox.sql.go:161-191 | then every mark that is made finds the row under the marker's own lease |
| LeaseBound.OverrunLease | internal/repository/outbox.sql.go:161-170 | one tick beyond the lease is enough: a late failure mark clears another worker's lease |
| LeaseBound.LeaseSafetyIff | internal/repository/outbox.sql.go:22-34 | workers exclude each other in all runs if and only if the bound on keeping a batch is at most five minutes |
| Spacing.ClaimsAreSpaced | internal/service/outbox/service.go:130-134 | on one clock, within the lease and without releases by hand, a row with n failures is not claimed before first failure + the sum of 5·min(k,6) seconds |
| Spacing.CumulativeBackoffClosedForm | internal/service/outbox/service.go:130 | that sum is 105 + 30(n−6) seconds from six failures on |
| Spacing.CounterNeverFull | internal/service/outbox/service.go:130 | so the int32 counter is not full, nor its increment wrapped, within two thousand years of a row's first failure |
| Retention.SecondRowComesLate | internal/repository/outbox.sql.go:146-151 | two inserts that create a row for one id are separated by a publication more than seven days before the second |
| Retention.OnlyOldRowsVanish | internal/repository/outbox.sql.go:146-151 | no step removes a row but one published more than seven days ago |
| Ticks.WholeTick | internal/service/outbox/service.go:43-67 | a tick - claim, publish and mark each event - is a run of the protocol: it leaves the table that the tick function says, adds one record per claimed event that was not refused, and leaves the worker idle |
| Draining.DrainsExactly | internal/app/worker.go:81-91 | with n eligible rows and no faults, k ticks leave exactly max(0, n − 100k) pending, untouched and the newest; all rows are still there with their content, and those published before are as they were |
| Draining.DrainsDespiteFaults | internal/service/outbox/service.go:112-138 | with finitely many disturbed ticks - claims that fail, sends refused, marks lost, others changing the table in between but for adding pending rows - the outbox empties within (disturbed + 1)·(301 + ⌈n/100⌉) ticks |
| Shifts.EveryOutboxDrains | internal/app/worker.go:77-93 | from every state that a run on one clock can reach, every continuation in which one worker, idle at first, ticks once a second, while others crash, claim, send, mark, release, delete, poll and commit as they like but insert nothing, leaves nothing pending, if it is (disturbed ticks + 1)·(301 + ⌈n/100⌉) ticks long |
| Shifts.CanAlwaysDrain | internal/app/worker.go:77-93 | however badly a run on one clock has gone, some continuation made only of that one worker's own steps and the passing of time leaves nothing pending |
| Arrival.DrainedMeansArrived | internal/service/outbox/service.go:106-121 | wherever a run without retention has nothing pending, each routable record committed before is in the routed topics, as its row has it |
| Arrival.CommittedEventsArrive | internal/app/consumer.go:129-139 | end to end: every such continuation brings every routable record committed before it to the routed topics |
| Arrival.CommittedEventsCanArrive | internal/app/consumer.go:129-139 | and from every reachable state on one clock one worker, by itself, can bring them there |
| Starvation.NoStarvation | internal/service/outbox/service.go:130-134 | a fresh row behind P failing and h healthy rows with 3P + h < 3000 is claimed within 30 ticks |
| Starvation.AtMostThree | internal/service/outbox/service.go:130-134 | the backoff lets a row that keeps failing be claimed at most three times in 30 ticks |
| Outbox.SelectPending | internal/repository/outbox.sql.go:16-31 | the claim's subselect: exactly the min(limit, available) first eligible rows by (created_at, id), in order |
| Outbox.OlderComesFirst | internal/repository/outbox.sql.go:27 | of any two rows exactly one comes first: the older, or at the same age the one with the lower id |
| Outbox.SortedPrefixUnique | internal/repository/outbox.sql.go:16-31 | the claimed set is determined by the table, the time, the limit and the rows locked elsewhere |
| Outbox.ClaimTouchesOnlyLocks | internal/repository/outbox.sql.go:32-35 | claimed rows change in the two lock columns only, to the time and the worker of the claim, all others not at all |
| Outbox.NewIsDue | internal/repository/outbox.sql.go:95-114 | a row just inserted can be claimed at once |
| Outbox.ClaimedIsDueIff | internal/repository/outbox.sql.go:22-34 | a claimed row that nobody touches again can be claimed exactly when more than five minutes have passed |
| Outbox.FailedIsDueIff | internal/service/outbox/service.go:130-134 | a row that could not be published, and that nobody touches again, can be claimed exactly when 5, 10, 15, 20, 25 or at most 30 seconds have passed, by its attempt count; the count goes up by one and the cause is kept |
| Outbox.PublishedIsNeverDue | internal/repository/outbox.sql.go:183-196 | a published row can never be claimed again; it keeps its content and has neither lock nor error |
| Outbox.ReleasedIsDueIff | internal/repository/outbox.sql.go:198-209 | a released row can be claimed exactly when its latest wait is over |
| Queries.Store.ClaimPendingOutboxEvents | internal/repository/outbox.sql.go:59-93 | locks that prefix and returns its rows as they now are, each once, in any order; a negative limit is an error |
| Queries.Store.CreateOutboxEvent | internal/repository/outbox.sql.go:129-144 | inserts if absent and reports the number of new rows |
| Queries.Store.MarkOutboxEventFailed | internal/repository/outbox.sql.go:161-181 | counts, delays and unlocks an unpublished row, touches no other, errs exactly on a full counter |
| Queries.Store.MarkOutboxEventPublished | internal/repository/outbox.sql.go:183-196 | publishes and unlocks an unpublished row and touches no other |
| Queries.Store.ReleaseOutboxEventLock | internal/repository/outbox.sql.go:198-209 | unlocks an unpublished row and touches no other |
| Queries.Store.DeletePublishedOutboxEvents | internal/repository/outbox.sql.go:146-159 | removes exactly the rows published more than seven days ago and counts them |
| Queries.Store.ExecTx | internal/repository/store.go:24-35 | all or nothing: unless it reports failure with nothing changed, the row is inserted, even when the commit reports an error |
| Envelopes.Parse | internal/envelope/envelope.go:42-86 | accepts exactly the conforming records; a rejection lists every broken rule and no other |
| Envelopes.UnmarshalIff | internal/envelope/envelope.go:91-97 | a value decodes exactly if it is null or an object whose text members are texts or null; every field is then its own member's, missing and null being empty for texts, and apart for data and error |
| Envelopes.AcceptedIff | internal/envelope/envelope.go:42-86 | decoding and validation together: which members, as they are on the wire, an accepted record has to have |
| Envelopes.MarshalRoundTrip | internal/envelope/envelope.go:91-107 | decoding an encoded envelope gives it back, with a missing data or error turned into null, encoding settles after one round, and an encoding has all eleven members |
| Envelopes.MarshalExactIff | internal/envelope/envelope.go:91-107 | the round trip is exact if and only if neither data nor error is missing |
| Routing.RoutedIff | internal/app/consumer.go:172-197 | for every record: routed if and only if its value is accepted, its event-id header is missing or the envelope's event_id, the caller is known and both identifiers parse; row id and mark are then the event's |
| Routing.RoutedRecordIsFaithful | internal/service/router/service.go:109-137 | the published record passes the gateway's own header and field checks, is keyed by its non-empty reference, and differs from the source in three fields only; its headers name the routed event, the source's document and trace, type, version and service |
| Routing.RenderedHeaders | internal/service/outbox/service.go:92-104 | what each header of a published record says, and that it has a trace id exactly if the row has one |
| Routing.OutcomeIsInTheRecord | internal/app/consumer.go:172-197 | whether a record is dead-lettered, and its row id and mark, depend on its value and event-id header alone |
| Routing.SameMarkSameRow | internal/service/router/service.go:84-97 | one Redis key never stands for two rows |
| Routing.RoutedTopicInjective | internal/constant/constant.go:22-24 | with a template that has its verb, different callers get different topics |
| Routing.TopicFillsTemplate | internal/constant/constant.go:22-24 | a template with one verb is what stands before and after it, and the topic has the caller between them |
| Routing.VerbsAreCounted | internal/config/config.go:299-303 | the verbs of a template are the places where it has the two characters |
| Kafka.RecordHeader | internal/app/consumer.go:201-208 | the first value under a name, or the empty text |
| Consumer.Handle | internal/service/router/service.go:63-157 | permanent exactly for condemned events and then without touching anything; otherwise check, insert, mark in this order, with the key, id and row that the record determines; with Redis it stops only after a check or an insert that failed, the record still next, and without Redis always |
| Consumer.Compose | internal/service/router/service.go:112-137 | the row written is the event with three fields overwritten |
| Consumer.HandleProcessedRecord | internal/app/consumer.go:154-198 | the record ends delivered or in the DLQ as its contents say, and only then may be committed; otherwise it is still the next, and one call has failed, or it is to be routed and there is no Redis, or it is to be dead-lettered and the process is cancelled |
| Consumer.CommitPending | internal/app/consumer.go:145-152 | flushes every partition the library's flush goes through, only as its policy allows, and nothing follows but flushes |
| Consumer.WorkOffBatch | internal/app/consumer.go:125-140 | the records of a batch in order, each dealt with and then committed; it does not get to the end only if one call has failed or the process is cancelled, and then it has flushed |
| Consumer.RunConsumer | internal/app/consumer.go:116-141 | the process's own steps follow its control flow - no commit but after its record is dealt with, nothing but flushes after a failure - and each is a call that was made and had the effect the protocol says; it polls on and works off each batch until one call fails or it is cancelled |
| Publisher.Assemble | internal/service/outbox/service.go:85-111 | the record published for a row is its rendering: its topic and payload, keyed by the payload's reference or, for want of one, the aggregate id |
| Publisher.PublishEvent | internal/service/outbox/service.go:69-141 | one attempt and one mark, of success only after a success, with the capped backoff from the clock otherwise; it reports an error exactly if a call failed, and the worker goes on to the next event |
| Publisher.PublishPending | internal/service/outbox/service.go:43-67 | the tick's own steps are one claim, under the worker's name and the limit the batch size becomes, and then one attempt and one mark for each claimed event in turn, whatever becomes of the others; it fails exactly if its one claim call failed, as with a negative limit, and no attempt or mark fails but by a call that failed |
| Publisher.RunWorker | internal/app/worker.go:77-93 | every tick is such a tick of at most 100 events under the instance's name, as many ticks as claim calls have failed did nothing, attempts refused are as many as publish calls that failed, and ticks go on after failed ones |
| Assurance.CommittedOffsetsAreSafe | internal/app/consumer.go:129-139 | in the world the programs run in, a committed record is in the DLQ or (without retention) has its row now |
| Assurance.TopicsAreRoutedOnce | internal/service/router/service.go:90-148 | in that world the topics are routed once and the rows are the simple form's |
| Assurance.DeadLettersAreDeserved | internal/app/consumer.go:172-197 | in that world only condemned records are in the DLQ |
| RateLimiter.KeyInjective | internal/server/auth.go:103 | the counter key determines caller and window, since valid names have no colon |
| RateLimiter.SurvivalIff | internal/server/auth.go:101-116 | no counter in use is ever reset, in all runs, if and only if skew plus delay is at most every window |
| RateLimiter.NoReset | internal/server/auth.go:105-116 | within that bound every increment finds all earlier ones of its window still counted |
| RateLimiter.LateRunResets | internal/server/auth.go:110-116 | a concrete run beyond the bound loses a count |
| RateBound.WindowAdmits | internal/server/auth.go:105-122 | admitted submits of a window are exactly min(budget, increments) + submits Redis did not count + unanswered increments over the budget |
| RateBound.StretchAdmits | internal/server/auth.go:95-122 | any stretch of length L admits at most (⌈L/W⌉ + 1)·budget besides what failed open |
| RateBound.BudgetIsShared | internal/server/auth.go:78-80 | both bounds hold over all replicas while skew plus delay is at most every window |
| RateBound.NoInterference | internal/server/auth.go:103 | a caller's counters are the same as if no other caller had been there |
| RateBound.RetryAfterIsHonest | internal/server/auth.go:117-121 | waiting the told seconds from the second clock reading ends in a later window, whatever that reading |
| RateBound.WaitEndsTheWindow | internal/server/auth.go:117-120 | the unrounded wait ends exactly where the next window begins |
| RateBound.RetryAfterRounds | internal/server/auth.go:164-172 | the told seconds cover the wait and exceed it by less than one, the minimum of one second aside |
| RateBound.WaitTellsTheWindow | internal/server/auth.go:117-120 | the unrounded wait is in (0, W] exactly if both readings are in one window |
| Registry.ValidMeansFaultless | internal/config/config.go:294-333 | the single checks together mean exactly a valid configuration |
| Registry.NameAndHashIff | internal/config/config.go:306-318 | which characters a caller's name and a key hash are made of |
| Registry.AuthenticatedIsConfigured | internal/server/auth.go:53-59 | whoever authenticates is known and has the positive limit configured under the very key presented |
| Registry.AllKnownIff | internal/server/auth.go:70-76 | the known callers are the configured ones if and only if key hashes are distinct |
| Registry.KnownIff | internal/server/auth.go:40-48 | known are exactly the callers whose key hash no later one repeats |
| Registry.SharedKeyShadows | internal/config/config.go:306-318 | of two callers with one key hash the earlier is unknown |
| Registry.ShadowedCannotAuthenticate | internal/server/auth.go:53-59 | and no key authenticates as it |
| Registry.SharedKeyIsAccepted | internal/config/config.go:306-333 | a concrete configuration with one key hash for two callers is valid |
| Registry.RoutedIffKeyIsLast | internal/service/router/service.go:72-93 | for every record: it is routed if and only if it is accepted, its header fits, its identifiers are proper and it names a configured caller whose key hash no later caller has; all others are dead-lettered |
| Registry.LastNameWins | internal/server/grpc_server.go:29-32 | of several entries with one name the index of limits holds the last |
| Registry.LimitsAreOwn | internal/server/grpc_server.go:29-32 | with distinct names, limits has every caller's own entry and nothing else |
| Registry.SubmitIff | internal/service/gateway/service.go:51-96 | a submit is forwarded if and only if the presented key is configured, the four required fields are there and the document type is the caller's; the engine is asked for just what was submitted, under the schema and name configured for that key; and when it is refused for which reason |
| Registry.SubmitFindsItsWayBack | internal/service/gateway/service.go:51-96 | the event that echoes a forwarded submit is routed to the submitting caller's topic under the submit's own reference |
| Registry.TopicsAreOwn | internal/constant/constant.go:22-24 | two keys answered on one topic have one hash and one caller |
| Registry.BudgetsAreKnown | internal/config/config.go:319-324 | exactly the configured callers have budgets, each its own requests and window, positive and with names the rate limiter can key by |
| Config.ParseCallers | internal/config/config.go:165-200 | decodes every caller field by field, with the hash in lower case and a zero limit for want of one, or names the first whose window is no duration |
| Config.DigestIsAccepted | internal/config/config.go:184-190 | a hexadecimal digest is accepted however its letters are written |
| Config.Validate | internal/config/config.go:294-335 | lists every fault and no other, none exactly for a valid configuration |
| Auth.CallerRegistry.constructor | internal/server/auth.go:40-49 | builds the index in which the last caller of a hash wins |
| Auth.CallerRegistry.Find | internal/server/auth.go:53-59 | the caller that the key's digest stands for |
| Auth.CallerRegistry.Knows | internal/server/auth.go:70-76 | whether any indexed caller has the name |
| Auth.IndexLimits | internal/server/grpc_server.go:29-32 | builds the index of limits by name |
| Auth.Limiter.Allow | internal/server/auth.go:95-122 | lets a submit through exactly if the shared log admits it under the limit passed in, leaves the log with this increment and the first one's TTL in a possible order, fails open, and rejects with the time left |
| Auth.LogKeepsBudget | internal/server/auth.go:78-80 | whatever log such calls have made, both budget bounds hold of it while skew plus delay is at most every window |
| Auth.FirstCountGetsItsTtl | internal/server/auth.go:110-116 | a window's first answered increment gets its TTL, whatever others do before: two windows later its counter is gone |
| Auth.Authenticate | internal/server/auth.go:143-178 | the decision for every call: a submit is rejected exactly if Redis has counted it beyond the requests configured for its caller, and then until the configured window ends; Redis is touched only by submits of identified callers |
| Auth.IdentifiedIff | internal/server/auth.go:143-156 | identified are the calls whose first key is not empty and has a configured digest |
| Auth.EveryCallerHasALimit | internal/server/auth.go:158-161 | under a valid configuration the missing-limit error does not occur |

## Left out

- The libraries: Kafka client, pgx, go-redis, gRPC, SHA-1 and SHA-256, UUID parsing, RFC 3339 and duration parsing are
  functions or nondeterministic calls with the assumptions named above.
- JSON text: a record value arrives with every object member already resolved to its field, so case-insensitive and
  duplicate keys are the decoder's business; unknown fields are dropped as in the source. JSONB normalisation is identity
  on values here.
- Permanent database refusals of a row (a topic over 255 characters, text PostgreSQL cannot store): they are insert
  failures like any other, so such a record stalls its partition and is not lost, as in the source.
- Transactions inside the database: each SQL statement is one atomic step; rows locked by another transaction are the
  claim's `skip` set.
- Publish order: RETURNING promises none and backoff changes it, so no order between rows is claimed.
- OpenTelemetry headers on published records, which differ between attempts; logging, metrics, tracing, health probes.
- Producer retries inside the Kafka client: one publish may put one copy or none into the topic; copies the client
  duplicates itself would be identical and change nothing in the collapsed topic.
- Template verbs other than `%s` and escaped percent signs in the routed topic template.
- Floating point in retry-after: `retryAfter.Seconds()` is a float64; the model divides exactly. The two can differ only
  for waits of months, where a float64 no longer resolves nanoseconds.
- Sub-microsecond parts of times that a TIMESTAMPTZ column or a Redis TTL cuts off.
- Configuration outside the gateway section, Get, error translation, generated code, process start-up and shutdown wiring:
  they would add only easy members.
- Cancellation as such: a call cut short by it is a call that failed; the consumer looks for it only where the source does,
  after a poll that failed and after an event was refused for good.
- RunConsumer: the loop is modelled up to any number of polls, which covers every finite part of the endless one.
- RunWorker: the same for ticks; that a tick comes once a second is assumed only where a lemma says so.
- ToLower: non-ASCII characters stay as they are; no such character becomes a hexadecimal digit.
- NoStarvation: one worker, ticks at one instant each and all marks applied, as its statement says; with several workers
  or lost marks a failing row may hold a place for the length of a lease.
- EveryOutboxDrains: others bring in no rows while the outbox drains, and each tick before which they do anything counts as
  disturbed; a tick happens at one instant, its claim finds no row locked by another transaction, and time passes only by
  the second between ticks.
