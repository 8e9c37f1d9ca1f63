# verification-service in Dafny

A model of the verification service: a small CQRS application that creates
verifications (of an identity or a document) and then approves or declines
them. The model covers:

- the verification aggregate and its value objects;
- the three domain services built on it (create, approve, decline);
- the command and query messages and their handlers;
- the in-memory command and query buses, with the registrations made at start-up;
- the mapping between the aggregate and its database row;
- the two generic helpers, `Contains` and `LcFirst`.

One module per component:

| file | module | models |
|---|---|---|
| prelude.dfy | `Prelude` | `Option`, `Result`, `byte`, `uint32` |
| errors.dfy | `Errors` | every sentinel error as one `Error` constructor; wrapped errors carry the added text |
| utils.dfy | `Utils` | `Contains` (a loop); `LcFirst` on bytes, with UTF-8 decoding of the first rune |
| uuid.dfy | `Uuid` | the strings `uuid.Parse` accepts, and `UUID.String()` |
| aggregate.dfy | `Aggregate` | value objects as validating functions; the aggregate's state machine as pure step functions; the class `Verification`, whose methods update its fields in place and are proved against those functions |
| model.dfy | `Model` | `SqlVerification`, `ToSQLVerification`, `ToDomainVerification` and the corrected restore |
| repository.dfy | `Repository` | an in-memory table of rows, with the observable rules of the PostgreSQL adapter |
| service.dfy | `Service` | the three services, as methods and as functions saying what they do to the table |
| command.dfy | `Command` | commands, type tags, handlers |
| query.dfy | `Query` | the lookup query and its handler |
| bus.dfy | `Bus` | `InMemoryCommandBus`, `QueryBus`, and the start-up wiring |

Every state-changing operation is a method on a class (or on a datatype over
one) with a `modifies` frame. It is specified by a pure function of the state
before the call:

- aggregate methods: `ensures Step(State(), err) == ApproveStep(old(State()))`;
- services, handlers and buses: `ensures Write(repo.State(), err) == ApproveOutcome(old(repo.State()), uuid, ReadAt(now))`, and so on.

Reading a row back takes a `ReadClock`. `ReadAt(now)` rebuilds the aggregate
at the clock reading `now`, as the adapter does. `KeepCreatedAt` keeps the
row's own creation time; it is the corrected read. The methods use
`ReadAt(now)`. The lemmas are stated for both clocks, or for each separately.

The properties the source promises are proved as lemmas about those functions.
Among them:

- approved and declined are final;
- at most one transition ever succeeds;
- the decline reason is set exactly when the status is declined;
- identity fields never change;
- rows round-trip through the mapping;
- a service writes the table only after a successful transition, and only that row: with the corrected read only its status (and reason); as written also its creation time;
- the start-up wiring routes each command to its own service.

## Model

| member | source | states |
|---|---|---|
| `Utils.Contains` | internal/infrastructure/utils/utils.go:6-14 | true exactly when some element of the slice equals the needle, so false on an empty slice |
| `Utils.DecodeFirst` | internal/infrastructure/utils/utils.go:18 | the first rune the range loop sees and its width: 1 to 4 bytes, no more than the string holds, always a valid rune; an ASCII byte decodes to itself with width 1 |
| `Utils.Encode` | internal/infrastructure/utils/utils.go:19 | `string(rune)` produces between one and four bytes; `DecodeEncode` shows they decode back to the rune |
| `Utils.DecodeEncode` | internal/infrastructure/utils/utils.go:19 | decoding the UTF-8 encoding `string(rune)` produces gives back that rune and its width, whatever bytes follow |
| `Utils.ToLower` | internal/infrastructure/utils/utils.go:19 | lower-casing keeps runes valid, moves A–Z to a–z and leaves every other ASCII character alone |
| `Utils.LcFirst` | internal/infrastructure/utils/utils.go:17-23 | the code as written; the empty string maps to the empty string |
| `Utils.LcFirstAscii` | internal/infrastructure/utils/utils.go:18-19 | on a string whose first byte is ASCII: same length, first character lowered, every later byte unchanged |
| `Utils.LcFirstKeepsContinuationByte` | internal/infrastructure/utils/utils.go:19 | on "Éa" the code as written returns C3 A9 89 61, which is not what the corrected version returns |
| `Utils.LcFirstCorrected` | internal/infrastructure/utils/utils.go:17-23 | the result starts with the encoding of the lowered first rune and continues with exactly the bytes after the whole first rune |
| `Utils.LcFirstAgreesOnSingleByteRune` | internal/infrastructure/utils/utils.go:18-19 | the code as written and the corrected version agree exactly when the first rune is one byte wide; on a wider first rune the code as written returns a longer string |
| `Uuid.UuidChar` | internal/domain/verification/service/create.go:24 | each character of `uuid.String()` is a hyphen at positions 8, 13, 18 and 23 and a hex digit everywhere else |
| `Uuid.UuidString` | internal/domain/verification/service/create.go:24 | the string form of every UUID is in canonical form and is accepted by `uuid.Parse` |
| `Uuid.RejectsMalformed` | internal/domain/verification/aggregate/verification.go:36-39 | the empty string, "invalid-uuid", "invalidUuid" and a canonical string one digit short are rejected |
| `Uuid.AcceptsVariants` | internal/domain/verification/aggregate/verification.go:36-37 | around any canonical string the parser also accepts a "urn:uuid:" prefix in any letter case, and braces |
| `Aggregate.NewVerificationUuid` | internal/domain/verification/aggregate/verification.go:36-42 | succeeds exactly on strings `uuid.Parse` accepts and keeps the string as given; otherwise the invalid-uuid error naming the string |
| `Aggregate.NewVerificationKind` | internal/domain/verification/aggregate/verification.go:62-68 | succeeds exactly on "identity" and "document", with `Value()` the input; otherwise the invalid-kind error |
| `Aggregate.NewVerificationDescription` | internal/domain/verification/aggregate/verification.go:83-89 | fails exactly on "" with the empty-description error; otherwise `Value()` is the input |
| `Aggregate.NewVerificationStatus` | internal/domain/verification/aggregate/verification.go:110-116 | succeeds exactly on "draft", "approved" and "declined", with `Value()` the input; otherwise the invalid-status error |
| `Aggregate.NewVerificationDeclineReason` | internal/domain/verification/aggregate/verification.go:131-137 | fails exactly on "" with the empty-decline-reason error; otherwise `Value()` is the input |
| `Aggregate.ValueObjectsRoundTrip` | internal/domain/verification/aggregate/verification.go:62-121 | the text of every kind and status is admitted again and gives back the same value, and different statuses have different texts |
| `Aggregate.Create` | internal/domain/verification/aggregate/verification.go:167-197 | checks the uuid, then the kind, then the description, and returns the first failure; on success a consistent draft with id zero, no decline reason, the given uuid, kind and description, and the clock reading as creation time |
| `Aggregate.ApproveStep` | internal/domain/verification/aggregate/verification.go:287-301 | a draft becomes approved with nothing else changed; any other status gives the already-processed error and no change |
| `Aggregate.DeclineStep` | internal/domain/verification/aggregate/verification.go:264-284 | the status is checked first: a non-draft gives already-processed even for an empty reason; a draft with an empty reason gives the empty-reason error and keeps status and reason; otherwise declined with that reason |
| `Aggregate.WithStatusStep` | internal/domain/verification/aggregate/verification.go:217-226 | any valid status is set, whatever the current one; an invalid one gives the error and changes nothing |
| `Aggregate.WithDeclineReasonStep` | internal/domain/verification/aggregate/verification.go:205-214 | a non-empty reason is set; an empty one gives the error and keeps the old reason |
| `Aggregate.RunPreservesInvariants` | internal/domain/verification/aggregate/verification.go:264-301 | after any sequence of approve and decline calls: the reason is non-empty exactly when declined, and id, uuid, kind, description and creation time are unchanged |
| `Aggregate.ProcessedIsFinal` | internal/domain/verification/aggregate/verification.go:264-301 | from approved or declined every call fails and nothing changes |
| `Aggregate.AtMostOneTransition` | internal/domain/verification/aggregate/verification.go:264-301 | from a draft at most one call succeeds, and none has succeeded exactly when the status is still draft |
| `Aggregate.Lifecycle` | internal/domain/verification/aggregate/verification.go:167-301 | for every aggregate `NewVerification` builds and every later sequence of calls, the invariants and identity fields hold and at most one call succeeds |
| `Aggregate.Verification.constructor` | internal/domain/verification/aggregate/verification.go:188-194 | the new object holds exactly the given state |
| `Aggregate.Verification.WithId` | internal/domain/verification/aggregate/verification.go:200-202 | sets the id and changes no other field |
| `Aggregate.Verification.WithDeclineReason` | internal/domain/verification/aggregate/verification.go:205-214 | updates the object as `WithDeclineReasonStep` says, touching only the reason |
| `Aggregate.Verification.WithStatus` | internal/domain/verification/aggregate/verification.go:217-226 | updates the object as `WithStatusStep` says, touching only the status |
| `Aggregate.Verification.Decline` | internal/domain/verification/aggregate/verification.go:264-284 | updates the object as `DeclineStep` says, touching only status and reason |
| `Aggregate.Verification.Approve` | internal/domain/verification/aggregate/verification.go:287-301 | updates the object as `ApproveStep` says, touching only the status |
| `Aggregate.Scenario` | internal/domain/verification/aggregate/verification.go:167-301 | on one object: creating succeeds, approving succeeds, a later decline is already-processed, and the object ends approved, with no reason and its identity fields as created |
| `Aggregate.NewVerification` | internal/domain/verification/aggregate/verification.go:167-197 | a new object holding the state `Create` gives when it succeeds; otherwise no object and `Create`'s error |
| `Model.ToSQLVerification` | internal/infrastructure/persistence/postgres/model/verification.go:31-45 | copies uuid, kind, description, status and creation time, leaves the id zero, and the row's decline reason equals the aggregate's, empty or not |
| `Model.ToDomainState` | internal/infrastructure/persistence/postgres/model/verification.go:48-72 | an invalid uuid, kind or description fails wrapped as a restoring failure; then an invalid status fails unwrapped; otherwise the row's id, uuid, kind, description, status and reason (empty tolerated), with the clock reading as creation time |
| `Model.ToDomainVerification` | internal/infrastructure/persistence/postgres/model/verification.go:48-72 | building and then `WithId`, `WithStatus`, `WithDeclineReason` on the object gives exactly the state `ToDomainState` describes, or its error |
| `Model.RoundTrip` | internal/infrastructure/persistence/postgres/model/verification.go:31-72 | a consistent aggregate written and read back keeps uuid, kind, description, status and reason; the id becomes zero and the creation time becomes the clock reading |
| `Model.RowRoundTrip` | internal/infrastructure/persistence/postgres/model/verification.go:31-72 | a row that restores, written back, is the same row but for the id and the creation time |
| `Model.RestoredConsistency` | internal/infrastructure/persistence/postgres/model/verification.go:59-71 | a restored row is consistent exactly when it has a decline reason if and only if it is declined |
| `Model.ReloadResetsCreatedAt` | internal/infrastructure/persistence/postgres/model/verification.go:48-53 | restoring at any other time than the row's creation time and writing back changes the stored creation time |
| `Model.Restore` | internal/infrastructure/persistence/postgres/model/verification.go:48-72 | the corrected restore keeps the row's creation time, and writing the result gives the row back but for the id |
| `Model.ReadTimeOnlyStampsCreatedAt` | internal/infrastructure/persistence/postgres/model/verification.go:48-53 | restoring at whatever time a read clock gives succeeds exactly when the corrected restore does, and differs from it only in the creation time |
| `Model.RestoreRoundTrip` | internal/infrastructure/persistence/postgres/model/verification.go:31-72 | with the corrected restore the round trip is exact but for the id, in both directions |
| `Repository.AddOutcome` | internal/infrastructure/persistence/postgres/verification_repository.go:34-52 | succeeds exactly when writes work, the uuid is new and ids remain; then the row is inserted under its uuid with the next id; every failure is a persist failure (carrying the database's own error when writes fail) and leaves the table as it was |
| `Repository.UpdateOutcome` | internal/infrastructure/persistence/postgres/verification_repository.go:55-75 | fails exactly when writes fail, with a persist failure carrying the database's error; the row with the aggregate's uuid is replaced, keeping its id; with no such row nothing changes |
| `Repository.Lookup` | internal/infrastructure/persistence/postgres/verification_repository.go:78-103 | the database's read error, not-found naming the uuid, or the row restored at the time the read clock gives (the corrected restore under `KeepCreatedAt`); on a well-formed table a stored row always restores to a consistent aggregate with that uuid and that creation time, whose row is the stored one but for the id and the creation time |
| `Repository.WritesPreserveWellFormed` | internal/infrastructure/persistence/postgres/verification_repository.go:34-75 | writes of consistent aggregates keep every row under its own uuid and restorable to a consistent aggregate |
| `Repository.AddThenLookup` | internal/infrastructure/persistence/postgres/verification_repository.go:34-103 | while reads work, what was added is read back as the same aggregate carrying the id the table assigned and the creation time the read clock gives |
| `Repository.UpdateThenLookup` | internal/infrastructure/persistence/postgres/verification_repository.go:55-103 | after updating a stored uuid, reading it back gives the written aggregate with the row's id and the creation time the read clock gives |
| `Repository.VerificationRepository.constructor` | internal/infrastructure/persistence/postgres/verification_repository.go:26-31 | a new repository wraps an existing database: its table holds exactly the given initial contents, rows, sequence and faults alike |
| `Repository.VerificationRepository.SetFaults` | internal/infrastructure/persistence/postgres/verification_repository.go:47-49 | the database now fails reads and writes as the arguments say (the `ExecContext` errors here and at lines 70-72, the `QueryRowContext` error at lines 91-98); rows and id sequence are unchanged |
| `Repository.VerificationRepository.Add` | internal/infrastructure/persistence/postgres/verification_repository.go:34-52 | changes the table as `AddOutcome` says |
| `Repository.VerificationRepository.Update` | internal/infrastructure/persistence/postgres/verification_repository.go:55-75 | changes the table as `UpdateOutcome` says |
| `Repository.VerificationRepository.GetByUuid` | internal/infrastructure/persistence/postgres/verification_repository.go:78-103 | changes nothing; rebuilds the row with `ToDomainVerification` at clock reading `now`, and returns a new object holding the state `Lookup` gives under `ReadAt(now)`, or its error |
| `Service.CreateOutcome` | internal/domain/verification/service/create.go:23-30 | kind is checked before description, because the arguments are swapped on the way in; a construction error is returned with the table untouched; otherwise `Add` of the draft built from the uuid's string form, and on success the table gains exactly that row |
| `Service.ApproveOutcome` | internal/domain/verification/service/approve.go:21-37 | invalid uuid, lookup error and already-processed are returned with the table untouched; a draft loaded under the read clock is written back approved through `Update`, and `Update`'s result is returned |
| `Service.DeclineOutcome` | internal/domain/verification/service/decline.go:21-37 | invalid uuid, lookup error, already-processed and empty reason are returned with the table untouched; a draft loaded under the read clock is written back declined with the reason, and `Update`'s result is returned |
| `Service.ApproveWritesOnlyAfterTransition` | internal/domain/verification/service/approve.go:32-36 | on a well-formed table, for either read clock: approval succeeds exactly when the uuid is valid and stored, the row is a draft, and reads and writes work; a failure leaves the table as it was; a success rewrites only that row, setting its status to approved and its creation time to what the read clock gives |
| `Service.DeclineWritesOnlyAfterTransition` | internal/domain/verification/service/decline.go:32-36 | on a well-formed table, for either read clock: declining succeeds exactly when the uuid is valid and stored, the row is a draft, the reason is non-empty, and reads and writes work; a failure leaves the table as it was; a success rewrites only that row's status, reason and, as the read clock gives it, creation time |
| `Service.ApproveKeepsCreatedAt` | internal/domain/verification/service/approve.go:32-36 | with the corrected read, a successful approval changes only the row's status |
| `Service.DeclineKeepsCreatedAt` | internal/domain/verification/service/decline.go:32-36 | with the corrected read, a successful decline changes only the row's status and reason |
| `Service.ApproveRewritesCreatedAt` | internal/domain/verification/service/approve.go:27-36 | as written, a successful approval at clock reading `now` stores `now` as the row's creation time, so the row differs from a status-only update whenever `now` is not the original creation time |
| `Service.DeclineRewritesCreatedAt` | internal/domain/verification/service/decline.go:27-36 | as written, a successful decline at clock reading `now` stores `now` as the row's creation time |
| `Service.ApproveReportsWriteFault` | internal/domain/verification/service/approve.go:32-36 | when reads work but writes fail, approving a stored draft returns the persist failure carrying the write error and leaves the table as it was |
| `Service.DeclineReportsWriteFault` | internal/domain/verification/service/decline.go:32-36 | likewise for declining a stored draft with a non-empty reason |
| `Service.CreatePreservesWellFormed` | internal/domain/verification/service/create.go:23-30 | create keeps the table well formed |
| `Service.ApprovePreservesWellFormed` | internal/domain/verification/service/approve.go:21-37 | approve keeps the table well formed, for either read clock |
| `Service.DeclinePreservesWellFormed` | internal/domain/verification/service/decline.go:21-37 | decline keeps the table well formed, for either read clock |
| `Service.CreateVerificationService.Create` | internal/domain/verification/service/create.go:23-30 | changes the table as `CreateOutcome` says and returns its error |
| `Service.ApproveVerificationService.Approve` | internal/domain/verification/service/approve.go:21-37 | changes the table as `ApproveOutcome` under `ReadAt(now)` says and returns its error |
| `Service.DeclineVerificationService.Decline` | internal/domain/verification/service/decline.go:21-37 | changes the table as `DeclineOutcome` under `ReadAt(now)` says and returns its error |
| `Command.Command.Type` | internal/application/verification/command/create.go:31-33 | each of the three commands carries its own tag (approve.go:26-28 and decline.go:27-29 likewise), and a tag belongs to another command only when that command borrows it |
| `Command.CommandTypesIdentify` | internal/application/verification/command/create.go:12-33 | the three commands' `Type()` tags are equal exactly for commands of the same kind (in approve.go and decline.go as in create.go) |
| `Command.HandleOutcome` | internal/application/verification/command/create.go:48-60 | a handler given a command of another type returns unexpected-command naming its tag and touches nothing; otherwise it returns exactly its service's outcome on the command's fields, approve and decline reading at the clock reading `now` (likewise approve.go:43-50 and decline.go:44-55) |
| `Command.CommandHandler.Handle` | internal/application/verification/command/approve.go:43-50 | changes its service's table as `HandleOutcome` says |
| `Command.HandlePreservesWellFormed` | internal/application/verification/command/decline.go:44-55 | whatever command a handler is given, its table stays well formed |
| `Query.Query.Type` | internal/application/verification/query/get.go:26-28 | the lookup query carries its own tag, which another query has only by borrowing it |
| `Query.Answer` | internal/application/verification/query/get.go:43-55 | another query type is unexpected-query; then an invalid uuid is the invalid-uuid error; otherwise exactly the repository's lookup result under the read clock |
| `Query.AnswerIsStoredVerification` | internal/application/verification/query/get.go:49-54 | on a well-formed table: a query succeeds exactly when the database works and the uuid is stored, the answer is consistent, carries that uuid, the row's id and the creation time the read clock gives, and each failure is one of the four the handler passes on |
| `Query.QueryHandler.Handle` | internal/application/verification/query/get.go:43-55 | reads only, and returns a new object holding `Answer`'s state under `ReadAt(now)`, or its error |
| `Bus.DispatchOutcome` | internal/infrastructure/bus/in_memory_command_bus.go:19-26 | an unregistered tag is handler-not-found naming it and writes nothing; a registered tag is exactly that handler's outcome |
| `Bus.AskOutcome` | internal/infrastructure/bus/query_bus.go:23-30 | an unregistered tag is handler-not-found naming it; a registered tag is exactly the handler's answer read at clock reading `now` |
| `Bus.BootstrapRoutes` | cmd/api/bootstrap/bootstrap.go:55-57 | with the start-up wiring each command reaches its own service on the shared table; any other command with one of the three tags is unexpected, and with any other tag unroutable |
| `Bus.BootstrapAnswers` | cmd/api/bootstrap/bootstrap.go:59 | with the start-up wiring the lookup query is answered from the shared table and any other tag is unroutable |
| `Bus.CreateApproveDecline` | cmd/api/bootstrap/bootstrap.go:40-59 | through the wired buses, on any working table that does not yet hold the uuid, each step at its own clock reading: a verification created at t0 is approved by its uuid string at t1, a decline at t2 is already-processed and writes nothing, the stored creation time is now t1, every earlier row is kept, and a query at t3 reports it approved with the id the sequence stood at and creation time t3 |
| `Bus.InMemoryCommandBus.constructor` | internal/infrastructure/bus/in_memory_command_bus.go:13-17 | a new bus has no handlers |
| `Bus.InMemoryCommandBus.Register` | internal/infrastructure/bus/in_memory_command_bus.go:28-30 | the tag now maps to the handler, replacing any earlier one; other tags are unchanged |
| `Bus.InMemoryCommandBus.Dispatch` | internal/infrastructure/bus/in_memory_command_bus.go:19-26 | keeps the handler map, writes only the routed handler's table, and does what `DispatchOutcome` says |
| `Bus.QueryBus.constructor` | internal/infrastructure/bus/query_bus.go:16-20 | a new bus has no handlers |
| `Bus.QueryBus.Register` | internal/infrastructure/bus/query_bus.go:33-35 | the tag now maps to the handler, replacing any earlier one; other tags are unchanged |
| `Bus.QueryBus.Ask` | internal/infrastructure/bus/query_bus.go:23-30 | changes nothing; an unregistered tag is handler-not-found; otherwise the registered handler's object or error |
| `Bus.Bootstrap` | cmd/api/bootstrap/bootstrap.go:40-59 | new buses and a repository over the given initial table, with exactly the start-up registrations |

## Left out

- `uuid.Parse` is a concrete predicate rather than an opaque one, so that the string form of a UUID can be proved valid rather than assumed. It follows google/uuid's four accepted lengths: 36 (canonical), 45 (`urn:uuid:` prefix), 38 (two arbitrary outer characters, which the library does not check) and 32 (bare hex). Lengths are counted in characters, not bytes. Every checked position must hold an ASCII character, so the two counts agree on the accepted strings.
- `Utils.ToLower`: knows the case mapping of ASCII and of the Latin-1 capitals U+00C0–U+00DE only; every other rune is treated as its own lower case. The full Unicode tables of `unicode.ToLower` are not modelled.
- `Utils.LcFirst`: its range loop always returns on its first iteration, so it is modelled as a function on the first decoded rune, not as a loop.
- `time.Now()` is a parameter `now: Instant` of the operations that read the clock.
- Context arguments, database timeouts and cancellation are not modelled.
- The `log.Println` in `Approve` is not modelled.
- Concurrent callers are not modelled. In particular, two concurrent approve/decline calls can race on the read-modify-write.
- The PostgreSQL adapter's SQL building and `database/sql` calls are replaced by an in-memory table of rows. It keeps the observable rules: `Update` matches by uuid, and a missing row on lookup is not-found.
- The schema is not available, so the model assumes five things about it:
  - the uuid column is unique, so a second `Add` with the same uuid is a persist failure;
  - an `UPDATE` that matches no row succeeds silently;
  - the uuid column is compared and returned as exact text. `WHERE uuid = $1` (verification_repository.go:63 and :82) finds a row only under the very string it was stored with. With a PostgreSQL `uuid` column, an upper-case, braced or hyphen-less spelling that `uuid.Parse` accepts would find the canonical row. A "urn:uuid:" spelling would be a database error rather than not-found;
  - ids are consecutive over successful inserts, from where the sequence stands up to a last value after which inserts fail;
  - a rejected duplicate insert leaves the sequence where it was. A PostgreSQL sequence default is drawn before the unique check and is not rolled back, so there a rejected duplicate would use up an id.
- `Repository.VerificationRepository.constructor` and `Bus.Bootstrap` take the table's initial contents as a parameter. The model does not say what earlier runs left in the database.
- A failing database is modelled by two values, `readFault` and `writeFault`, which the `SetFaults` method sets. A read can work and the following write fail. The model does not say when a fault occurs.
- `errors.Is` and message text are not modelled. Where the source wraps with `fmt.Errorf`, the constructor carries the added detail. `ErrVerificationPersistFailed` is formatted with `%s`, not `%w` (verification_repository.go:48 and :71), so `errors.Is` against it is false and matches only the database's error. The model records it as `VerificationPersistFailed(cause)`. `ErrFailedRestoringVerificationFromDatabase` is also formatted with `%s`, and the model records it as `RestoringFailed(reason)`.
- The interfaces of internal/application/shared/bus declare no behaviour. Their tags and errors are reused.
- The HTTP handlers, JSON encoding, request validation, server lifecycle, configuration and migrations are not part of this model.
- Go's dynamic typing of bus messages becomes a closed datatype. `OtherCommand(tag)` and `OtherQuery(tag)` stand for any other type implementing the interface.

## Findings

| source | as written | input that shows it | evidently intended | confidence | as-written member | corrected member |
|---|---|---|---|---|---|---|
| internal/infrastructure/persistence/postgres/model/verification.go:49-53 | `ToDomainVerification` builds the aggregate with `NewVerification`, which stamps `time.Now()`, and never restores `created_at`. The approve and decline services then `Update` every column of the create tag, `created_at` included. | Any stored row whose `CreatedAt` differs from the clock reading at the time it is approved or declined | A restored aggregate keeps the row's creation time (`Model.Restore`, the `KeepCreatedAt` read), and `Update` leaves it unchanged | not executed | `Service.ApproveRewritesCreatedAt` | `Service.ApproveKeepsCreatedAt` |
| internal/infrastructure/utils/utils.go:19 | `str[i+1:]` drops one byte after the first rune instead of the whole rune | "Éa" (bytes C3 89 61) becomes C3 A9 89 61: "é" followed by a stray continuation byte, which is not valid UTF-8 | Cut after the whole first rune, giving "éa" (C3 A9 61) | not executed | `Utils.LcFirstKeepsContinuationByte` | `Utils.LcFirstCorrected` |
