# Company service: the transactional outbox, modelled and proved

This project models how the company service changes its `companies` table, records an event for every
change in `outbox_events` within the same transaction, and publishes those events later from a separate
loop. It is written for Dafny 4.11; `dafny verify dfyconfig.toml` covers the whole project.

## What is modelled

Two layers describe the same protocol.

**The code, in its own shape.** `Domain` has the mutable `Company` with its field-by-field `ApplyPatch` and the
validators that fill a map of field errors. `Database` has begin, commit, rollback and statement execution with
a workspace for the open transaction; `TransactionManager` is `WithinTransaction`, cut in two at the call of the
function it is given. `Nesting` runs arbitrary towers of such calls. `Repositories`, `ServiceLayer` and
`PublisherLoop` are the repositories, the service and the publisher, with the loops of the source. Every
database call may fail, the producer may refuse any event, and a commit that reports an error may or may not
have taken effect. `Database.faults` counts the calls that fail for no reason in the tables, and where none
does, the contracts say exactly which calls succeed and which errors the others report. What the SQL statements
do, constraints included, is written once, in `Tables.Run`.

**Every interleaving.** `Steps` is a state machine of any number of service transactions and publisher
batches over one READ COMMITTED database. A step is a begin, a read, a row write (which takes the row lock
and the entries of the name index), the stamping and storing of the event, a fetch with
`FOR UPDATE SKIP LOCKED`, one send, one mark, a commit, or an abort at any point. A crash is the abort of the
transactions it cuts off. A step that would wait for a lock is not enabled until the lock is free, and any
statement error is an abort. What the producer has acknowledged is never undone.

**From the code to the runs.** `Refinement` shows that what one service call or one batch commits and delivers
is reached by steps, from any reachable state in which no other uncommitted write is of the call's company or
holds its names, or with whatever rows other publishers have locked. `Progress` says of every kind of step
exactly when it can be taken, so that what is proved of all runs is proved of every overlap the database allows.
`Sessions` calls the methods themselves: after any sequence of service calls and batches over one database, with
failures, refusals, rolled-back batches and doubtful commits, the committed tables and the deliveries are those
of a reachable state. What holds of every reachable state therefore holds after every such sequence. Calls that
overlap statement by statement are covered by `Steps` alone.

The main results, over all runs from the empty database:

- the table constraints and the domain rules hold of every committed state;
- each company's events form a prefix of (created updated* deleted)*, with stamps in commit order;
- the log replays to the table up to creation times; exactly, if and only if the last committed write about every
  company in it carried the creation time of the row it overwrote (`Generations`), which it does when the company
  was not created anew between the read and the commit, and, when creations have distinct times, only then;
- no row is in two open batches, deliveries are counted exactly, nothing committed is lost, and every row tells
  its history: how often it was refused, by whom last, why and until when, or by whom it was published;
- with one publisher and no producer failure, first deliveries follow commit order if and only if no event is sent
  past an older pending one of its company that was not available when the batch began (`Convergence`,
  `Guarantees`);
- in such runs, once nothing is pending, the last delivery about a company is its last commit if and only if the
  last send of that event passed nothing; if so for all companies, the delivered stream, with all its duplicates,
  replays to what the log replays to, and so to the table.

Rows that become available in the order of their company's stamps are enough for nothing to be passed, and so are
service transactions on a company that begin in the order in which they commit (`Turns`). `Limits` has concrete
runs in which one premise is missing and the conclusion fails.

## Time and identity

Time is an integer number of microseconds. There are two clocks that never run backwards: the application's,
which stamps events, and the database's, whose `now()` is the begin of the transaction. Where convergence and
first-delivery order need it, one company's events carry distinct stamps. UUIDs are natural numbers with 0 as
the nil UUID. The answers of `time.Now` and `uuid.New` are parameters; a repeated event id is an error of the
insert. A service call is made with a context that carries no transaction, as the HTTP handlers make it.

## Model

| member | source | states |
|---|---|---|
| Text.TrimSpaceCut | internal/domain/company/company.go:43-44 | trimming cuts out a slice with only white space on both sides and none at its ends |
| Text.TrimSpaceIsTheOnlyCut | internal/domain/company/company.go:43-44 | no other text can be cut out that way |
| Text.PaddingIsTrimmed | internal/domain/company/company.go:43-44 | a text padded with white space on both sides is trimmed to the text |
| Text.SpacesByCodePoint | internal/domain/company/company.go:43-44 | the code points that count as white space |
| Domain.ValidIffNoFieldErrors | internal/domain/company/company.go:59-71 | validation reports no field exactly when every rule of the domain holds |
| Domain.ReportedInWords | internal/domain/company/company.go:133-159 | which fields are reported when, and with which words |
| Domain.NewWithID | internal/domain/company/company.go:39-57 | succeeds exactly on an id, a trimmed name of 1 to 15 characters, a description of at most 3000, no negative employees and one of the four types, and then holds its input field by field |
| Domain.RowIsMadeOfItsFields | internal/domain/company/company.go:39-57 | the fields of a valid row give that row back |
| Domain.Company.ApplyPatch | internal/domain/company/company.go:73-123 | for every patch and company, field by field: what has been assigned when the call succeeds or fails, and which error is reported; which patches a stored company accepts |
| Domain.FullPatchMakesTheRow | internal/domain/company/company.go:73-123 | a patch of every field turns any row into the one it was taken from, but for identity and times |
| Domain.OneFieldPatches | internal/domain/company/company.go:73-123 | a patch of one field sets that field and no other |
| Domain.PatchOkInWords | internal/domain/company/company.go:73-123 | which patches have valid fields |
| Domain.PatchAcceptedIffFieldsOk | internal/domain/company/company.go:73-123 | on a stored company the final validation never adds a failure: acceptance depends on the patch's own fields |
| Domain.PatchSequenceIsOnePatch | internal/domain/company/company.go:73-131 | any number of accepted patches is one accepted patch, their right-biased merge |
| Database.TransactionManager.Leave | internal/infrastructure/postgres/transaction.go:38-51 | the outermost call commits the whole workspace or nothing, and commits it when no call breaks; a joined call does neither |
| Nesting.WithinTransaction | internal/infrastructure/postgres/transaction.go:28-51 | at any nesting depth, committed state changes only at the outermost commit, to the result of a function that ran through; when no call breaks, outcome and committed state are exactly those of the function |
| Nesting.NestingIsFlat | internal/infrastructure/postgres/transaction.go:28-31 | any tower of nested calls, whoever swallows an error, does what a flat sequence of its statements does |
| Nesting.SwallowedErrorKeepsItsWrite | internal/infrastructure/postgres/transaction.go:28-31 | what a nested call wrote before it returned an error that its caller swallows is what the outer call can commit, and nothing else |
| Nesting.FailureStays | internal/infrastructure/postgres/transaction.go:46-48 | a failed statement keeps the whole transaction from committing, even when a nested caller swallows its error |
| Repositories.CompanyRepository.Create | internal/infrastructure/postgres/company_repository.go:36-69 | what an insert commits, and when it succeeds or reports a taken id or name |
| Repositories.CompanyRepository.Update | internal/infrastructure/postgres/company_repository.go:71-94 | what an update commits, and when it succeeds or reports a missing company or a taken name |
| Repositories.CompanyRepository.Delete | internal/infrastructure/postgres/company_repository.go:96-113 | what a delete commits, and when it succeeds or reports a missing company |
| Repositories.CompanyRepository.GetByID | internal/infrastructure/postgres/company_repository.go:115-129 | answers the row that is there, and not found exactly when none is |
| Repositories.OutboxRepository.FetchPending | internal/infrastructure/postgres/outbox_repository.go:44-80 | the answer is a sorted selection of the oldest eligible rows that no other transaction has locked, at most the limit |
| Repositories.OutboxRepository.Store | internal/infrastructure/postgres/outbox_repository.go:23-42 | stores a copy of the company as it is at that moment |
| Repositories.OutboxRepository.MarkPublished | internal/infrastructure/postgres/outbox_repository.go:82-97 | sets the publication to now() and clears the error, and nothing else |
| Repositories.OutboxRepository.MarkFailed | internal/infrastructure/postgres/outbox_repository.go:99-115 | one attempt more, the error, and ten seconds from now(), and nothing else |
| Serial.EffectKeepsSerialOk | internal/application/company/service.go:46-133 | a serial change with its event keeps every invariant, and the log replays to exactly the table |
| Serial.PatchCheckMatchesWrite | internal/application/company/service.go:91-106 | after the name check on the trimmed name, a serial update can violate no unique constraint |
| ServiceLayer.Service.CreateCompany | internal/application/company/service.go:46-69 | commits exactly the row with the input's fields and its event, or nothing; when no call breaks, which inputs succeed and which fail with which error |
| ServiceLayer.Service.PatchCompany | internal/application/company/service.go:71-114 | all or nothing despite the partial mutation: field by field the patched row and one event with that same snapshot, or no change; when no call breaks, which patches succeed and which fail with which error |
| ServiceLayer.Service.DeleteCompany | internal/application/company/service.go:116-133 | commits exactly the removal and its event or nothing; when no call breaks, it succeeds exactly when the company is there and the event id is new |
| ServiceLayer.Service.GetCompany | internal/application/company/service.go:135-142 | answers the committed row; when no call breaks, not found exactly when there is none |
| PublisherLoop.Publisher.constructor | internal/infrastructure/outbox/publisher.go:35-51 | a batch size or interval that is not positive becomes the default, so a batch has at least one row |
| PublisherLoop.Publisher.ProcessBatch | internal/infrastructure/outbox/publisher.go:70-105 | a batch in which no call breaks has no error and handles exactly the first min(batch, eligible) rows that are not locked, each by its own answer; pending shrinks by the acknowledgements and attempts grow by the refusals |
| Batches.MarkAllMarksEach | internal/infrastructure/postgres/outbox_repository.go:82-115 | each handled row becomes its own mark and every other row is untouched |
| Batches.MarkAllIsEachMarked | internal/infrastructure/postgres/outbox_repository.go:82-115 | what publication and refusal make of each row, column by column |
| Batches.SelectionInWords | internal/infrastructure/postgres/outbox_repository.go:44-52 | which answers the query may give, row by row |
| Batches.BatchConserves | internal/infrastructure/outbox/publisher.go:85-102 | conservation of pending rows and attempts over a batch |
| Batches.DrainTakesCeilingOfBatches | internal/infrastructure/outbox/publisher.go:39-48 | n available rows are drained by ceil(n / batch) successful batches and by no fewer |
| Safety.RunsAreSafe | internal/application/company/service.go:46-133 | table constraints, locks, histories and stamps are kept by every interleaved step |
| Delivery.RunsAreSound | internal/infrastructure/outbox/publisher.go:79-105 | outbox rows, batches and delivery counts stay consistent over every interleaved step |
| Guarantees.TableInvariant | migrations/000001_create_companies.up.sql:3-9 | in every reachable state, unique non-nil ids, unique trimmed names, and all length, sign and type rules |
| Guarantees.HistoryLanguage | internal/infrastructure/postgres/company_repository.go:85-113 | each company's committed events are a prefix of (created updated* deleted)*, and decide whether it is in the table |
| Guarantees.LogReplaysToTable | internal/application/company/service.go:52-63 | folding the log gives the table, up to creation times, under any interleaving |
| Generations.CommitReplaysExactlyIff | internal/infrastructure/postgres/company_repository.go:72-79 | a commit makes the replay exact for its company if and only if its update carried the creation time of the row it overwrote, and leaves the others as they were |
| Generations.LogReplaysExactlyIff | internal/infrastructure/postgres/company_repository.go:72-79 | at the end of any run the replay is the table if and only if the last committed write about every company in it did so |
| Generations.GenerationIsKeptIff | internal/application/company/service.go:84-108 | an update carries the right creation time if no creation of the company commits between its read and its own commit, and, when creations have distinct times, only if |
| Generations.LogReplaysExactly | internal/application/company/service.go:84-111 | the run-level result in terms of what commits between the read and the commit of each last write |
| Guarantees.StampsFollowCommits | internal/application/company/service.go:144-158 | stamps of one company's events never decrease in commit order |
| Guarantees.NoChangeWithoutItsEvent | internal/application/company/service.go:52-64 | a step changes table and log together, by one event about the changed company, or not at all |
| Guarantees.ExclusiveHandOut | internal/infrastructure/postgres/outbox_repository.go:45-52 | open batches hold disjoint sets of rows, all of them pending |
| Guarantees.ExactDuplicateCount | internal/infrastructure/outbox/publisher.go:85-102 | deliveries of an event: one if its row is published, plus one per unfinished or aborted batch that sent it |
| Guarantees.PendingOrDelivered | internal/infrastructure/outbox/publisher.go:86-101 | a committed event is pending or delivered, and nothing else is delivered |
| Guarantees.NothingIsLost | internal/infrastructure/postgres/outbox_repository.go:82-97 | committed rows stay, publication is final, and a published event is never sent again |
| Guarantees.BackoffBound | internal/infrastructure/postgres/outbox_repository.go:99-115 | attempts count the committed refusals, each pushes the row back ten seconds, and they are begun ten seconds apart |
| RowHistories.RowTellsItsHistory | internal/infrastructure/postgres/outbox_repository.go:82-115 | in every reachable state a refused row waits until exactly ten seconds after the begin of its last committed refuser, for that refuser's reason; an untried one is as stored; a published one has no error and the begin of its publisher |
| RowHistories.OnePublisherPerRow | internal/infrastructure/postgres/outbox_repository.go:82-97 | one committed batch publishes a row, and the row carries its begin |
| Convergence.OlderFirstIffNothingPassed | internal/infrastructure/postgres/outbox_repository.go:47-51 | with one publisher and no producer failure, older events of a company come out first if and only if no send passes a row that was not available to its batch |
| Convergence.OrderlyRunsPassNothing | internal/infrastructure/postgres/outbox_repository.go:47-51 | fetches that find no older row unavailable behind a younger available one are enough for nothing to be passed |
| Guarantees.FirstDeliveriesFollowCommits | internal/infrastructure/outbox/publisher.go:85-102 | in such runs, with distinct stamps, first deliveries follow commit order if and only if nothing is passed |
| Guarantees.LastDeliveryIsLastCommit | internal/infrastructure/outbox/publisher.go:85-102 | once nothing is pending, the last delivery about a company is its last commit if and only if the last send of that event passed nothing |
| Guarantees.SameLastWordsIffLastSendsPassNothing | internal/infrastructure/outbox/publisher.go:79-105 | the same for all companies at once, those without events included |
| Guarantees.DeliveredStreamConverges | internal/infrastructure/outbox/publisher.go:79-105 | with nothing pending, and nothing passed by the last send of what was committed last about each company, the delivered stream replays to the log and so to the table, despite duplicates |
| Guarantees.UnpassedStreamConverges | internal/infrastructure/outbox/publisher.go:79-105 | the same when no send at all has passed anything |
| Guarantees.DeliveredStreamConvergesExactlyIff | internal/infrastructure/outbox/publisher.go:79-105 | it replays to exactly the table if and only if every last write carried the right creation time |
| Turns.TurnsConverge | internal/infrastructure/postgres/outbox_repository.go:48-51 | the same when a company's transactions begin in the order in which they commit |
| Limits.AvailabilityIsNeeded | internal/infrastructure/postgres/outbox_repository.go:48 | a run with one publisher and no failure that delivers an update before its creation and does not converge |
| Limits.AcceptanceIsNeeded | internal/infrastructure/outbox/publisher.go:87-97 | a run with one publisher in which a refused creation is overtaken by its update |
| Limits.OnePublisherIsNeeded | internal/infrastructure/postgres/outbox_repository.go:51 | a run with two publishers and no failure in which the update is sent before its creation |
| Limits.DistinctStampsAreNeeded | internal/infrastructure/postgres/outbox_repository.go:49 | a run with one batch and no failure in which equal stamps let the update out first |
| Limits.ExactReplayNeedsOneGeneration | internal/infrastructure/postgres/company_repository.go:72-79 | a run in which a patch overwrites a recreated company and the replay differs in the creation time |
| Progress.BeginsWhenValid | internal/application/company/service.go:46-52 | a creation can begin with every valid row, a patch with every patch that is not empty, a deletion always |
| Progress.ChecksNameWhenFree | internal/application/company/service.go:53-57 | the name check passes exactly when no committed company has the name |
| Progress.LoadsWhenThere | internal/infrastructure/postgres/company_repository.go:115-129 | a company is read exactly when it is committed |
| Progress.PatchesWhenValid | internal/application/company/service.go:91-102 | a patch is applied exactly when its fields are valid and no other committed company has its name |
| Progress.WritesWhenFree | internal/infrastructure/postgres/company_repository.go:36-113 | a row can be written exactly when it fits the table and no other uncommitted write is of its company or holds its old or new name |
| Progress.UnrelatedWritesOverlap | internal/infrastructure/postgres/company_repository.go:36-113 | writes of different companies with different names do not wait for each other |
| Progress.StoresWhenIdIsNew | internal/infrastructure/postgres/outbox_repository.go:23-42 | an event can be stored exactly when its id is new |
| Progress.EndsWhenever | internal/infrastructure/postgres/transaction.go:38-51 | a transaction with its event stored can commit, and any can be aborted, which leaves nothing of it |
| Progress.FetchesTheOldest | internal/infrastructure/postgres/outbox_repository.go:44-52 | a batch can fetch exactly the oldest pending and available rows that no other open batch has, up to its limit |
| Progress.SendsWhenever | internal/infrastructure/outbox/publisher.go:85-97 | the next event can be sent, with either answer |
| Progress.MarksWhenever | internal/infrastructure/outbox/publisher.go:87-101 | what was answered can be marked |
| Progress.BatchEndsWhenever | internal/infrastructure/postgres/transaction.go:38-51 | a batch that has handled its rows can commit, and any open one can be aborted |
| Progress.FetchedBatchGoesOn | internal/infrastructure/outbox/publisher.go:85-105 | an open batch that has fetched is never stuck |
| Refinement.CreateIsARun | internal/application/company/service.go:52-64 | the state a successful creation leaves, clocks included, is reachable from any reachable state in which no other uncommitted write is of its company or holds its name |
| Refinement.PatchIsARun | internal/application/company/service.go:84-111 | the same of a successful patch |
| Refinement.DeleteIsARun | internal/application/company/service.go:117-130 | the same of a successful deletion |
| Refinement.BatchIsARun | internal/infrastructure/outbox/publisher.go:74-105 | the state a batch leaves, committed or rolled back, is reachable, whatever other publishers hold |
| Sessions.CallService | internal/application/company/service.go:46-133 | whatever a service call's outcome, tables, deliveries and clocks are again those of a reachable state |
| Sessions.RunBatch | internal/infrastructure/outbox/publisher.go:70-105 | the same of a batch |
| Sessions.Session | cmd/api/main.go:55-67 | the same of any sequence of service calls and batches over one database |
| Sessions.Production | cmd/api/main.go:55-67 | the same from the empty database and the production wiring |

## Left out

- HTTP handlers, routing, DTOs, JWT, configuration, logging, Kafka and JSON encodings: plumbing around the protocol.
- The variants without a transaction manager or outbox (`NewService`, a publisher with a nil `tx`): production wires both.
- Service calls inside a caller's transaction: the transaction manager and `Nesting` treat joining, the service contracts are for the outermost call.
- The ticker of `Run`: any sequence of batches, aborts and crashes takes its place; progress in time is not claimed.
- A send that reaches the broker but is reported as failed: `delivered` holds acknowledged sends only.
- Overflow of the 32-bit `attempts` column; an employee count beyond 32 bits is modelled as the error of the row write.
- The fold of errors into wrapped messages: the error kinds that callers distinguish are kept, all others are one kind.
- Deadlocks and lock timeouts are aborts, which may happen at any step.
- Guarantees.FirstDeliveriesFollowCommits: exact among runs with one publisher, no producer failure and distinct stamps; `Limits` has a run for each of the three premises in which order fails without it.
- Guarantees.DeliveredStreamConverges: the same premises, and that nothing is pending; `Guarantees.SameLastWordsIffLastSendsPassNothing` says that the premise on last sends is exact.
- Guarantees.LogReplaysToTable: up to creation times, because an update writes every column but `created_at`; `Generations` says exactly when they agree too.
- ServiceLayer.Service.CreateCompany: stated for a database in which no other transaction changes anything meanwhile; what overlapping calls do is stated of `Steps`.
- ServiceLayer.Service.PatchCompany: the same.
- ServiceLayer.Service.DeleteCompany: the same.
- PublisherLoop.Publisher.ProcessBatch: other transactions may hold locks on rows, but change nothing meanwhile; what overlapping batches and calls do is stated of `Steps`.
- Sessions.Session: the calls of a session follow one another; other publishers may hold row locks throughout.
