# Wager ledger: verified model

A Dafny 4.11 model of a wager settlement service. Providers send BET, WIN, LOSS, REFUND and
ROLLBACK operations over HTTP or a queue; the service moves money between wallets and an
append-only ledger, waits for references that have not arrived yet, and publishes events
through an outbox. PostgreSQL is the only coordinator between processes. The project models
that engine at four levels and proves what holds over all inputs, all runs and all
interleavings.

`dafny verify dfyconfig.toml` checks everything.

## How the model is built

1. **Values and objects** (`Money`, `MoneyText`, `Wagers`, `WagerLife`, `WagerObject`,
   `Wallets`, `Backoff`, `FailureCodes`): the domain rules as functions on values, and the
   mutable objects `WagerTransaction` and `WalletObject` proved to follow them. Failure codes
   are symbols there; `FailureCodes` gives their texts.
2. **Engine** (`Engine`, `EngineInvariant`, `EnginePreservation`, `EngineDecisions`,
   `EngineOutcomes`, `EngineOpening`, `EngineRuns`, `EngineSafety`, `Netting`, `EventReplay`,
   `Idempotency`, `Reconciliation`, `Schema`, `Settlement`): each use case as a function from
   tables to new tables or an error; runs are any sequence of use cases and clock ticks.
   `Bookkeeping` and `Commands` say field by field what a command, a row and an event have to
   do with each other, without mentioning how the engine builds them; `Answers` proves every use
   case against a table over its arguments written in those words, and `EventStories` proves
   what the published events and recorded digests say in every run.
   `Database` is the same engine as the source writes it: a class holding the tables, with
   methods that insert, lock, update and roll back statement by statement, proved equal to
   the functions; `DatabaseRuns` makes every call of its services a step, or a short run of
   steps, of these runs.
3. **Interleavings** (`Interleaving`, `InterleavingFrames`, `InterleavingSafety`,
   `InterleavingRuns`, `Deadlock`): any number of database transactions, one statement at a
   time, with locks and unique keys held between statements, aborting anywhere. Every
   interleaving refines a run of the engine, so everything proved about runs holds of it.
4. **Delivery and traversal** (`Outbox`, `OutboxSafety`, `OutboxTable`, `OutboxTiming`,
   `Delivery`, `DeliverySafety`, `Consumer`, `ConsumerRuns`, `Paging`): the outbox lease protocol, the inbox
   and queue consumers with crashes and redeliveries, and ledger pagination. A poll of the
   consumer, answered by the engine, is a run of the delivery system.

Main results: `Answers.ProcessAnswers`, `Answers.RetryAnswers`, `Answers.CreateAnswers`,
`EventStories.OutcomeIsAnnounced`, `EventStories.ReplayedExactly`, `Settlement.TreesNetOut`, `Settlement.BalanceIsBounded`,
`Settlement.LedgerIsAChain`, `Settlement.RecordsAgree`, `Settlement.EventsRebuildBalance`,
`EngineSafety.RunIsSafe`, `EngineOutcomes.ProcessingFollowsTable`,
`Idempotency.AnsweredForEver`, `InterleavingRuns.InterleavingsRefineRuns`,
`InterleavingRuns.NoConflictAtCommit`, `Deadlock.DeadlockFreeExactly`,
`OutboxSafety.AtMostOnceIfPrompt`, `OutboxSafety.DeliveryIsSafe`, `OutboxTiming.RestsUntilDue`,
`DeliverySafety.MessagesAreSafe`, `ConsumerRuns.PollIsRun`, `Paging.CompleteTraversal`, `WagerLife.LifeIsShort`,
`MoneyText.PatternIsCanonical` and `Backoff.LoopIsDelayExactly`.

## Assumptions

- A database transaction is atomic: it commits all its writes or none, at most once.
- Row locks are compatible as in section 13.3.2 of the PostgreSQL documentation: FOR NO KEY
  UPDATE does not conflict with FOR KEY SHARE, FOR UPDATE does. A FOR UPDATE SKIP LOCKED
  lookup locks only the row it returns.
- A unique-key insert waits for an uncommitted rival with the same key.
- The database clock never goes back; generated UUIDs are new to the tables and to every
  transaction in flight.
- SHA-256 of the canonical JSON and of a message body is injective, so a hash is modelled by
  what it covers; cursor encoding is invertible.
- Money is a whole number of cents. Clock readings, UUIDs, publisher and queue answers are
  parameters or steps of the environment.
- A reference is read without a lock, so the model lets a lookup be stale
  (`EngineDecisions.MayHaveSeen`) and claims invariants, not serializability.

Where code and intention differ, the model follows the code:

- A whitespace-only reference passes the constructor for kinds that need none. It never
  commits (`Schema.BlankReferenceNeverCommits`), and `Schema.InsertAcceptedExactly` says when
  the insert itself is refused.
- The retry delay doubles a 64-bit duration. It equals the documented formula for every
  attempt exactly when the last doubling fits in 64 bits (`Backoff.LoopIsDelayExactly`);
  `Backoff.HugeCapOverflows` is a policy for which it does not, and which the configuration
  accepts. Only the bound on the number of retries asks for that condition
  (`EngineSafety.PolicyOk`); it is exactly the condition under which every next attempt lies
  ahead (`EngineSafety.AdvancesExactly`). Everything else holds for every policy.
- The transition table alone lets PENDING and PENDING_REFERENCE alternate for ever; the calls
  do not (`WagerLife.LifeIsShort`).

## Model

| member | source | states |
|---|---|---|
| MoneyText.PatternIsCanonical | internal/domain/money.go:11-36 | the money pattern accepts exactly the canonical printings of 0 to 10^20 - 1 cents |
| MoneyText.PrintThenParse | internal/domain/money.go:112-114 | every printed amount in range matches the pattern and parses back to the same cents |
| MoneyText.ParseThenPrint | internal/domain/money.go:21-36 | every accepted text is the printing of the amount it parses to |
| MoneyText.CentsAreDigits | internal/domain/money.go:21-36 | the cents of an accepted text are the number its digits write, each digit by its place |
| MoneyText.SignedPrintThenParse | internal/infrastructure/postgres/wallet_ledger_repository.go:282-291 | the signed parser undoes printing for negative amounts too |
| MoneyText.SignedParseThenPrint | internal/infrastructure/postgres/wallet_ledger_repository.go:282-291 | printing undoes the signed parser for every accepted text except "-0.00" |
| Backoff.ReferenceDelay | internal/application/wager_reference.go:35-43 | the doubling loop computes its closed form, and the documented delay while the cap is at most 2^62 ns |
| Backoff.OutboxRetryDelay | internal/application/outbox_dispatcher_service.go:113-129 | the loop that caps one doubling early equals min(5 s * 2^(n-1), 5 min) for every attempt count |
| Backoff.SqsRetryDelay | internal/infrastructure/sqs/consumer.go:218-226 | the visibility delay equals min(5 s * 2^(n-1), 5 min) for every receive count |
| Backoff.LoopIsDelayExactly | internal/application/wager_reference.go:35-43 | the loop equals the documented delay for all attempts if and only if the first doubling not below the cap fits in 64 bits |
| Backoff.HugeCapOverflows | internal/application/wager_reference.go:35-43 | a concrete policy whose second delay overflows to a negative duration |
| WagerObject.WagerTransaction.TransitionTo | internal/domain/wager_transaction.go:489-510 | the mutable object follows the transition function, or returns its error and changes nothing |
| WagerObject.WagerTransaction.MarkPendingReference | internal/domain/wager_transaction.go:232-254 | parks exactly when the function allows it; a refused call changes no field |
| WagerObject.WagerTransaction.ResolveReference | internal/domain/wager_transaction.go:257-293 | resolves to the given reference, is idempotent for the same reference, and changes nothing on error |
| WagerObject.WagerTransaction.MarkProcessed | internal/domain/wager_transaction.go:327-357 | completes with both balances or returns the error and changes nothing |
| WagerObject.WagerTransaction.CompleteWithFailure | internal/domain/wager_transaction.go:380-404 | rejects or fails with code and message, or changes nothing |
| WagerLife.ConstructedIsSound | internal/domain/wager_transaction.go:109-133 | every validated construction succeeds, is PENDING, and passes rehydration |
| WagerLife.CallKeepsSound | internal/domain/wager_transaction.go:186-404 | every call keeps the transaction acceptable to rehydration, keeps its business fields and never moves its clock back |
| WagerLife.CallsExactly | internal/domain/wager_transaction.go:186-404 | when each call succeeds, as an if-and-only-if over the transaction and the arguments, and everything a successful call changes |
| WagerLife.CallLowersRank | internal/domain/wager_transaction.go:489-519 | a call that changes status or reference lowers the rank; any other call changes nothing at all |
| WagerLife.LifeIsShort | internal/domain/wager_transaction.go:186-404 | any sequence of calls makes at most three status or reference changes, and every state reached is rehydrated unchanged, although the transition table has a cycle |
| WagerLife.TerminalIsFinal | internal/domain/wager_transaction.go:891-907 | once terminal, no sequence of calls changes anything |
| WagerLife.OpeningIsFinal | internal/domain/wager_transaction.go:136-183 | an OPENING is born terminal, passes rehydration and never changes |
| WagerLife.WaitingLifeHasThreeChanges | internal/domain/wager_transaction.go:232-357 | the bound of three is reached by waiting, resolving and processing |
| Wallets.WalletObject.Credit | internal/domain/wallet.go:95-108 | an accepted credit adds the amount and one version; a refused one changes nothing |
| Wallets.WalletObject.Debit | internal/domain/wallet.go:111-133 | as credit, and refuses an amount above the balance |
| Wallets.MoveExactly | internal/domain/wallet.go:95-161 | exactly when a movement is refused, and that otherwise balance and version change by the signed amount and one |
| Wallets.AcceptedMove | internal/domain/wallet.go:95-161 | a movement succeeds if and only if amount, currency, time, range and funds allow it, and every error names something really wrong |
| Wallets.EntryExactly | internal/domain/wallet_ledger_entry.go:74-172 | an entry is accepted if and only if its parts are meaningful and its balances differ by its signed amount |
| FailureCodes.BlankExactly | internal/domain/wager_transaction.go:380-404 | a failure code is blank exactly when its text is, so checking the symbol is checking the text |
| FailureCodes.StableCodesDiffer | internal/application/failure_codes.go:3-28 | the stable failure codes have different texts |
| EngineOutcomes.ReferenceByTable | internal/domain/wager_transaction.go:407-442 | exactly when a processed row is accepted as reference, and which error it draws otherwise |
| EngineOutcomes.ResolvedByTable | internal/application/wager_reference.go:234-287 | what the reference lookup leads to: wait, a rejection code, or a resolved reference |
| EngineOutcomes.SettledVerdict | internal/application/wager_service.go:220-242 | duplicate reversals, insufficient funds, out-of-range balances and applied movements, each with exactly the records it writes |
| EngineOutcomes.MovementVerdict | internal/application/wager_service.go:245-335 | the balance after each kind of operation with its row, wallet, entry and events field by field, or the rejection for missing funds |
| EngineOutcomes.ProcessingFollowsTable | internal/application/wager_service.go:143-166 | every new command under its locks writes exactly the records of an independent decision table: row, link to the reference, wallet, entry and events |
| EngineOutcomes.RetryFollowsTable | internal/application/wager_reference.go:140-187 | a due row past its expiry is rejected; any other writes the records of the same table, or is rescheduled where the table waits |
| EngineDecisions.RejectLawful | internal/application/wager_service.go:338-358 | a rejection succeeds with the given code, one rejected event and no other write |
| EngineDecisions.FailLawful | internal/application/wager_reference.go:190-231 | failing a pending row succeeds, writes no event and touches nothing else |
| EngineDecisions.ParkLawful | internal/application/wager_reference.go:290-307 | parking succeeds exactly for kinds that may wait with a meaningful reference, with one pending event |
| EngineDecisions.ApplyMovementLawful | internal/application/wager_service.go:245-335 | row, wallet, entry and events written by a movement tell the same story, or the balance would leave the money range |
| EngineDecisions.ResolvedIsLive | internal/application/wager_reference.go:234-287 | a reference that resolves is a processed row of the same wallet, also when the lookup was stale |
| EngineDecisions.ProcessNewLawful | internal/application/wager_service.go:143-166 | every decision on a new transaction is lawful or an out-of-range error |
| EngineDecisions.RetryLawful | internal/application/wager_reference.go:140-187 | every decision on a due pending row is lawful or an out-of-range error |
| EnginePreservation.CommitKeepsInv | internal/application/wager_service.go:257-332 | lawful writes keep the whole database invariant |
| EngineOpening.CreateWalletKeepsInv | internal/application/wallet_service.go:70-148 | wallet creation with its opening records keeps the invariant |
| EngineOpening.OpeningKeepsInv | internal/application/wallet_service.go:235-313 | the opening transaction, entry and events keep the invariant |
| EngineRuns.ProcessCommits | internal/application/wager_service.go:52-107 | Process replays and changes nothing, or commits lawful writes, or fails; the final already-exists error is never returned |
| EngineRuns.ExistingIsFound | internal/application/wager_service.go:169-195 | a refused insert always finds the row to answer from |
| EngineRuns.RetryCommits | internal/application/wager_reference.go:140-187 | a due retry commits lawful writes for its row, or the only error is an out-of-range balance |
| EngineRuns.GiveUpCommits | internal/application/wager_reference.go:190-231 | finishing a pending row as FAILED always succeeds |
| EngineSafety.StepKeepsWorld | internal/application/wager_service.go:62-107 | every enabled step keeps the invariant and only extends committed history |
| EngineSafety.RunIsSafe | internal/application/wager_service.go:52-107 | in every reachable state the invariant holds; terminal rows, ledger, outbox and completed inbox rows are never rewritten |
| EngineSafety.AdvancesExactly | internal/application/wager_reference.go:35-54 | every next attempt of an unexpired row lies after now if and only if no doubling of the delay overflows 64 bits |
| EngineSafety.ParkedRetryOk | internal/application/wager_reference.go:290-307 | the first attempt of a parked row is after now and not past its expiry |
| EngineSafety.RescheduledRetryOk | internal/application/wager_reference.go:46-54 | each retry moves the next attempt strictly forward, never past expiry, and keeps the retry bound |
| Netting.TreeNet | internal/domain/wager_transaction.go:296-324 | a processed operation with its reversal and the reversal's rollback is worth its own movement or nothing |
| Netting.NetOfRoot | internal/domain/wager_transaction.go:407-442 | -a or 0 for a bet, a or 0 for a win, a for an opening |
| Netting.OnlyRefundsAreUndone | internal/domain/wager_transaction.go:874-888 | only a bet can be reversed and stand again |
| Netting.BalanceIsSumOfTrees | internal/application/wager_service.go:220-335 | a balance is exactly the sum of the nets of its trees, hence within opening minus bets and opening plus wins |
| Settlement.TreesNetOut | internal/application/wager_service.go:227-241 | in every run a processed bet or win nets to its amount or to zero, zero exactly when it has a standing reversal |
| Settlement.BalanceIsBounded | internal/application/wallet_service.go:121-131 | in every run a balance is in range, at least opening minus processed bets, at most opening plus processed wins |
| Settlement.LedgerIsAChain | internal/application/wager_service.go:257-324 | in every run each wallet's ledger starts from 0, each entry starts from the balance the one before it left, the last leaves the stored balance; it adds up to it, and the version is 1 plus the movements |
| Settlement.RecordsAgree | internal/application/wager_service.go:245-358 | no committed row is PENDING; entries and processed or rejected events occur exactly once where due and nowhere else |
| Settlement.RetriesAreBounded | internal/application/wager_reference.go:46-54 | in every run of a policy whose delays do not overflow, retry count times the first delay stays below the time to live; the next attempt is not past expiry |
| Settlement.ExpiredRetryIsTerminal | internal/application/wager_reference.go:153-160 | the first retry at or after expiry rejects with REFERENCE_NOT_FOUND and moves no money |
| Settlement.EventsRebuildBalance | internal/application/wager_events.go:98-109 | in every run, balance events reordered and repeated, then deduplicated and sorted, have no gap and rebuild the balance |
| EventReplay.ReplayRebuildsBalance | internal/application/wager_events.go:98-109 | sorting and deduplicating any delivery of a wallet's balance events recovers the committed sequence |
| Idempotency.HashCoversBusinessFields | internal/application/wager_request.go:90-122 | equal hashes mean equal commands up to the idempotency key |
| Commands.PreparesExactly | internal/application/wager_request.go:26-88 | exactly which commands are accepted, as an if-and-only-if over their fields; a refusal names a real fault, and an accepted command becomes a pending transaction with every field of the command |
| Commands.DigestIsUnique | internal/application/wager_request.go:90-122 | a command has only one digest |
| Idempotency.RecordedAnswer | internal/application/wager_service.go:169-195 | the row recorded under the key or external id decides the answer and nothing is written |
| Idempotency.CommittedIsRecorded | internal/application/wager_service.go:77-97 | a command that committed is recorded under its key with its hash |
| Idempotency.CopiesChangeNothing | internal/application/wager_service.go:77-85 | after any further run, any copy of a recorded command changes nothing and answers with the recorded transaction |
| Idempotency.AnsweredForEver | internal/application/wager_service.go:52-107 | once Process has answered a command, any later copy, after any further run, changes nothing and answers with the same transaction, unchanged if it was finished |
| Idempotency.ConflictsAreRefused | internal/application/wager_service.go:169-195 | a reused key with another payload, or a reused external id with another key, is refused |
| Idempotency.RedeliveryChangesNothing | internal/infrastructure/sqs/wager_handler.go:94-132 | a completed message handled again, after any further run, changes nothing |
| Idempotency.OneMovementPerOperation | internal/application/wager_request.go:90-122 | no two ledger entries share an idempotency key or an external id |
| Answers.LookupIsExact | internal/infrastructure/postgres/wager_repository.go:254-268 | the lookup by external id finds the provider's transaction if and only if there is one |
| Answers.ProcessAnswers | internal/application/wager_service.go:52-107 | the answer to every command and all its writes follow a table over the fields of the command and the tables met: refusals, replays, conflicts, wallet errors, and the verdict with row, wallet, entry and events |
| Answers.HandleAnswers | internal/infrastructure/sqs/wager_handler.go:94-132 | a conflicting or completed message is answered by the inbox; any other is answered as its command is, with its own id as metadata, and completes its inbox row in the same commit |
| Answers.RetryAnswers | internal/application/wager_reference.go:140-187 | a retry rejects the expired, reschedules what still waits and otherwise writes the verdict of the table, under the metadata the row was parked with; only an out-of-range balance is an error |
| Answers.GiveUpAnswers | internal/application/wager_reference.go:190-231 | the pending row alone is finished as FAILED with PROCESSING_FAILED; nothing else in any table changes |
| Answers.CreateAnswers | internal/application/wallet_service.go:70-148 | exactly when a wallet is refused, by which error, and otherwise a version-1 wallet whose balance prints as requested, with one OPENING row, entry and two events of that amount unless it is 0.00 |
| EventStories.EventsRepeatRows | internal/application/wager_events.go:34-95 | in every run each published processed, rejected or pending event repeats the identifiers, kind, amount, balances, codes and reference of its row |
| EventStories.OutcomeIsAnnounced | internal/application/wager_events.go:13-95 | in every run a PROCESSED or REJECTED row has exactly one outcome event, of its kind and repeating its fields; its balances are those of its ledger entry |
| EventStories.ChangesRepeatLedger | internal/application/wager_events.go:98-109 | in every run a wallet's balance events repeat its ledger entry by entry, with its player and consecutive versions up to the stored one |
| EventStories.ReplayedExactly | internal/application/wager_service.go:169-195 | in every run a command under a recorded key is replayed if and only if it has the business fields of the recorded row, and is refused as a conflict otherwise |
| Reconciliation.ReconciliationSnapshot | internal/infrastructure/postgres/wallet_ledger_repository.go:215-279 | the fold over the ledger is the signed sum and the number of exactly the wallet's entries |
| Reconciliation.Reconcile | internal/application/wallet_service.go:204-232 | reports stored minus calculated; under the invariant always zero, consistent, over exactly the wallet's entries |
| Reconciliation.LedgerAddsUp | internal/application/wallet_service.go:204-232 | the ledger of a wallet adds up to its stored balance |
| Database.Tables.CreateWager | internal/infrastructure/postgres/wager_repository.go:59-150 | inserts under both unique keys, or reports the conflict or the missing wallet and changes nothing |
| Database.Tables.UpdateWallet | internal/infrastructure/postgres/wallet_repository.go:141-174 | succeeds exactly when the stored version is one less |
| Database.Tables.FindDue | internal/infrastructure/postgres/wager_repository.go:311-331 | returns a due row that no due row precedes in the order of next attempt and creation, or none exactly when no row is due |
| Database.Tables.Reject | internal/application/wager_service.go:338-358 | the statements write exactly the engine's rejection |
| Database.Tables.Park | internal/application/wager_reference.go:290-307 | the statements write exactly the engine's parked row, retry state and event |
| Database.Tables.ApplyMovement | internal/application/wager_service.go:245-335 | debit or credit, then row, wallet, entry and events, equal the engine's movement |
| Database.Tables.Settle | internal/application/wager_service.go:220-242 | the reversal check and the movement equal the engine's settlement |
| Database.Tables.ResolveReference | internal/application/wager_reference.go:234-287 | the object changes only when the reference is available, as the engine decides |
| Database.Tables.ProcessNew | internal/application/wager_service.go:143-166 | equal to the engine's decision on the tables it reads |
| Database.Tables.LockWallet | internal/application/wager_service.go:198-217 | returns the stored wallet, or says it is missing, belongs to another player or has another currency, in that order |
| Database.Tables.Process | internal/application/wager_service.go:52-107 | answer and tables equal the engine's Process; an error leaves the tables as they were |
| Database.Tables.RetryPendingReference | internal/application/wager_reference.go:140-187 | tables equal the engine's retry, or are rolled back |
| Database.Tables.FailPendingReference | internal/application/wager_reference.go:190-231 | finishes a row that is still pending as FAILED, otherwise changes nothing |
| Database.Tables.RetryNext | internal/application/wager_reference.go:71-127 | retries the first due row, or does nothing if none is due; a permanent error finishes the row as FAILED in a second transaction, an outage or a cancelled context leaves it pending |
| Database.Tables.RegisterMessage | internal/infrastructure/postgres/inbox_repository.go:26-75 | inserts the row, or reports completion, or a conflicting hash |
| Database.Tables.CompleteMessage | internal/infrastructure/postgres/inbox_repository.go:78-97 | completes a row exactly once |
| Database.Tables.HandleMessage | internal/infrastructure/sqs/wager_handler.go:94-132 | inbox, Process and completion commit together or leave the tables as they were |
| Database.Tables.CreateWallet | internal/application/wallet_service.go:70-148 | the wallet with its opening records, or an error and no change |
| Database.Tables.CreateOpening | internal/application/wallet_service.go:235-313 | the opening row, entry and both events |
| DatabaseRuns.ReachableTables | internal/infrastructure/postgres/wager_repository.go:59-150 | the tables of every reachable state meet what the methods ask of them |
| DatabaseRuns.ProcessIsStep | internal/application/wager_service.go:52-107 | a call of Process is one enabled step of a run, leaves its tables, answers as the table over its command says and keeps the invariant |
| DatabaseRuns.HandleIsStep | internal/infrastructure/sqs/wager_handler.go:94-132 | a call of HandleMessage is one enabled step of a run, leaves its tables, answers as the table over its message says and keeps the invariant |
| DatabaseRuns.CreateWalletIsStep | internal/application/wallet_service.go:70-148 | a call of CreateWallet is one enabled step of a run, leaves its tables, answers as the table over its request says and keeps the invariant |
| DatabaseRuns.RetryIsStep | internal/application/wager_reference.go:140-187 | a call of the retry method on a due row is one enabled step of a run, leaves its tables, answers as the table over the row says and keeps the invariant |
| DatabaseRuns.FailIsStep | internal/application/wager_reference.go:190-231 | finishing a pending row as FAILED is one enabled step of a run, always commits and changes that row alone |
| DatabaseRuns.RetryNextIsRun | internal/application/wager_reference.go:71-127 | a sweep over the row it claimed is a legal run: nothing, a retry, or a failed retry and then the failure mark; it leaves the tables of that run |
| Schema.StoredIsAccepted | migrations/000004_add_wager_transaction_constraints.up.sql:46-331 | every committed provider row meets every CHECK constraint |
| Schema.InsertAcceptedExactly | migrations/000004_add_wager_transaction_constraints.up.sql:112-186 | the insert of a validated command passes the CHECKs if and only if its reference is absent, or allowed and not only spaces |
| Schema.LawfulIsAccepted | migrations/000013_protect_financial_records.up.sql:4-76 | inserts, updates, unique indexes, foreign keys and triggers all accept what a use case writes |
| Schema.ProcessIsAccepted | internal/domain/wager_transaction.go:522-588 | everything Process commits is accepted by the schema |
| Schema.RetryIsAccepted | internal/application/wager_reference.go:140-187 | everything a retry commits is accepted by the schema |
| Schema.GiveUpIsAccepted | internal/application/wager_reference.go:190-231 | finishing a row as FAILED is accepted by the schema |
| Schema.OpeningIsAccepted | migrations/000006_add_wallet_ledger_constraints.up.sql:41-65 | wallet, opening row and opening entry meet their CHECKs |
| Schema.BlankReferenceNeverCommits | internal/domain/wager_transaction.go:859-871 | a whitespace-only reference never commits a transaction |
| InterleavingSafety.CheckIsCurrent | internal/application/wager_service.go:227-241 | the reversal check matters only for a reference in the locked wallet, where its answer is still current |
| InterleavingSafety.CommitIsEngineStep | internal/application/wager_service.go:77-97 | whatever others did meanwhile, a commit is one enabled step of the engine at that instant |
| InterleavingFrames.TxFrame | internal/application/wager_service.go:77-97 | what a transaction has read under its locks survives every commit of the others |
| InterleavingFrames.CommitFrame | internal/infrastructure/postgres/wager_repository.go:288-308 | a commit changes one row, its wallet and its keys, and reversals only within its wallet |
| InterleavingRuns.AcquiresFree | internal/infrastructure/postgres/wallet_repository.go:89-112 | a statement that was not blocked acquires nothing another transaction holds |
| InterleavingRuns.StepRefines | internal/application/wager_service.go:62-97 | every statement keeps the invariant and is invisible or one engine step |
| InterleavingRuns.InterleavingsRefineRuns | internal/application/wager_service.go:62-97 | every interleaving of any number of transactions reaches only tables of a legal engine run |
| InterleavingRuns.NoConflictAtCommit | internal/infrastructure/postgres/wallet_repository.go:141-174 | in every interleaving the version compare-and-set never fails, no timestamp is refused, and no row has two processed reversals |
| InterleavingRuns.RefusedInsertIsAnswered | internal/application/wager_service.go:169-195 | in every interleaving a refused insert is answered from a committed row; the final already-exists error is unreachable |
| Deadlock.WaitsClimb | internal/infrastructure/sqs/wager_handler.go:97-113 | a transaction waits only for one further up: inbox key, wager key or row, wallet |
| Deadlock.ReferenceIsNeverLocked | internal/infrastructure/postgres/wager_repository.go:334-352 | the foreign key of a resolved reference never waits, since only pending rows are locked |
| Deadlock.NoCycle | internal/infrastructure/postgres/wallet_repository.go:88-106 | chains of waiting transactions have at most four members and never close |
| Deadlock.SomeoneCanRun | internal/infrastructure/postgres/wallet_repository.go:88-106 | behind every waiting transaction, in a chain of at most four, is an unfinished one whose next statement is enabled |
| Deadlock.NoRivalReversals | migrations/000004_add_wager_transaction_constraints.up.sql:361-365 | two transactions never stand before writing reversals of the same reference, so the unique index of successful reversals never makes one wait |
| Deadlock.ForUpdateDeadlocks | internal/infrastructure/postgres/wallet_repository.go:88 | with FOR UPDATE two commands on one wallet reach a deadlock |
| Deadlock.DeadlockFreeExactly | internal/infrastructure/postgres/wallet_repository.go:88-106 | no reachable state has a waiting cycle if and only if wallets are locked FOR NO KEY UPDATE |
| OutboxTable.Table.ClaimPending | internal/infrastructure/postgres/outbox_dispatcher_repository.go:30-105 | claims the first claimable event by next attempt and occurrence with a new attempt number and lease and changes nothing else, or reports that none is claimable |
| OutboxTable.Table.MarkPublished | internal/infrastructure/postgres/outbox_dispatcher_repository.go:108-141 | marks the row published, its other fields kept and its claim released, exactly when the claim on it is the worker's |
| OutboxTable.Table.ScheduleRetry | internal/infrastructure/postgres/outbox_dispatcher_repository.go:144-177 | sets the next attempt and releases the claim, the other fields kept, exactly when the claim is the worker's |
| OutboxTable.Table.DispatchNext | internal/application/outbox_dispatcher_service.go:39-110 | one undisturbed pass takes the first claimable event, counts the attempt, and marks it published or makes it due again after 5 s doubled per earlier attempt, at most 5 min |
| OutboxSafety.StepKeepsInv | internal/application/outbox_dispatcher_service.go:39-110 | every step of any worker keeps the protocol invariant |
| OutboxSafety.PublicationsWithinAttempts | internal/infrastructure/postgres/outbox_dispatcher_repository.go:39-65 | publications of an event never exceed its attempts |
| OutboxSafety.StaleWriteHasNoEffect | internal/infrastructure/postgres/outbox_dispatcher_repository.go:108-177 | a worker's mark or reschedule has no effect if and only if another claim has followed its own |
| OutboxSafety.NothingIsStuck | internal/application/outbox_dispatcher_service.go:11-15 | an unpublished event is claimable five minutes later at the latest |
| OutboxSafety.AtMostOnceIfPrompt | internal/application/outbox_dispatcher_service.go:39-83 | if every successful publisher marks within its lease, each event is successfully published at most once |
| OutboxSafety.LateMarkPublishesTwice | internal/application/outbox_dispatcher_service.go:39-83 | a run with one late mark in which an event is successfully published twice |
| OutboxSafety.DeliveryIsSafe | internal/application/outbox_dispatcher_service.go:39-129 | in every run a marked event was published, publications stay within attempts, and nothing is stuck |
| OutboxTiming.ClaimableExactly | internal/infrastructure/postgres/outbox_dispatcher_repository.go:35-60 | a row is claimable if and only if it is unpublished, due and under no unexpired claim |
| OutboxTiming.RestsUntilDue | internal/infrastructure/postgres/outbox_dispatcher_repository.go:35-60 | no run of any workers, with crashes anywhere, touches a row that is published, not yet due or leased to another |
| OutboxTiming.PassIsRun | internal/application/outbox_dispatcher_service.go:39-110 | the statements of an undisturbed pass are a legal run of the protocol that leaves the row DispatchNext leaves and logs the publication |
| Delivery.HandledIsEffective | internal/infrastructure/sqs/wager_handler.go:94-132 | a successful Handle leaves the inbox row completed and the command recorded |
| DeliverySafety.MessagesAreSafe | internal/infrastructure/sqs/consumer.go:116-190 | with any mix of HTTP calls, redeliveries and crashes, a message gone from the queue took effect or was dead-lettered, inbox rows are completed, and no operation moves money twice |
| DeliverySafety.OthersKeepInbox | internal/infrastructure/postgres/inbox_repository.go:26-97 | only message handling writes inbox rows |
| Consumer.Client.Release | internal/infrastructure/sqs/consumer.go:193-215 | every reachable message becomes visible after 5 s, doubled per receipt after the first up to 300 s, the others are untouched |
| Consumer.Client.MoveToDLQ | internal/infrastructure/sqs/consumer.go:158-190 | the copy is sent before the message is deleted |
| Consumer.Client.ProcessMessage | internal/infrastructure/sqs/consumer.go:116-155 | succeeds exactly when the message left the queue; a transient failure hands it back after 5, 10, 20, 40, 80, 160 or 300 s by its receive count |
| Consumer.Client.PollOnce | internal/infrastructure/sqs/consumer.go:75-113 | processed messages form a prefix of the batch and left the queue, except a failed last one; it and the rest are handed back, each after the delay of its own receive count |
| Consumer.DelayInSeconds | internal/infrastructure/sqs/consumer.go:218-236 | the table of delays in whole seconds is the doubling delay of the consumer, for every receive count |
| Consumer.VisibilityDoubles | internal/infrastructure/sqs/consumer.go:218-236 | an absent count or one below 2 gives 5 s, and each further receipt doubles the delay up to 300 s |
| ConsumerRuns.PollIsRun | internal/infrastructure/sqs/consumer.go:75-155 | a poll whose messages the engine answers is a legal run of the delivery system with the same source queue and dead-letter queue |
| ConsumerRuns.PolledMessagesAreSafe | internal/infrastructure/sqs/consumer.go:116-190 | whatever leaves the source queue in a poll took effect in the engine or has a dead-letter copy |
| Paging.ListByWallet | internal/infrastructure/postgres/wallet_ledger_repository.go:83-212 | the first entries below the cursor in descending order, as many as the limit and the ledger allow |
| Paging.Ledger | internal/transport/http/wallet_handler.go:147-210 | refuses exactly limits below 1 or above the maximum and cursors that do not decode, then unknown wallets; otherwise a page of the limit, 50 by default, with a next cursor exactly when entries remain |
| Paging.NoRepeats | internal/transport/http/wallet_handler.go:242-279 | following cursors shows entries in strictly descending order, whatever is appended meanwhile |
| Paging.NoSkips | internal/infrastructure/postgres/wallet_ledger_repository.go:83-133 | an entry present at the first request is shown or still to come |
| Paging.CompleteTraversal | internal/transport/http/wallet_handler.go:147-210 | a finished traversal showed every entry present at its start, each once, and only the wallet's entries |
| Paging.ReadAll | internal/transport/http/wallet_handler.go:147-210 | on a fixed ledger following the cursors stops, having shown exactly the wallet's entries |

## Left out

- HTTP routing, authentication, error-to-status mapping, logging, metrics and health checks: plumbing over libraries.
- The web interface, container files and dependency wiring: user interface and configuration.
- SQL text, drivers, JSON and base64 encoding, UUID parsing, SHA-256: only their effect on tables, queues and keys is modelled.
- Retry and jitter of the transaction manager, worker start and stop: a transaction is taken to commit at most once or to have no effect.
- Envelope parsing of queue messages: a decoder maps the bodies that parse and come from an allowed provider to messages.
- CHECK constraints on correlation and causation identifiers, and those of the inbox and outbox tables: they would only add easy members.
- The uniqueness of one OPENING per wallet as an index: wallet creation checks the wallet's keys, and the ledger invariant puts an opening only first.
- The GET queries and the other read-only endpoints besides the ledger and reconciliation: they add only easy members.
- Wallet creation is one atomic step in the interleaved machine: before its commit no other transaction can see or lock the new wallet; the wait between two creations for the same player and currency is not modelled.
- Database.Tables.CreateWager: does not refuse a row for a CHECK constraint. The CHECKs can refuse only a whitespace-only reference (`Schema.InsertAcceptedExactly`), which never commits here either, but fails later and with another error (`Schema.BlankReferenceNeverCommits`).
- Writes and commit of one transaction are one step in the interleaved machine: nothing it writes makes another transaction wait that its earlier locks do not (`Deadlock.NoRivalReversals` for the index of successful reversals).
- Database.Tables.RetryNext: an outage is taken to strike before the retry commits; one reported after its commit leaves the tables of a successful retry.
- Which due row a sweep picks is fixed by its order only in `Database.Tables.FindDue`; in runs and interleavings any due unlocked row may be picked.
- OutboxTable.Table.DispatchNext: models the pass without other workers; with other workers it is the step machine of `Outbox`.
- Settlement.ExpiredRetryIsTerminal: stated for a retry that was claimed as due, since nothing forces a worker to run.
- Dropped visibility: a message whose visibility cannot be changed returns by the queue's own timeout, which is not modelled.
