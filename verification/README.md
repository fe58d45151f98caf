# Verification of the wager ledger

This project models the transaction engine of the wager ledger in Dafny and proves what its design promises. It covers
the five operations of a game provider (BET, WIN, LOSS, REFUND, ROLLBACK), the opening of wallets, waiting references,
the SQS consumer with its inbox, the outbox publishers, reconciliation, ledger paging and exact money.

The model has layers, each proved against the one below:

- **Values and objects** (`Int64`, `Money`, `Wallet`, `WagerTx`, `Ledger`): 64-bit arithmetic with wrap-around, decimal
  parsing against a grammar, the wallet and transaction objects with their methods, and ledger entries.
- **The sequential model** (`Store`, `Process`, `Atomic`): the committed database as one value, each use case as a function of one
  state, and the writes it commits. `Invariants`, `Preservation` and `Endings` state what every committed state satisfies and
  prove that every legal commit keeps it.
- **The objects at work** (`Database`, `UseCases`, `Workers`, `Consumer`, `Publisher`): the repositories and use cases as classes whose methods
  load, change and write back objects step by step, each proved to do what the sequential model says.
- **The interleaved model** (`Machine`, `Sessions`, `Steps`, `Commits`, `Locking`, `Safety`): any number of transactions at Read Committed,
  taken apart into lookups, inserts, reads, the version check, commits, retries and crashes. Sessions remember at which
  committed state they read what; locks are the rows and unique keys they hold. The invariant of this machine is
  inductive (`Safety.ReachableSafe`).
- **What is decided and recorded** (`Decisions`, `Lookups`, `Contents`, `Records`): an independent table says, in fields and columns, what every
  request, repeat, resume, expiry and opening comes to; every commit of every run says in its rows, entry and events what
  its answer says, and committed states keep these records.
- **What follows for every run** (`Interleaving`, `Rejections`, `Answers`, `Retries`, `Delivery`, `NetEffect`, `Audit`, `Schema`, `LateReference`, `Reordering`,
  `Stranded`): movements are serialisable, references are reversed once, answers are stable, retries are paid for, messages are not lost, balances
  are explained by standing wins and bets, events rebuild balances, and the schema's constraints hold. Whether a request comes
  before or after its reference matters exactly when the reference ends without being processed (`Reordering`): coming
  after such a reference it is rejected, coming before it waits until it expires (`Stranded`). Endings that move no money
  are not serialisable in general: `Witness` shows a run, and `Rejections` says for each of them when exactly it is.
- **What can always happen** (`Undisturbed`): from every reachable state, an operation whose locks nobody holds can run to its
  end, and ends as the sequential model says; the machine neither blocks nor does less than the use cases.
- **Side protocols** (`Outbox`, `Polls`, `Backoff`, `Paging`, `Expiry`, `Turns`): leases and crashes of publishers, the publisher's code as a
  run of that protocol, the wrapping delay, keyset walks over a
  growing ledger, how many passes a stale row can survive, and how many can leave a due row out.

Assumptions: identifiers come from a generator that never repeats one and never yields an empty one; the payload hash is
injective on the canonical fields, so those fields stand for it; empty strings stand for NULL. Clocks, identifiers, the
success of sends and of the publisher's database calls, and the processor's float conversion are parameters.
Where the code and its documentation disagree, the model follows the code: an expired reference ends FAILED with REFERENCE_EXPIRED, although the repository's README asks for a rejection; the inbox stores a
message's hash but never compares it, which `Delivery.OtherBodyIsDropped` shows to matter and `Delivery.DeletedHasRow` turns into the
condition under which no message is lost.

Run `dafny verify dfyconfig.toml` in this directory.

## Model

| member | source | states |
|---|---|---|
| `Int64.Wrap` | internal/domain/money/money.go:300-314 | a wrapped computation differs from the exact one by a multiple of 2^64, and not at all when the exact one fits |
| `Money.AddInt64` | internal/domain/money/money.go:300-306 | the wrap-around test refuses exactly the sums that do not fit in 64 bits |
| `Money.SubInt64` | internal/domain/money/money.go:308-314 | the wrap-around test refuses exactly the differences that do not fit in 64 bits |
| `Money.Add` | internal/domain/money/money.go:190-205 | adds exactly, for equal non-empty currencies and sums that fit |
| `Money.Sub` | internal/domain/money/money.go:207-220 | subtracts exactly, for equal non-empty currencies and differences that fit |
| `Money.ParseDecimalToMinorUnits` | internal/domain/money/money.go:54-122 | returns the verdict of the text: the cents of a numeral with at most two fraction digits, overflow exactly outside the 64-bit magnitude, or the reason it is no such numeral |
| `Money.Assemble` | internal/domain/money/money.go:90-122 | scale check, padding and the overflow guard give the same verdict for the parts of a numeral; the guard is tight |
| `Money.VerdictUnique` | internal/domain/money/money.go:54-122 | every text has one verdict, so acceptance and each refusal exclude one another |
| `Money.NumeralUnique` | internal/domain/money/money.go:54-122 | a text reads as a decimal numeral in at most one way |
| `Money.FromDecimalString` | internal/domain/money/money.go:36-52 | accepts exactly known currencies with numerals whose value is between zero and the 64-bit maximum of cents |
| `Money.NormalizeCurrency` | internal/domain/money/money.go:133-154 | accepts exactly the spellings of known codes of three letters, whatever their case, as the code; an empty text and any other are told apart |
| `Money.PrintDenotes` | internal/domain/money/money.go:257-270 | the printed text denotes the amount for every 64-bit value, the minimum included |
| `Money.ParseAfterPrint` | internal/domain/money/money.go:257-270 | parsing a printed amount gives it back; the one exception is the 64-bit minimum, which overflows |
| `Money.SameCanonicalIffSameValue` | internal/application/usecase/idempotency.go:22-42 | two accepted spellings have the same canonical amount if and only if they have the same value |
| `Wallet.Opened` | internal/domain/wallet/wallet.go:33-52 | opens exactly with an id, a player and a balance that is not negative, at version 1 |
| `Wallet.Debited` | internal/domain/wallet/wallet.go:107-129 | a debit goes through if and only if it is positive, in the wallet's currency and covered; it moves exactly the amount and one version |
| `Wallet.Credited` | internal/domain/wallet/wallet.go:131-148 | a credit goes through if and only if it is positive, in the wallet's currency and does not overflow; it moves exactly the amount and one version |
| `Wallet.Wallet.Debit` | internal/domain/wallet/wallet.go:107-129 | the object ends as the debited row, or unchanged with the error |
| `Wallet.Wallet.Credit` | internal/domain/wallet/wallet.go:131-148 | the object ends as the credited row, or unchanged with the error |
| `WagerTx.CanonicalIdentifiesRequest` | internal/application/usecase/idempotency.go:22-42 | with an injective hash, two requests have equal hashes if and only if they agree on everything but the key |
| `WagerTx.ExternalExactlyWhen` | internal/domain/wagertx/wagertx.go:144-239 | the constructor accepts exactly the requests whose row satisfies the table's checks, and builds that row |
| `WagerTx.RefusalsAreTrue` | internal/domain/wagertx/wagertx.go:144-239 | the error of a refusal names a true fault of the request |
| `WagerTx.NewOpening` | internal/domain/wagertx/wagertx.go:241-265 | accepts exactly identified, positive openings; the row satisfies the table's checks if and only if the amount has a currency |
| `WagerTx.StatusOnlyAdvances` | internal/domain/wagertx/wagertx.go:339-434 | under any calls of the status methods terms never change, PENDING is never returned to, and a terminal row accepts nothing more |
| `WagerTx.WagerTransaction.MarkPendingReference` | internal/domain/wagertx/wagertx.go:348-355 | moves a PENDING row to PENDING_REFERENCE, or changes nothing and reports an invalid transition |
| `WagerTx.WagerTransaction.MarkProcessed` | internal/domain/wagertx/wagertx.go:357-365 | finishes an open row with its result, or changes nothing |
| `WagerTx.WagerTransaction.MarkRejectedWithResult` | internal/domain/wagertx/wagertx.go:374-392 | rejects an open row with code and result, or changes nothing |
| `WagerTx.WagerTransaction.MarkFailed` | internal/domain/wagertx/wagertx.go:394-405 | fails an open row with a code, or changes nothing |
| `WagerTx.WagerTransaction.ResolveReference` | internal/domain/wagertx/wagertx.go:407-424 | records the reference of a row that is not terminal and clears its retries, or changes nothing |
| `WagerTx.WagerTransaction.RecordReferenceRetryAttempt` | internal/domain/wagertx/wagertx.go:426-434 | counts one more attempt of a waiting row, or changes nothing |
| `Ledger.NewEntry` | internal/domain/ledger/ledger.go:42-96 | an entry exists if and only if it is identified, positive, in one currency, and its balances differ by exactly its signed amount |
| `Endings.SettleCommits` | internal/application/usecase/process_wager_transaction.go:524-573 | after a debit or credit of a good wallet the entry's own checks always hold, so the settlement cannot fail any more |
| `Endings.SettleLegal` | internal/application/usecase/process_wager_transaction.go:524-573 | a settlement on a good state moves one wallet by its entry's signed amount, once, for a row that was not yet processed |
| `Endings.RejectLegal` | internal/application/usecase/process_wager_transaction.go:505-522 | a rejection writes one row and one event and moves no money |
| `Endings.ParkLegal` | internal/application/usecase/process_wager_transaction.go:416-430 | parking writes one waiting row and one event and moves no money |
| `Endings.NoteLegal` | internal/application/usecase/process_wager_transaction.go:397-411 | a LOSS is processed without movement |
| `Endings.WaitLegal` | internal/application/usecase/process_wager_transaction.go:201-209 | a further wait rewrites only the waiting row |
| `Endings.ExpireLegal` | internal/application/usecase/process_wager_transaction.go:265-287 | an expiry ends only its own waiting row |
| `Endings.OpenLegal` | internal/application/usecase/open_wallet.go:59-145 | an opening creates a wallet, and for a positive balance exactly one row, entry and pair of events |
| `Preservation.LegalKeepsInv` | migrations/0002_create_wager_transactions.up.sql:68-73 | every legal commit keeps the invariant of the whole store (indexes, rows, references, one reversal, ledger chains, events) and extends the state |
| `Preservation.RowForGrows` | internal/application/usecase/process_wager_transaction.go:449-483 | a request that has its row has it in every later state |
| `Atomic.AttemptLegal` | internal/application/usecase/process_wager_transaction.go:289-414 | an attempt run alone on a good state commits legally, and leaves its request's row |
| `Atomic.ResumeLegal` | internal/application/usecase/process_wager_transaction.go:191-260 | a resume run alone on a good state commits legally and writes only its own row |
| `Atomic.RunKeepsInv` | internal/application/usecase/process_wager_transaction.go:289-414 | any use case run alone takes a good state to a good state that extends it, whatever its outcome |
| `Steps.SettledRowsSeenAsCommitted` | internal/infra/postgres/wagertx_repository.go:47-54 | a settled row that a transaction finds among its own writes is a committed one |
| `Steps.LoadedStep` | internal/application/usecase/process_wager_transaction.go:296-352 | from wallet and row: every branch on currency and reference leads to a decision that what was read justifies |
| `Steps.ReferencedStep` | internal/application/usecase/process_wager_transaction.go:339-348 | the reversal check leads to a rejection with a reversal seen, or goes on with none seen |
| `Steps.ClearedStep` | internal/application/usecase/process_wager_transaction.go:354-395 | debit or credit and the save: the save goes through only at the version read, and then holds the wallet row |
| `Steps.SavedStep` | internal/application/usecase/process_wager_transaction.go:524-573 | after the save, entry, row and events always go through |
| `Steps.SameVersionSameWallet` | internal/infra/postgres/wallet_repository.go:60-74 | at an equal version the committed wallet is the one that was read |
| `Commits.NoReversalSince` | internal/application/usecase/process_wager_transaction.go:339-394 | a reversal processed after the check would have moved the wallet's version, so the save excludes it |
| `Commits.SettledIsAtomic` | internal/application/usecase/process_wager_transaction.go:289-414 | a settlement built from reads at different moments equals the same call run alone on the state it commits on |
| `Commits.CommitLegal` | internal/infra/postgres/txmanager.go:20-34 | whatever was committed meanwhile, every commit is legal on the state it meets |
| `Locking.OthersUntouched` | internal/infra/postgres/wagertx_repository.go:121-150 | what a commit changes lies behind locks its session holds |
| `Locking.CommitIsHeld` | internal/infra/postgres/wagertx_repository.go:41-45 | every row, key, wallet and identifier a session writes it has locked |
| `Safety.AdvanceOk` | internal/application/usecase/process_wager_transaction.go:289-414 | every step of every use case keeps what is known about its session |
| `Safety.NextKeeps` | internal/infra/postgres/txmanager.go:20-34 | every transition of the machine (begin, step, commit, retry, crash, delete) keeps the invariant |
| `Safety.ReachableSafe` | internal/infra/postgres/txmanager.go:20-34 | every state of every run, with any interleaving and crashes, satisfies the invariant |
| `Interleaving.MovesAreAtomic` | internal/application/usecase/process_wager_transaction.go:289-414 | every commit that touches a wallet or the ledger, and every expiry, yields the state and answer of the same call run alone on the state just before it |
| `Interleaving.NoSecondReversal` | internal/application/usecase/process_wager_transaction.go:339-348 | a reversal that commits is the first of its reference, so the partial unique index is never violated |
| `Interleaving.ReversalsInFlightDiffer` | internal/infra/postgres/wallet_repository.go:60-74 | two transactions past their saves hold different wallets and reverse different references |
| `Interleaving.RejectionsAreDeserved` | internal/application/usecase/process_wager_transaction.go:318-365 | every rejection is justified by the committed state at its commit; a shortfall by an instant of the same attempt at which the committed balance was the recorded one and too small |
| `Interleaving.RowsEndOnce` | internal/infra/postgres/wagertx_repository.go:152-180 | along any run a row keeps its terms, is never seen PENDING, and never changes once terminal |
| `Interleaving.UpdatesMeetWaitingRows` | internal/infra/postgres/wagertx_repository.go:152-180 | the update without a status guard only ever meets PENDING_REFERENCE rows |
| `Contents.CommitsSay` | internal/application/usecase/process_wager_transaction.go:505-573 | in every run, every commit says in columns what it answers: a movement's answer, its row's result, its entry's end and the wallet as committed carry one balance, and each ending's events announce the kind, code, names and amounts of the row committed with them |
| `Contents.AnsweredBalanceWasThere` | internal/application/usecase/process_wager_transaction.go:505-522 | the balance that a rejection, a parking or a LOSS answers was the committed one at some instant of its attempt |
| `Records.EverythingIsRecorded` | internal/application/usecase/process_wager_transaction.go:535-568 | in every committed state of every run, a processed movement records the balance its own entry ends in, a row's payload is the canonical form of the row, every event is true of its row, and a row that has ended has exactly one closing event |
| `Records.ReferenceVerdict` | internal/application/usecase/process_wager_transaction.go:432-447 | a reference is a mismatch if and only if provider, player, wallet, round or money differs, not processable if and only if they agree and its kind does not fit, and otherwise accepted |
| `Records.ProcessedAgreesWithReference` | internal/application/usecase/process_wager_transaction.go:336-352 | in every run, a processed row that names a reference agrees with it in provider, player, wallet, round and money; a WIN or REFUND refers to a BET, a ROLLBACK to a BET, WIN or REFUND |
| `Decisions.ArrivalDecided` | internal/application/usecase/process_wager_transaction.go:289-414 | a new request comes to what an independent table of references, reversals and balances says, and is carried out to the last column of every row written |
| `Decisions.ResumeDecided` | internal/application/usecase/process_wager_transaction.go:191-260 | a waiting row that is resumed comes to what the table says, to the last column; an unknown row is not found and a settled one is left alone |
| `Decisions.ExpiryDecided` | internal/application/usecase/process_wager_transaction.go:265-287 | an expiry ends a waiting row FAILED with REFERENCE_EXPIRED and its event, and leaves any other row alone |
| `Decisions.OpeningDecided` | internal/application/usecase/open_wallet.go:59-145 | an opening is refused exactly for a missing player, a negative balance, a missing currency or a taken owner, and otherwise writes exactly the wallet and, with money, its row, entry and events |
| `Decisions.InadmissibleDecided` | internal/application/usecase/process_wager_transaction.go:289-311 | a new request of an unsupported kind, for an unknown wallet or another player's, or with a faulty row is refused for just that |
| `Decisions.RepeatDecided` | internal/application/usecase/process_wager_transaction.go:449-483 | a request that is not new gets the answer of its row if key and payload are the same, and a conflict otherwise |
| `Decisions.RepeatedRequestIsAnswered` | internal/application/usecase/process_wager_transaction.go:449-503 | a repeated request writes nothing and gets its row's id, status, failure code and recorded balance, or the wallet's balance while none is recorded, as a replay |
| `Decisions.ConflictExactlyWhen` | internal/application/usecase/process_wager_transaction.go:449-483 | a conflict is answered if and only if a row has the key with another payload, or none has the key and a row has the operation with another key or payload |
| `Decisions.ProcessedReferenceDecided` | internal/application/usecase/process_wager_transaction.go:336-352 | on a processed reference a new request and a waiting row alike are rejected with REFERENCE_MISMATCH if and only if one of the five fields differs, and with REFERENCE_NOT_PROCESSABLE if and only if they agree and the kinds do not fit |
| `Lookups.KeyLookup` | internal/application/usecase/process_wager_transaction.go:449-464 | in every run, a transaction's lookup by key finds the row with the same payload, aborts with a conflict on one with another, and goes on without one |
| `Lookups.OperationLookup` | internal/application/usecase/process_wager_transaction.go:466-481 | in every run, the lookup by operation finds the row with the same key and payload, aborts with a conflict on any other, and goes on without one |
| `Lookups.FoundIsAnswered` | internal/application/usecase/process_wager_transaction.go:485-503 | in every run, a transaction that found its row decides, without another write, on the answer the row gives |
| `Lookups.FirstAttemptAnswers` | internal/application/usecase/process_wager_transaction.go:87-137 | with nobody in between, the retry loop answers and leaves what its first attempt does |
| `Rejections.RejectionsSerialisableExactlyWhen` | internal/application/usecase/process_wager_transaction.go:296-387 | a rejection equals the same call run alone on the state of its commit if and only if the recorded balance is still the committed one and, for a shortfall, the reference has not been reversed meanwhile |
| `Rejections.OtherCausesNow` | internal/application/usecase/process_wager_transaction.go:314-352 | rejections on currency or reference would be repeated, for the same reason, on the state of their commit |
| `Rejections.ShortfallNow` | internal/application/usecase/process_wager_transaction.go:358-390 | on the state of its commit a shortfall's call would find a reversal made meanwhile, or come to the movement again |
| `Rejections.ParkingsSerialisableExactlyWhen` | internal/application/usecase/process_wager_transaction.go:322-336 | a parking leaves what the same call run alone on the state of its commit would leave if and only if the reference is still missing or open there; it also answers the same if and only if the balance it answers is still the committed one |
| `Rejections.WaitsSerialisableExactlyWhen` | internal/application/usecase/process_wager_transaction.go:197-209 | a resume that goes on waiting equals the same call run alone on the state of its commit if and only if the reference is still not processed there, whatever happened to the wallet |
| `Rejections.LossesSerialisableExactlyWhen` | internal/application/usecase/process_wager_transaction.go:394-410 | a LOSS equals the same call run alone on the state of its commit if and only if the balance it records is still the committed one |
| `Witness.RejectionNotSerialisable` | internal/application/usecase/process_wager_transaction.go:296-387 | a concrete run in which a bet commits as rejected although, run alone on that very state, it would be processed |
| `Witness.BetByBalance` | internal/application/usecase/process_wager_transaction.go:358-365 | a plain bet run alone is rejected below its amount and processed from there on |
| `Witness.WinCredits` | internal/application/usecase/process_wager_transaction.go:367-371 | a plain win that fits is credited in full |
| `Undisturbed.AttemptLeads` | internal/application/usecase/process_wager_transaction.go:289-414 | the steps of an attempt, with nobody in between, end exactly as the sequential attempt |
| `Undisturbed.ResumeLeads` | internal/application/usecase/process_wager_transaction.go:191-260 | the steps of a resume, with nobody in between, end exactly as the sequential resume |
| `Undisturbed.MessageLeads` | internal/infra/sqs/consumer.go:139-153 | the steps of a new message end as its attempt, with the inbox row in the same commit |
| `Undisturbed.StaysWithinOwn` | internal/infra/postgres/wagertx_repository.go:41-45 | an operation never locks more than its identifiers, row, keys, message and wallet |
| `Undisturbed.UnhinderedCallsComplete` | internal/application/usecase/process_wager_transaction.go:87-137 | from every reachable state, an operation whose locks nobody holds can run to its end, with the answer and database the sequential model gives |
| `Answers.AnswersAreTrue` | internal/application/usecase/process_wager_transaction.go:485-503 | every answer given agrees with the request's row, then and in all later states |
| `Answers.AnswersAgree` | internal/application/usecase/process_wager_transaction.go:449-503 | two answered calls with one key carried one payload and name one transaction; final answers agree in status, failure code and balance |
| `Retries.FailuresAreCharged` | internal/application/usecase/process_wager_transaction.go:111-137 | every lost race is charged to a version increment in a stretch of the log of its own, every duplicate to the request's row; after a duplicate the call never gets past its lookups and ends in a replay or a conflict; a call gives up exactly after five |
| `Retries.IncrementsAddUp` | internal/application/usecase/process_wager_transaction.go:111-137 | n lost races mean n versions of the wallet |
| `Retries.LostRacesAreOthersCommits` | internal/application/usecase/process_wager_transaction.go:111-137 | every lost race was lost to a commit of its own, by another session, at which the wallet's version rises |
| `Retries.GivingUpMeansContention` | internal/application/usecase/process_wager_transaction.go:111-137 | giving up means at least four places of the log at which another session's commit moved the wallet on, and leaves neither writes nor locks |
| `Retries.LookupStops` | internal/application/usecase/process_wager_transaction.go:449-503 | once the request has a row, the lookups end the attempt before its insert, in a replay or a conflict |
| `Retries.FailedCallsLeaveNothing` | internal/infra/postgres/txmanager.go:29-33 | a failed call has nothing written, holds nothing and never commits |
| `Delivery.ActsOnce` | internal/application/usecase/process_wager_transaction.go:449-483 | one row per key and per provider operation, and one ledger entry for it, over both channels and any crashes |
| `Delivery.DeletedIsStored` | internal/infra/sqs/consumer.go:80-164 | a deleted message has its inbox row, and the request that row stands for has its transaction row |
| `Delivery.DeletedHasRow` | internal/infra/sqs/consumer.go:80-164 | when all copies of a message carry one body, a deleted message's request has its row |
| `Delivery.OtherBodyIsDropped` | internal/infra/postgres/inbox_repository.go:15-28 | from every reachable state that knows a message id, a message with that id and any other body can be acknowledged and deleted without effect |
| `NetEffect.ReferencesAcyclic` | internal/application/usecase/process_wager_transaction.go:432-447 | no path of resolved references returns to a row |
| `NetEffect.PathsDescend` | internal/application/usecase/process_wager_transaction.go:432-447 | paths of resolved references have at most three rows |
| `NetEffect.ReversalOpposes` | internal/application/usecase/process_wager_transaction.go:379-392 | a reversal's ledger effect is minus its reference's |
| `NetEffect.ChainSum` | internal/application/usecase/process_wager_transaction.go:379-392 | the entries of a row and of all reversals above it sum to the row's effect if it stands and to zero otherwise |
| `NetEffect.BetsCountFullyOrNot` | internal/application/usecase/process_wager_transaction.go:379-392 | a bet with its reversals has moved exactly minus its amount or nothing, a win its amount or nothing |
| `NetEffect.LegalKeepsBalanced` | internal/application/usecase/process_wager_transaction.go:240-255 | every legal commit keeps every balance at opening plus standing wins minus standing bets |
| `NetEffect.BalancesAreExplained` | internal/application/usecase/process_wager_transaction.go:354-395 | in every reachable state every balance is the opening plus standing wins minus standing bets |
| `Audit.VersionsAnnounced` | internal/application/usecase/process_wager_transaction.go:555-568 | a wallet's balance events carry exactly its versions, once each, from 1 if it opened with money and from 2 otherwise |
| `Audit.VersionCountsMovements` | internal/domain/wallet/wallet.go:107-148 | version minus one counts the entries after the opening, which is the first |
| `Audit.FoldIsBalance` | internal/application/usecase/process_wager_transaction.go:555-568 | folding the balance events in order gives the stored balance |
| `Audit.AnyDeliveryRebuilds` | internal/application/usecase/open_wallet.go:104-130 | any order and number of deliveries of all balance events rebuilds the stored balance |
| `Audit.Reconcile` | internal/application/usecase/reconcile_wallet.go:34-91 | reports stored minus ledger sum; on a good snapshot it succeeds with difference zero, and an unknown wallet is an error |
| `Audit.SumIsBalance` | internal/infra/postgres/ledger_repository.go:50-70 | the ledger sum of a wallet is its balance, so reading it never overflows |
| `Audit.SnapshotsReconcile` | internal/infra/postgres/txmanager.go:67-81 | every snapshot of every run reconciles |
| `Audit.SettlementNeverFails` | internal/domain/ledger/ledger.go:64-84 | in every run, the step after a save always decides: the entry's checks never fail |
| `Schema.SchemaNeverViolated` | migrations/0002_create_wager_transactions.up.sql:1-75 | no committed state violates a check, unique index or foreign key of the tables: formats, signs, fields and references by kind, one opening per wallet, one reversal per reference, entry arithmetic, unique identifiers of entries and events |
| `Schema.CommitKnown` | internal/application/usecase/process_wager_transaction.go:349-351 | whatever was committed while a transaction ran, the reference its row is resolved to is a committed row |
| `LateReference.ResumeMatchesAttempt` | internal/application/usecase/process_wager_transaction.go:191-260 | once the reference is processed, resuming the waiting row ends as attempting the request where it never waited |
| `Reordering.EarlyEqualsLate` | internal/application/usecase/process_wager_transaction.go:191-392 | a request waits for its reference while any calls whatever run; resumed once the reference is processed, it ends as if it had come only then, after the calls that were not about it: same wallets, ledger, movement, row, failure code and answer |
| `Reordering.OrderMattersExactlyWhen` | internal/application/usecase/process_wager_transaction.go:197-336 | coming before the reference or after it, and then any calls, leaves the same row and movement if and only if the reference has not ended REJECTED or FAILED; if it has, the resume goes on waiting where the late request is rejected with REFERENCE_NOT_PROCESSABLE |
| `Reordering.OtherCallsUnaffected` | internal/application/usecase/process_wager_transaction.go:289-414 | a waiting row changes nothing for any call that is not about it |
| `Reordering.StaysAhead` | internal/application/usecase/process_wager_transaction.go:191-287 | along any history in which the row still waits at the end, the state is that of the history without the row and the calls about it, plus the row, which has only counted retries |
| `Reordering.ConcerningCalls` | internal/application/usecase/process_wager_transaction.go:202-209 | a call about the waiting row that leaves it waiting leaves everything else alone |
| `LateReference.MoneyNeedsReference` | internal/application/usecase/process_wager_transaction.go:322-352 | a request with a reference moves money only on a state in which the reference is processed |
| `Stranded.StrandedRowsOnlyExpire` | internal/application/usecase/process_wager_transaction.go:191-287 | in every run, a row waiting for a reference that ended REJECTED or FAILED is never processed and never rejected: it waits or has expired, and has no ledger entry |
| `Stranded.CommitLeavesStranded` | internal/application/usecase/process_wager_transaction.go:201-209 | whatever is committed by whom, such a row still waits afterwards or has expired |
| `Stranded.ResumeRejectsOnProcessed` | internal/application/usecase/process_wager_transaction.go:213-246 | a resume rejects only on a reference it has seen processed |
| `Backoff.DelayExact` | internal/infra/outbox/publisher.go:175-181 | the delay is exactly min(2^n, 300) seconds for every n, wrap-around and conversions that do not fit included, on either kind of processor |
| `Backoff.WrappedIsCoarse` | internal/infra/outbox/publisher.go:175-181 | a product that may wrap is a multiple of 2^43 nanoseconds |
| `Backoff.WrappedIsNotSmall` | internal/infra/outbox/publisher.go:175-181 | a wrapped product is never a small positive delay |
| `Backoff.DelayMonotone` | internal/infra/outbox/publisher.go:175-181 | the delay never falls as attempts grow |
| `Outbox.StepKeeps` | internal/infra/postgres/outbox_repository.go:51-116 | every statement, send, crash and tick keeps the protocol's invariant |
| `Outbox.NothingIsLost` | internal/infra/postgres/outbox_repository.go:94-116 | no committed event is lost or altered, and published is for good |
| `Outbox.PublishedWasSent` | internal/infra/outbox/publisher.go:121-163 | a published row was sent with its own id and event, and everything sent is a committed row's |
| `Outbox.ClaimsAreSpaced` | internal/infra/postgres/outbox_repository.go:51-92 | between two claims of a row lies a MarkFailed of it or the lease time, and no claim follows its publication |
| `Outbox.ConcurrentClaimsDiffer` | internal/infra/postgres/outbox_repository.go:54-66 | claims in progress at one time hold different rows |
| `Outbox.ClaimableExactlyFromThen` | internal/infra/postgres/outbox_repository.go:56-60 | an unpublished row is claimable from exactly the moment its lease and delay are over |
| `Outbox.UnpublishedIsClaimable` | internal/infra/postgres/outbox_repository.go:51-92 | whatever crashed before, any idle publisher can then claim the row and hold its record |
| `Publisher.OutboxRepository.Create` | internal/infra/postgres/outbox_repository.go:23-49 | stores a new unpublished, unleased row, or refuses a known id |
| `Publisher.OutboxRepository.Claim` | internal/infra/postgres/outbox_repository.go:51-92 | leases the oldest claimable rows up to the limit and returns their records; no other row changes |
| `Publisher.OutboxRepository.MarkPublished` | internal/infra/postgres/outbox_repository.go:94-104 | publishes and unlocks one row, without looking at its lease |
| `Publisher.OutboxRepository.MarkFailed` | internal/infra/postgres/outbox_repository.go:106-116 | counts an attempt, sets the next and unlocks one row, without looking at its lease |
| `Publisher.Publisher.PublishOne` | internal/infra/outbox/publisher.go:121-173 | sends one record and marks its row published if the queue was heard to have it, and otherwise failed with the delay of its attempts; a recording call that fails, or finds no row, changes none; what becomes published is in the queue |
| `Publisher.Publisher.PublishPending` | internal/infra/outbox/publisher.go:105-173 | one poll works off the claimed records in order until it is told to stop, sends exactly the messages that arrive, and touches no other row; each row ends in columns as its message's fate says, and whatever becomes published is in the queue; a failed claim changes nothing |
| `Publisher.AfterInColumns` | internal/infra/outbox/publisher.go:143-173 | an acknowledged message is published; any other leaves its row unpublished, with one more attempt and min(2^n, 300) seconds to wait; a recording call that fails changes nothing |
| `Polls.PublishOneIsTwoSteps` | internal/infra/outbox/publisher.go:121-173 | working off one record is a send of the outbox protocol and then its confirmation, retry or skip |
| `Polls.PollIsStretch` | internal/infra/outbox/publisher.go:105-119 | a poll, whatever becomes of its messages and wherever it stops, is a stretch of a run of the outbox protocol and leaves rows and queue as that does |
| `Polls.PolledRowsWereSent` | internal/infra/outbox/publisher.go:105-173 | from any state of any run, after a poll every published row was sent with its own id and event |
| `Paging.Select` | internal/infra/postgres/ledger_repository.go:95-118 | the first rows of the ordered query: ascending, and nothing that matches comes before a row left out |
| `Paging.ListByWallet` | internal/infra/postgres/ledger_repository.go:81-156 | returns the next page, full and with the cursor of its last row if anything matching is left, and otherwise all that matches and no cursor; an unreadable cursor is an error |
| `Paging.CursorRoundTrip` | internal/infra/postgres/ledger_repository.go:158-177 | a cursor is read back as its pair, whatever characters the id contains |
| `Paging.CutIsPage` | internal/infra/postgres/ledger_repository.go:149-155 | cutting the one row too many off leaves a page that ends where it was cut |
| `Paging.WalkIsComplete` | internal/infra/postgres/ledger_repository.go:81-156 | a walk over a growing ledger yields strictly increasing keys, no entry twice, and if it ends every entry of its start |
| `Expiry.SettledOnceEldersRunOut` | internal/application/usecase/reference_retry_worker.go:86-110 | whatever commits meanwhile, a waiting row is settled once the successful passes past its time exceed a thirty-second of the older rows they meet |
| `Expiry.SettledWithinPasses` | internal/application/usecase/reference_retry_worker.go:86-110 | when no newcomer is older than the row, p older ones mean p/32+1 such passes |
| `Expiry.ArrivalsDoNotOvertake` | internal/infra/postgres/wagertx_repository.go:99-119 | a row committed after the first pass began overtakes nobody unless its attempt took longer than the time-to-live |
| `Expiry.EldersAfterPasses` | internal/infra/postgres/wagertx_repository.go:99-119 | each pass that a row survives settles thirty-two older ones that no other pass settled |
| `Expiry.GrowthNeverReturns` | internal/infra/postgres/wagertx_repository.go:152-180 | committed growth never sends a settled row back to waiting |
| `Turns.TriedOnceEldersRunOut` | internal/application/usecase/reference_retry_worker.go:62-82 | a row that is due whenever a resume pass begins is tried by one of them, once the passes within one retry delay exceed a thirty-second of the older rows they meet |
| `Turns.TriedWithinPasses` | internal/application/usecase/process_wager_transaction.go:170-187 | when no newcomer is older, a due row with p older ones waiting is tried within p/32+1 such passes: the delay keeps rows from holding the places of the listing |
| `Turns.LeftOutByAll` | internal/infra/postgres/wagertx_repository.go:76-97 | each pass that leaves a due row out tries thirty-two older ones that no other of the passes tried |
| `Turns.TryPostpones` | internal/application/usecase/process_wager_transaction.go:191-260 | a try of a due row settles or postpones it if and only if it does not fail |
| `Turns.TryFailsExactlyWhen` | internal/application/usecase/process_wager_transaction.go:233-258 | a try fails, and its row keeps its place, if and only if the reference is processed, valid and unreversed and the credit does not fit the wallet |
| `Turns.WaitPostpones` | internal/application/usecase/process_wager_transaction.go:203-208 | waiting again counts one more try and sets the next to the clock plus the delay for the new count, two seconds at least and thirty from the fifth try, and changes nothing else |
| `Turns.ParkedIsDueAtOnce` | internal/infra/postgres/wagertx_repository.go:76-119 | a request that is parked is due at once, whatever the worker's clock, and stale strictly after its time-to-live |
| `Turns.WaitedIsDueExactlyFrom` | internal/infra/postgres/wagertx_repository.go:76-97 | a row that waited again is due exactly from its next try on, 2^n seconds later, capped at thirty, after n tries |
| `Expiry.RetryDelayExact` | internal/application/usecase/process_wager_transaction.go:174-187 | the retry delay is one second, then 2^n seconds capped at thirty |
| `Expiry.RetryDelayMonotone` | internal/application/usecase/process_wager_transaction.go:174-187 | the retry delay never falls |
| `Database.Database.Commit` | internal/infra/postgres/txmanager.go:20-34 | commits the whole view |
| `Database.Database.Rollback` | internal/infra/postgres/txmanager.go:20-34 | drops the whole view |
| `Database.Database.FindWallet` | internal/infra/postgres/wallet_repository.go:24-32 | loads the stored row into a fresh object, or reports not found |
| `Database.Database.CreateWallet` | internal/infra/postgres/wallet_repository.go:44-58 | inserts unless the currency's format, the id or the owner key forbids it |
| `Database.Database.SaveWallet` | internal/infra/postgres/wallet_repository.go:60-74 | writes balance, version and time if and only if the stored version is the previous one |
| `Database.Database.FindTxByKey` | internal/infra/postgres/wagertx_repository.go:56-63 | finds the row of an idempotency key, if there is one |
| `Database.Database.FindTxByOp` | internal/infra/postgres/wagertx_repository.go:47-54 | finds the row of a provider's operation, if there is one |
| `Database.Database.CreateTx` | internal/infra/postgres/wagertx_repository.go:121-150 | inserts unless id, key or operation is taken |
| `Database.Database.UpdateTx` | internal/infra/postgres/wagertx_repository.go:152-180 | overwrites everything but the terms, without looking at the status |
| `Database.Database.CreateEntry` | internal/infra/postgres/ledger_repository.go:29-48 | appends unless the id or the wallet's transaction is there |
| `Database.Database.CreateEvent` | internal/infra/postgres/outbox_repository.go:23-49 | appends unless the id is there |
| `Database.Database.CreateInbox` | internal/infra/postgres/inbox_repository.go:15-28 | inserts, or reports a duplicate and leaves the transaction usable |
| `UseCases.ProcessWagerTransaction.Reject` | internal/application/usecase/process_wager_transaction.go:505-522 | does what the model's rejection says |
| `UseCases.ProcessWagerTransaction.PendingReference` | internal/application/usecase/process_wager_transaction.go:416-430 | does what the model's parking says |
| `UseCases.ProcessWagerTransaction.ProcessLoss` | internal/application/usecase/process_wager_transaction.go:397-411 | does what the model's LOSS says |
| `UseCases.ProcessWagerTransaction.Settle` | internal/application/usecase/process_wager_transaction.go:524-573 | reports a lost race and writes nothing when the version moved, and otherwise does what the model's settlement says, whose one balance is that of `Contents.CommitsSay` |
| `UseCases.ProcessWagerTransaction.DebitAndSettle` | internal/application/usecase/process_wager_transaction.go:358-365 | settles a covered debit and rejects one that is not |
| `UseCases.ProcessWagerTransaction.CreditAndSettle` | internal/application/usecase/process_wager_transaction.go:367-377 | settles a credit, or refuses one that overflows |
| `UseCases.ProcessWagerTransaction.Move` | internal/application/usecase/process_wager_transaction.go:354-414 | the switch on the kind does what the model's says |
| `UseCases.ProcessWagerTransaction.FollowReference` | internal/application/usecase/process_wager_transaction.go:336-352 | validation, reversal check and resolution do what the model's do, which `Decisions.ProcessedReferenceDecided` says in fields |
| `UseCases.ProcessWagerTransaction.Proceed` | internal/application/usecase/process_wager_transaction.go:314-395 | the attempt after its insert does what the model's does |
| `UseCases.ProcessWagerTransaction.ReplayOutput` | internal/application/usecase/process_wager_transaction.go:485-503 | answers from the row, or from the wallet when the row has no result |
| `UseCases.ProcessWagerTransaction.ResolveExisting` | internal/application/usecase/process_wager_transaction.go:449-483 | finds replays and conflicts by key first, then by operation; which of them, `Decisions.RepeatDecided` says |
| `UseCases.ProcessWagerTransaction.Attempt` | internal/application/usecase/process_wager_transaction.go:289-414 | one attempt in an open transaction does exactly what the model's does |
| `UseCases.ProcessWagerTransaction.Resume` | internal/application/usecase/process_wager_transaction.go:191-260 | one resume in an open transaction does exactly what the model's does |
| `UseCases.ProcessWagerTransaction.Expire` | internal/application/usecase/process_wager_transaction.go:265-287 | one expiry in an open transaction does exactly what the model's does |
| `UseCases.ProcessWagerTransaction.ResumePendingReference` | internal/application/usecase/process_wager_transaction.go:191-260 | commits the model's outcome or nothing |
| `UseCases.ProcessWagerTransaction.ExpirePendingReference` | internal/application/usecase/process_wager_transaction.go:265-287 | commits the model's outcome or nothing |
| `UseCases.ProcessWagerTransaction.Execute` | internal/application/usecase/process_wager_transaction.go:87-137 | the retry loop answers with the first attempt that is no lost race or duplicate, gives up after five, and a failing call changes nothing |
| `UseCases.ProcessWagerTransaction.Handle` | internal/infra/sqs/consumer.go:126-164 | commits the inbox row with the effect, neither on an error, and nothing for a duplicate |
| `UseCases.GoodStatesSuffice` | internal/application/usecase/process_wager_transaction.go:289-414 | the use cases ask no more of a state than every reachable one gives: unused identifiers |
| `UseCases.AttemptIgnoresInbox` | internal/application/usecase/process_wager_transaction.go:151-166 | an attempt after the inbox insert is the attempt without it |
| `Consumer.HandledIsSafe` | internal/infra/sqs/consumer.go:139-153 | handling a message keeps a good state good, and a message handled without an error is stored, its request with its row |
| `Consumer.ReplayHasRow` | internal/application/usecase/process_wager_transaction.go:449-483 | a replayed request has its row |
| `Consumer.Consumer.Receive` | internal/infra/sqs/consumer.go:80-109 | handles the messages of a batch in order, each on what the ones before it left, and deletes exactly the duplicates and those whose attempt is not refused, in order; what is deleted is stored, and the state stays good |
| `Consumer.BatchFillsInbox` | internal/infra/sqs/consumer.go:80-153 | after a batch the inbox holds exactly the ids it held and those of the acknowledged messages; a failed message leaves none |
| `Workers.OpenWallet.Create` | internal/application/usecase/open_wallet.go:67-130 | wallet, opening row, entry and events are written together, or the first error is reported |
| `Workers.OpenWallet.Execute` | internal/application/usecase/open_wallet.go:59-145 | commits the model's opening or nothing, and reports an existing wallet as such |
| `Workers.ReferenceRetryWorker.List` | internal/infra/postgres/wagertx_repository.go:99-119 | the oldest candidates by creation time and id, up to the limit |
| `Workers.ReferenceRetryWorker.ResumeDue` | internal/application/usecase/reference_retry_worker.go:62-82 | tries the oldest due rows, at most thirty-two, once each, and keeps the state good; if no call fails, every one of them is settled or stands back for the shortest delay |
| `Workers.ReferenceRetryWorker.ExpireStale` | internal/application/usecase/reference_retry_worker.go:86-110 | does nothing without a positive time-to-live, and otherwise a successful pass over the oldest stale rows |
| `Workers.BatchSettles` | internal/application/usecase/reference_retry_worker.go:97-109 | every row of an expiry batch is settled when the batch is through |
| `Workers.BatchTries` | internal/application/usecase/reference_retry_worker.go:68-80 | a batch of resumes that goes through settles or postpones each of its rows, touches no other row, and moves no next try forward |

## Left out

- Deadlock detection, foreign-key share locks and index mechanics of PostgreSQL: only row locks, unique keys and read visibility are modelled; a session that must wait for a lock takes its step later.
- The version counter is an unbounded natural number; the BIGINT column would overflow only after 2^63 commits.
- SHA-256, JSON and base64 internals: an injective hash of the canonical fields, and a faithful pair of encoder and decoder, are assumed.
- The ISO 4217 table is a parameter; of Unicode upper case only what yields ASCII letters is modelled, since any other letter is refused as well.
- Time formats: the RFC 3339 formatting of cursor times is a parameter with a faithful inverse.
- The order in which one claim picks rows is modelled in `Publisher.OutboxRepository.Claim`; in the concurrent protocol `Outbox` a claim may pick any claimable rows, up to its batch of twenty, which only adds runs.
- Exactly-once publishing and order per aggregate: the code does not provide them, because marking a row published or failed does not check who holds its lease.
- The SQS fallback to the transport's own message id: an envelope without a message id is refused before it is reached.
- A delete call that fails, and a consumer that is told to stop in the middle of a received batch: in both cases messages that are through stay in the queue, which `Machine` allows at any time.
- Columns of event payloads that only repeat the row (player, wallet, and the names of a rejected or waiting request).
- The visibility timeout and the return of messages to the queue: a message that is not deleted may simply be delivered again.
- The default branch of the resume's switch on the kind: a waiting row always names a reference, so it is a WIN, REFUND or ROLLBACK.
- UseCases.ProcessWagerTransaction.Execute: the method runs without other writers, so its races are those of taken keys; lost races are proved of the interleaved model in `Retries`.
- UseCases.ProcessWagerTransaction.Handle: completing the inbox row writes a timestamp nothing reads, which is not modelled.
- Workers.ReferenceRetryWorker.RunBatch: the source starts the calls of a batch at once; here they take turns, and their interleavings are those of `Machine`.
- Workers.ReferenceRetryWorker.ResumeDue: its batch takes turns, as in `RunBatch`.
- Workers.ReferenceRetryWorker.ExpireStale: its batch takes turns, as in `RunBatch`.
- Reordering.EarlyEqualsLate: the calls run one after the other; what an interleaved commit has to do with the call run alone is the matter of `Interleaving` and `Rejections`.
- HTTP handlers, authentication, logging, metrics, health checks, configuration and wiring: plumbing without the state modelled here.
- Shutdown and cancellation of workers are only the crash steps of the two protocols, and the point at which one poll of the publisher is told to stop.
