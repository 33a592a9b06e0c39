# The money and lifecycle machine of the rental service, in Dafny

The service rents game accounts by the hour.  A rental is created unpaid, is paid by a provider
webhook or from the user's balance, runs, expires, and is completed once its deposit has been
settled.  Every movement of money is a row of an append-only ledger.  This project models that
machine (users, accounts, rentals, payments, deposit holds, refunds and the ledger), proves what
every operation keeps and what holds over all runs, and proves the Go services, call by call and with
any set of repository calls failing, to be those operations.  A second, independent part treats the
token bucket rate limiter.

## How the project is built

| file | what it holds |
|---|---|
| `Common`, `Pricing`, `LedgerKeys`, `Ordering` | errors and `int64`, price arithmetic, idempotency keys as text, `ORDER BY ... LIMIT` |
| `Tables`, `Operations` | the rows; every transaction as one atomic step from tables to tables and result |
| `Invariant` | the invariant `Valid`, how rows may evolve, and the one lemma for a change to one rental |
| `Steps`, `RentingSteps`, `AdministrationSteps` | every operation keeps `Valid`, moves rows only forward, books every movement of money (`GoodStep`) |
| `Acceptance`, `RentingAnswers`, `PaymentAnswers`, `SettlementAnswers`, `AdministrationAnswers` | said on the rows of a valid database, without the functions of `Operations`: which requests are accepted, what they change, how the others are answered |
| `Runs`, `Replays`, `Repetitions`, `Windows`, `Eligibility`, `Overflows` | theorems over whole runs of any operations with any arguments, and two runs that end in an overflow |
| `Repository` | class `Database`: the tables as mutable state, the guarded statements, begin and finish of a transaction; the calls are numbered, and any set of numbers may be the calls that fail |
| `Readiness`, `PaymentService`, `BalanceAdjustment`, `RentalService`, `AccountService` | the services, statement by statement, proved against `Operations` |
| `FinalizationQueue`, `FinalizationService` | the finalizer: its queue, its rounds and its loop |
| `Passes`, `Cleanup` | the two scheduler sweeps, alone, with failing calls, and among other operations |
| `Sessions`, `Transactions` | service calls in a row and in one transaction, with failing calls; nested `WithinTransaction` compared with savepoints |
| `RateLimiter` | the token bucket and its cleanup loop |

The functions of `Operations` are the specification.  They are total and follow the branches of the
Go code and of its SQL: a join that finds no row, a guard that matches no row and an overflow are
results, not preconditions.  Nothing about their meaning is asserted in their own contracts; what they
keep and achieve is stated by the lemmas listed below, and the service methods are tied to them by
their `ensures` clauses (`Serves`: the specified result and tables, or a reported database failure; as the
outermost transaction with the tables of before after any error, inside an open one leaving the
rollback to its owner).

Time is in nanoseconds.  The service's clock and the database's clock are separate parameters of each
operation, and nothing relates the clocks of different operations, so all run theorems hold for clocks
that jump.

## What is assumed

- One transaction is one atomic step: row locks and advisory locks order the transactions.
- The unique indexes the code relies on exist: ledger and refund idempotency keys, one payment and one
  hold per rental, one waiting or active rental per account, one payment per provider transaction id.
- `payment_expires_at` is the column default, the database's time plus 15 minutes
  (`migrations/20260705193000_rental_payment_lifecycle_v1.sql`).
- A BIGINT overflow in SQL is an error of the statement.  Go's unguarded additions wrap, and are
  modelled so; `Runs.SumsNeverWrap` shows that they never do.
- Any set of database calls may fail.  That PostgreSQL refuses the rest of a transaction after a failed
  statement is the case in which all further calls of that transaction fail, its commit included.
- Users are not deleted while they have rentals.  A run starts without rentals and with idle accounts.
- Ids that are drawn at random or from a sequence are parameters; a clash is an error.
- The limiter's floating point numbers are real numbers; its rate and its capacity are not negative.

## What came out

- The rate bound and the invisibility of the limiter's cleanup hold exactly if a bucket fills up while
  it is idle (600 seconds at the rate reach the capacity) or holds less than one token.  Otherwise two
  bursts get more through than the bucket allows: one that ends just before a tick of the ten minute
  ticker, which finds the bucket too young to delete, and one right after the next tick, which has
  deleted it.  The limiter the application creates (rate 5, capacity 10,
  `internal/modules/app.go:186`) is on the safe side.
- The finalizer works off its queue in order and stops at the first rental whose released deposit does
  not fit its user's balance.  Earlier rounds stay committed, and the rentals behind it are not
  reached until that balance has room.  `Overflows.FinalizerOverflows` gives a run that ends there.
- The finalizer's branch for expired rentals with an already settled deposit
  (`TERMINAL_DEPOSIT_CATCH_UP`) is never taken: a deposit leaves custody in the same step that
  completes its rental (`Steps.CandidateShape`, `Runs.DepositSettledOnce`).
- `PayRentalWithBalance` answers "idempotent" for a rental that a webhook has paid: both have the
  same effect, a charge of that rental, and the effect happens once.
- The second guard of `disableAccountIfIdle` (no live rental) is implied by the first (status).
- The three places that decide whether a wallet payment is refundable agree in every reachable
  database; the refund itself fails for one more reason only, an overflowing balance, and
  `Overflows.RefundOverflows` gives a run after which it does.
- A nested `WithinTransaction` that joins behaves like a real nested transaction exactly unless somebody
  ignores the error of a nested call in which a statement that can fail follows another statement.
- A failing database call costs a cleanup pass exactly one row: that row stays as it was for the next
  pass, and all others are settled.

## Model

| member | source | states |
|---|---|---|
| LedgerKeys.DecimalRoundTrip | internal/payment/service.go:411 | Printing a rental id with `%d` and reading it back gives the id. |
| LedgerKeys.RenderInjective | internal/payment/repository.go:1364-1405 | The nine key formats are injective and pairwise disjoint over all rental ids, transaction ids and client keys: equal texts mean the same event. |
| LedgerKeys.EvidenceRoundTrip | internal/payment/rental_finalization.go:31-42 | Every positive `int64` event id can be written as an evidence reference that parses to that id. |
| LedgerKeys.EvidenceIsDecimal | internal/payment/rental_finalization.go:31-42 | A reference parses only if it is the prefix and the decimal form of a positive `int64`, after an optional plus sign and zeros. |
| Tables.FindKeyIsHasKey | internal/payment/balance_adjustment_repository.go:32-57 | A lookup by key text succeeds exactly if the index has the text, and then returns a row of exactly that structured key. |
| Tables.FindKeyStable | internal/payment/balance_adjustment_repository.go:32-57 | Appending rows never changes what a key resolves to. |
| Tables.SignedSumConcat | internal/payment/repository.go:606-629 | The signed sum of a user's ledger is additive over appended rows. |
| Pricing.TotalIsExact | internal/rental/service.go:29-41 | `CalculateRentalTotal` succeeds iff its inputs are valid and the mathematical total fits `int64`, and then returns exactly that total. |
| Pricing.AdminPricingIsLongestRental | internal/account/admin_service.go:12-20 | An administrator may set exactly the prices for which a rental of 720 hours can be billed. |
| Pricing.AdminPricingCoversAllRentals | internal/account/admin_service.go:12-20 | Hence every duration from 1 to 720 hours can be billed at such a price. |
| Ordering.SortedElements | internal/repository/postgres/workers.go:48-69 | The ordered result of a query holds exactly the selected rows. |
| Ordering.SortedInOrder | internal/repository/postgres/workers.go:49-53 | No row occurs twice, and rows come by rank, ties by id. |
| Ordering.SelectFirst | internal/payment/repository.go:948-969 | A scan of the candidates finds the one `ORDER BY ... LIMIT 1` names. |
| Ordering.SelectAll | internal/repository/postgres/workers.go:60-68 | The loop over a query's rows returns them all, in order. |
| Invariant.InitialIsValid | internal/account/repository_postgres.go:42-47 | A database without rentals and with idle accounts satisfies the invariant. |
| Invariant.RentalKeyFresh | internal/payment/repository.go:1364-1405 | A key built for a rental is unused as long as the rental's books have no row of its kind. |
| Invariant.ChangeKeysFresh | internal/payment/repository.go:1401-1403 | No key an operation writes is in the ledger yet: `insertLedgerEntry` never reports a conflict. |
| Invariant.ChangeIsGood | internal/payment/repository.go:744-817 | Any change to one rental that respects its own dossier, its account and its user's balance keeps the whole invariant, moves rows only forward and books every movement of money. |
| Steps.PendingIsUnbooked | internal/payment/service.go:303-308 | A pending payment has no hold, no refund, no ledger row and no transaction id. |
| Steps.WebhookRowUnique | internal/payment/service.go:1360-1372 | At most one payment answers a webhook. |
| Steps.TransactionIsFresh | internal/payment/service.go:310-331 | The pending payment a webhook settles was found by its id: no payment carries the transaction id yet. |
| Steps.WebhookIsGood | internal/payment/service.go:254-452 | A webhook keeps the invariant, moves rows only forward and books every movement of money. |
| Steps.PayIsGood | internal/payment/service.go:519-691 | So does a payment from the balance. |
| Steps.CancelIsGood | internal/rental/repository_postgres.go:249-374 | So does the cancellation of an unpaid rental. |
| Steps.ExpireReservationIsGood | internal/repository/postgres/workers.go:102-188 | So does the expiry of an unpaid reservation. |
| Steps.OverdueExpires | internal/repository/postgres/workers.go:190-315 | An overdue active rental always expires without error, and gets the 24 hour review deadline exactly if it has a deposit. |
| Steps.ExpireRentalIsGood | internal/repository/postgres/workers.go:190-315 | The expiry of a rental keeps the invariant, moves rows only forward and moves no money. |
| Steps.ReleaseCompletes | internal/payment/service.go:973-1034 | Releasing a deposit and completing its rental always succeed together, as one good step. |
| Steps.ForfeitCompletes | internal/payment/service.go:1100-1162 | So do forfeiting a deposit and completing its rental. |
| Steps.RefundCompletes | internal/payment/service.go:725-922 | So do refunding a wallet payment, deposit included if it is still held, and completing its rental. |
| Steps.SettledIsCompleted | internal/payment/rental_finalization.go:86-90 | A deposit that has left custody belongs to a completed rental: a replay has nothing to complete. |
| Steps.ReleaseIsGood | internal/payment/service.go:933-1040 | A release keeps the invariant, moves rows only forward and books every movement of money. |
| Steps.ForfeitIsGood | internal/payment/service.go:1042-1168 | So does a forfeit. |
| Steps.RefundIsGood | internal/payment/service.go:693-931 | So does a refund. |
| Steps.CandidateShape | internal/payment/repository.go:945-985 | A candidate of the finalizer has no deposit, or a held one whose deadline, the rental's end plus 24 hours, has passed; the query's third alternative never occurs. |
| Steps.CandidateIsFinalized | internal/payment/rental_finalization.go:155-190 | The Go switch completes every rental the query selects, with an automatic release exactly if it has a deposit; it fails iff the credit does not fit the balance, and then changes nothing. |
| Steps.FinalizeNextIsGood | internal/payment/rental_finalization.go:152-192 | A round of the finalizer keeps the invariant, moves rows only forward and books every movement of money. |
| RentingSteps.RentedAmounts | internal/rental/service.go:149-165 | The amounts of a created rental are exact: the hourly price times the whole hours, and its sum with the deposit, positive and within `int64`. |
| RentingSteps.RentIsGood | internal/rental/service.go:126-216 | Renting an account keeps the invariant and moves no money. |
| RentingSteps.CredentialsIsGood | internal/rental/service.go:218-262 | Handing out credentials keeps the invariant and changes only the log. |
| RentingSteps.CredentialsAreExclusive | internal/rental/repository_postgres.go:173-208 | No two users, and no two rentals, ever have access to the credentials of one account in the same database, at whatever times they ask. |
| AdministrationSteps.IdleIsByStatus | internal/repository/postgres/workers.go:381-415 | An account has a live rental iff its status is reserved or rented. |
| AdministrationSteps.DisableIsGood | internal/repository/postgres/workers.go:346-415 | Disabling an account keeps the invariant: no busy account is ever disabled. |
| AdministrationSteps.CreateAccountIsGood | internal/account/admin_service.go:53-74 | Creating an account keeps the invariant. |
| AdministrationSteps.UpdatePricingIsGood | internal/account/admin_service.go:76-100 | Repricing an account keeps the invariant; rentals keep the price they were made at. |
| AdministrationSteps.UpdateUserIsGood | internal/user/admin_service.go:38-71 | Changing roles and block flags moves no money and touches no rental. |
| AdministrationSteps.RegisterIsGood | internal/auth/service_postgres.go:40-90 | A new user starts with nothing; no balance, rental or ledger row of anybody changes. |
| AdministrationSteps.AdjustmentStoredExactly | internal/payment/balance_adjustment_repository.go:129-155 | The signed amount survives storage as an entry type and a magnitude, and the stored row matches the request it was made from. |
| AdministrationSteps.CheckedIsExact | internal/payment/balance_adjustment.go:255-263 | The guards admit exactly the adjustments whose result is a valid balance, and the result is the exact sum. |
| AdministrationSteps.AdjustIsGood | internal/payment/balance_adjustment.go:82-210 | An adjustment keeps the invariant and books exactly what it moves. |
| Runs.StepIsGood | internal/payment/repository.go:744-817 | Each of the nineteen operations, with any arguments, keeps the invariant of the whole database. |
| Runs.RunIsGood | internal/payment/repository.go:744-817 | So does every run; rows have only moved forward, and every change of a balance is booked. |
| Runs.ReachableIsValid | internal/payment/repository.go:744-817 | Every reachable database satisfies the invariant. |
| Runs.BalanceIsLedger | internal/payment/service.go:554-600 | After any run each balance, also of a user who registered on the way, is its starting value, or 0, plus the signed sum of the user's ledger rows, and lies between 0 and the largest `int64`. |
| Runs.SingleCharge | internal/payment/service.go:266-345 | A rental has at most one charge, by webhook or wallet, exactly if its payment succeeded, and for price plus deposit. |
| Runs.SumsNeverWrap | internal/payment/service.go:554 | The unguarded sums of charge and refund are exact, and a refund never exceeds the charge. |
| Runs.TransactionSettlesOnce | internal/payment/repository.go:744-764 | A provider transaction id settles at most one payment and is booked on that payment's rental only. |
| Runs.DepositConservation | internal/payment/repository.go:1035-1136 | What was taken into custody equals what was released, forfeited or refunded plus what is still held, and at most one of the four is not zero. |
| Runs.DepositSettledOnce | internal/payment/repository.go:1035-1136 | A deposit leaves custody in the very step that completes its rental, and neither the hold nor the rental changes in any later run. |
| Runs.RefundBound | internal/payment/service.go:721-866 | Whatever the order of release, forfeit and refund, a wallet payment returns at most what it took, and all of it iff a refund completed and the deposit was not forfeited. |
| Runs.AccountsFollowRentals | internal/payment/repository.go:785-817 | An account is reserved iff it has exactly one live rental and that is waiting, rented iff exactly one and that is active, and otherwise has none. |
| Runs.LifecyclePairs | internal/payment/repository.go:744-801 | Payment and rental status form one of six pairs; a hold exists iff a rental with a deposit is paid, and is held iff that rental is active or expired. |
| Replays.ChangeSpends | internal/payment/service.go:933-1040 | An operation that changed anything had its effect. |
| Replays.SpentStays | internal/payment/service.go:933-1040 | An effect that took place stays in place in every run. |
| Replays.SpentIsNoOp | internal/payment/service.go:933-1040 | Once an effect took place, every operation with that effect leaves the whole database as it is. |
| Replays.AtMostOnce | internal/payment/service.go:933-1040 | After a webhook, wallet payment, release, forfeit or refund changed anything, with any operations in between, every operation with the same effect changes nothing, not even a log, and answers as a replay or with an error. |
| Replays.AdjustmentMovesExactly | internal/payment/balance_adjustment.go:103-204 | An accepted adjustment moves one balance by exactly the signed amount, or is a replay and moves nothing. |
| Replays.AdjustmentReplay | internal/payment/balance_adjustment.go:103-204 | After an accepted adjustment and any run, no request under its key moves a balance; the identical request of an administrator gets the stored balances, every other one is refused, as a conflict if it is otherwise in order. |
| Replays.AdjustmentIsRecognised | internal/payment/balance_adjustment.go:289-305 | A stored row matches exactly one request. |
| Eligibility.EligibilityAgrees | internal/payment/admin_rentals.go:667-796 | The SQL column, the Go predicate and the success of a refund agree in every valid database, except that the refund also needs room in the balance. |
| Eligibility.EligibilityReasons | internal/payment/admin_rentals.go:667-796 | The reason the page gives is the true one; that a payment from the balance has not succeeded is never the reason. |
| Eligibility.RefundReturns | internal/payment/service.go:693-931 | A committed refund credits price plus held deposit, completes the rental and leaves a settled deposit as it is. |
| Overflows.FinalizerOverflows | internal/payment/rental_finalization.go:155-190 | A reachable database whose only due rental makes the finalizer fail with an overflow. |
| Overflows.RefundOverflows | internal/payment/admin_rentals.go:667-796 | A reachable database in which column and Go predicate call a refund eligible and an administrator's refund fails with an overflow. |
| Windows.AutoReleaseExactly | internal/payment/repository.go:945-970 | A rental with a deposit is a finalizer candidate iff the deposit is held, the rental expired and the end plus 24 hours reached. |
| Windows.SettlementWindowsDisjoint | internal/payment/service.go:1218-1244 | At any two points of a run, a forfeit that works and an automatic release that works are never at the same instant, and the forfeit's is the earlier one. |
| Windows.PaymentNeedsWindow | internal/payment/repository.go:785-801 | A rental becomes active only while its reservation lives, by the database's clock and, for the wallet, also by the service's. |
| Windows.ReservationWindowsDisjoint | internal/repository/postgres/workers.go:102-188 | At any two points of a run, a payment that activates a rental and an expiry of its reservation are never at the same instant. |
| Windows.ReservationLives | internal/rental/repository_postgres.go:30-40 | A new reservation can be expired from exactly 15 minutes after its creation. |
| RentingAnswers.RentExactly | internal/rental/service.go:126-216 | A request to rent is accepted iff the account is live and available, the user exists and is not blocked, the ids are positive and free, the period is between one hour and 720 hours, and the balance covers the hourly price times the whole hours plus the deposit; a refusal changes nothing. |
| RentingAnswers.RentEffect | internal/rental/service.go:149-205 | The accepted rental costs exactly its whole hours, lasts exactly as long as asked for, can be paid for 15 minutes, has the deposit of its account and a pending payment over the sum, and reserves the account; nothing else changes. |
| RentingAnswers.RentRefusals | internal/rental/service.go:126-205 | For each of ten refusals, exactly when it is the answer. |
| RentingAnswers.CancelExactly | internal/rental/repository_postgres.go:249-374 | A user cancels a rental of his own iff it waits for its payment; cancelling again changes nothing; every other call gets exactly the error its state calls for. |
| RentingAnswers.CancelEffect | internal/rental/repository_postgres.go:249-330 | A cancellation fails the payment, frees the account and changes no other row. |
| RentingAnswers.CredentialsExactly | internal/rental/repository_postgres.go:173-230 | Credentials are issued iff the rental is the caller's own, active, and the instant lies in its period, end excluded; the answer is its account, and an event records it. |
| RentingAnswers.ExpireReservationExactly | internal/repository/postgres/workers.go:102-188 | A reservation expires iff it is unpaid and its time is over; then its payment failed, its rental is expired and its account available. |
| RentingAnswers.ExpireRentalExactly | internal/repository/postgres/workers.go:190-315 | A rental expires iff it is active, on the named account, and over; then it has its deadline iff it has a deposit, and its account is available. |
| PaymentAnswers.WebhookExactly | internal/payment/service.go:254-452 | A webhook settles a payment iff it is well formed, reports a success, names a pending payment and its rental with equal amount and currency, no payment carries its transaction id, and the reservation lives; it is answered as a repetition iff its transaction settled that very payment and the rental is active. |
| PaymentAnswers.WebhookRefusals | internal/payment/service.go:266-345 | For any other webhook, the one payment it is about decides: each of seven refusals and both answers iff. |
| PaymentAnswers.WebhookDeclines | internal/payment/service.go:1331-1383 | A webhook is malformed, unsuccessful or about no payment exactly then; what settles nothing changes nothing. |
| PaymentAnswers.WebhookEffect | internal/payment/service.go:333-452 | A settled webhook makes payment, rental and account paid, active and rented, holds and books a positive deposit, books the amount, and moves no balance. |
| PaymentAnswers.PayExactly | internal/payment/service.go:519-691 | The balance pays iff the rental is the caller's own, its payment pending, both clocks before its expiry and the amount at most the balance; each of five refusals and the idempotent answer iff. |
| PaymentAnswers.PayEffect | internal/payment/service.go:562-680 | The balance falls by exactly the amount of the payment, which is booked with the held deposit. |
| SettlementAnswers.ReleaseExactly | internal/payment/service.go:933-1040 | A release changes something iff a current administrator releases a held deposit of an expired rental that fits the balance; it repeats, with the stored times, iff an administrator released the deposit, and not if the scheduler did; each of five refusals iff. |
| SettlementAnswers.ReleaseEffect | internal/payment/service.go:973-1034 | A release credits exactly the deposit, marks the hold and completes the rental. |
| SettlementAnswers.ForfeitExactly | internal/payment/service.go:1042-1168 | A forfeit changes something iff a current administrator gives an allowed reason and evidence on record for a held deposit of an expired rental strictly before the end plus 24 hours; it repeats iff the deposit was forfeited for that reason on that evidence. |
| SettlementAnswers.ForfeitRefusals | internal/payment/service.go:1042-1168 | For each of seven refusals, exactly when it is the answer. |
| SettlementAnswers.ForfeitEffect | internal/payment/service.go:1100-1162 | A forfeit books the loss, marks the hold with reason and evidence, completes the rental and moves no balance. |
| SettlementAnswers.RefundExactly | internal/payment/service.go:693-931 | A refund changes something iff a current administrator gives an allowed reason for a rental that is over, paid from the balance and not refunded, and the amount fits; it repeats, with the stored amounts, iff a refund was made. |
| SettlementAnswers.RefundRefusals | internal/payment/service.go:693-745 | For each of five refusals, exactly when it is the answer. |
| SettlementAnswers.RefundEffect | internal/payment/service.go:745-922 | A refund credits the price and a deposit that is still held, stores and answers these amounts, leaves a settled deposit as it is, and completes the rental. |
| SettlementAnswers.DueExactly | internal/payment/repository.go:945-970 | The finalizer's query selects a rental iff it is expired and paid and, if it has a deposit, its end plus 24 hours is reached; its order is by that time. |
| SettlementAnswers.FinalizeExactly | internal/payment/rental_finalization.go:155-192 | A round completes the rental that has been due for longest, by id among equals, and releases its deposit in nobody's name, or reports that the balance has no room. |
| SettlementAnswers.NothingToFinalize | internal/payment/rental_finalization.go:195-197 | A round finds nothing iff nothing is due. |
| Repetitions.ReleaseAfterwards | internal/payment/service.go:955-972 | At any later time a release of a settled deposit is answered with its times if an administrator released it, and refused as already settled if it was forfeited, refunded or released by the scheduler. |
| Repetitions.ReleaseRepeated | internal/payment/service.go:955-972 | A release made again after any run, by any current administrator, is answered with the time of the first. |
| Repetitions.ForfeitAfterwards | internal/payment/service.go:1080-1099 | The same for a forfeit: only the very same reason and evidence repeat it. |
| Repetitions.ForfeitRepeated | internal/payment/service.go:1080-1099 | A forfeit made again after any run is answered with the time of the first. |
| Repetitions.RefundRepeated | internal/payment/service.go:757-780 | A refund made again after any run, by any current administrator and for any allowed reason, is answered with principal, deposit, total and deposit status of the first. |
| Repetitions.WebhookRepeated | internal/payment/service.go:288-301 | A webhook delivered again after any run is answered as the first time, as a repetition, iff its rental is still active, and refused otherwise. |
| Repetitions.PayRepeated | internal/payment/service.go:535-552 | So is a payment from the balance. |
| AdministrationAnswers.AdjustExactly | internal/payment/balance_adjustment.go:82-210 | An adjustment moves a balance iff a current administrator makes a well-formed request under an unused key for a user whose balance then stays between 0 and the largest `int64`. |
| AdministrationAnswers.AdjustFresh | internal/payment/balance_adjustment.go:131-204 | Under a fresh key the balance moves by exactly the signed amount and all is recorded, or it is told whether the sum is too large or negative. |
| AdministrationAnswers.AdjustRepeated | internal/payment/balance_adjustment.go:118-130 | Under a used key the row of the very same request is reported, and any other request is a conflict. |
| AdministrationAnswers.UpdatePricingExactly | internal/account/admin_service.go:76-100 | Prices that are given are stored and the others stay, iff the longest rental can be billed at both together. |
| AdministrationAnswers.DisableExactly | internal/repository/postgres/workers.go:346-415 | An account is disabled iff it is neither reserved nor rented nor deleted. |
| AdministrationAnswers.RegisterExactly | internal/auth/service_postgres.go:40-90 | A new user owns nothing, and registering makes nobody an administrator. |
| Repository.Database.Begin | internal/shared/database/transaction.go:23-32 | Inside a transaction a nested call joins it; otherwise it opens one and remembers the tables. |
| Repository.Database.Finish | internal/shared/database/transaction.go:42-54 | The owner of a transaction commits or restores the tables it began with; a joined call does neither. |
| Repository.Database.RequireCurrentAdmin | internal/shared/authorization/current_admin.go:27-73 | Passes iff the stored user is an unblocked administrator. |
| Repository.Database.LockWalletPaymentState | internal/payment/repository.go:382-431 | Loads the joined rows of the user's own rental, or reports that there is none. |
| Repository.Database.CreateAdminAccount | internal/account/repository_postgres.go:42-47 | Inserts an available account under a free id. |
| Repository.Database.InsertAdminBalanceAdjustmentLedger | internal/payment/balance_adjustment_repository.go:129-155 | Appends the row of an adjustment iff its key is free. |
| Repository.Database.DebitUserBalance | internal/payment/repository.go:1155-1171 | Debits iff the balance suffices, and changes nothing else. |
| Repository.Database.CreditUserBalance | internal/payment/repository.go:1138-1153 | Credits iff the sum fits BIGINT, and changes nothing else. |
| Repository.Database.LockPaymentForWebhook | internal/payment/repository.go:644-742 | Finds the payment of the transaction id, else the one of the payment id. |
| Repository.Database.MarkPaymentSuccessful | internal/payment/repository.go:744-764 | Compare-and-set from pending to paid by webhook; a transaction id that another payment of the provider carries is refused by the index. |
| Repository.Database.MarkPaymentSuccessfulForWallet | internal/payment/repository.go:766-783 | Compare-and-set from pending to paid from the balance. |
| Repository.Database.ActivateRental | internal/payment/repository.go:785-801 | Compare-and-set from waiting to active while the reservation lives. |
| Repository.Database.MarkAccountRented | internal/payment/repository.go:803-817 | Compare-and-set from reserved to rented. |
| Repository.Database.CreateDepositHold | internal/payment/repository.go:823-843 | Inserts a hold unless there is one. |
| Repository.Database.InsertLedgerEntry | internal/payment/repository.go:1364-1405 | Appends a row iff its key text is not in the index. |
| Repository.Database.LockDepositSettlementState | internal/payment/repository.go:849-943 | Loads the joined rows or returns the error of the first join that fails. |
| Repository.Database.SettleHeldDeposit | internal/payment/repository.go:1035-1100 | Compare-and-set of a hold out of the held status. |
| Repository.Database.MarkRentalCompleted | internal/payment/repository.go:1102-1136 | Completes an expired, paid rental iff its deposit is settled or it has none. |
| Repository.Database.CreateRefund | internal/payment/repository.go:1193-1262 | Inserts a refund or returns the one stored under its key. |
| Repository.Database.LoadCompletedRefundTotals | internal/payment/repository.go:1330-1344 | The amounts already refunded for the payment. |
| Repository.Database.MarkRefundCompleted | internal/payment/repository.go:1346-1362 | Compare-and-set from requested to completed. |
| Repository.Database.LockNextFinalization | internal/payment/repository.go:945-985 | Returns the first candidate by deadline or end, then id, or none if there is none. |
| Repository.Database.ReserveAccount | internal/account/repository_postgres.go:348-363 | Compare-and-set from available to reserved. |
| Repository.Database.CreateRental | internal/rental/repository_postgres.go:30-40 | Inserts a rental iff its id is free and its account has no live rental. |
| Repository.Database.CreatePendingPayment | internal/payment/repository.go:370-380 | Inserts a payment iff rental and id are free. |
| Repository.Database.CancelWaitingPaymentRental | internal/rental/repository_postgres.go:249-374 | The statement over three tables, step by step, is the specified cancellation. |
| Repository.Database.ExpireWaitingPaymentReservation | internal/repository/postgres/workers.go:102-188 | The statement over three tables, step by step, is the specified expiry of a reservation. |
| Repository.Database.ExpireRental | internal/repository/postgres/workers.go:190-315 | The transaction is the specified expiry of a rental, all or nothing; it fails exactly if one of its three calls does, and makes no call after that. |
| Repository.Database.GetExpiredRentals | internal/repository/postgres/workers.go:48-69 | Returns exactly the overdue rentals with their accounts, by end and id. |
| Repository.Database.GetExpiredReservations | internal/repository/postgres/workers.go:71-100 | Returns exactly the expired reservations, by expiry. |
| Repository.Database.DisableIfIdle | internal/repository/postgres/workers.go:381-415 | Disables an account iff it is idle, with the error that tells why not. |
| Repository.Database.UpdateAdminPricing | internal/account/repository_postgres.go:49-59 | Changes only the given prices of a live account. |
| Repository.Database.LockAdminAndUserBalance | internal/payment/balance_adjustment_repository.go:82-127 | The row loop checks the actor and finds the target whichever id comes first, also when both are the same user. |
| Repository.Database.GetAdminBalanceAdjustment | internal/payment/balance_adjustment_repository.go:32-80 | Returns the row stored under the key, if it can be read back. |
| Repository.Database.SetUserBalance | internal/payment/balance_adjustment_repository.go:157-170 | Sets one balance and nothing else. |
| Readiness.IsChargeable | internal/payment/service.go:375-452 | In a valid database a pending payment has no hold and its keys are free, so no insert of a charge is refused. |
| Readiness.IsReceivable | internal/payment/service.go:1360-1383 | A webhook finds at most one payment, and while that is pending the key of its transaction id is free and no other payment carries the id: the mismatch error of the index is never returned. |
| Readiness.IsSettleable | internal/payment/service.go:973-1010 | A held deposit has no row that settles it: release, forfeit and refund keys are free. |
| Readiness.IsRefundable | internal/payment/service.go:745-789 | A rental without a completed refund has no row of one, and no refund is ever left half done. |
| PaymentService.PaymentService.PayRentalWithBalance | internal/payment/service.go:519-691 | Call by call, with any calls failing: the specified result and tables, or a reported failure; outermost with the tables of before after any error, joined without touching the open transaction. |
| PaymentService.PaymentService.ProcessWebhook | internal/payment/service.go:254-452 | The same for a webhook. |
| PaymentService.PaymentService.ReleaseDeposit | internal/payment/service.go:933-1040 | The same for a release. |
| PaymentService.PaymentService.ForfeitDeposit | internal/payment/service.go:1042-1168 | The same for a forfeit. |
| PaymentService.PaymentService.RefundWalletPayment | internal/payment/service.go:693-931 | The same for a refund, which is requested first and completed later. |
| PaymentService.PaymentService.CompleteRentalAfterSettlement | internal/payment/rental_finalization.go:78-143 | The completion that ends every settlement is the specified one, on the rows loaded before. |
| PaymentService.PaymentService.PayOutDeposit | internal/payment/rental_finalization.go:208-263 | Settles a held deposit in favour of its user, by an administrator or by the scheduler, as specified. |
| PaymentService.PaymentService.LoadDepositSettlementState | internal/payment/service.go:1170-1188 | Loads a rental with its hold; a missing hold is told apart from a missing rental. |
| PaymentService.RequestIsTransparent | internal/payment/service.go:745-891 | Storing a refund as requested and completing it at the end gives the same tables as storing it completed. |
| BalanceAdjustment.BalanceAdjustmentService.AdjustAdminBalance | internal/payment/balance_adjustment.go:82-210 | The same for an adjustment, from any database. |
| RentalService.RentalService.RentAccount | internal/rental/service.go:126-216 | The same for renting: a refused insert also takes back the reservation. |
| RentalService.RentalService.CancelRental | internal/rental/service.go:264-280 | The same for a cancellation. |
| RentalService.RentalService.GetRentalCredentials | internal/rental/service.go:218-262 | Credentials are handed out only together with the event that records it. |
| AccountService.AccountService.CreateAccount | internal/account/admin_service.go:53-74 | The same for creating an account. |
| AccountService.AccountService.UpdateAccount | internal/account/admin_service.go:76-100 | The same for repricing. |
| AccountService.AccountService.DisableAccountIfIdleAsCurrentAdmin | internal/repository/postgres/workers.go:362-379 | All or nothing for disabling, which always opens its own transaction. |
| FinalizationQueue.RoundTakesHead | internal/payment/rental_finalization.go:152-205 | A successful round takes the head of the queue and leaves the rest, in the same order. |
| FinalizationQueue.NextRound | internal/payment/rental_finalization.go:152-205 | After any number of rounds the next one completes the next rental of the original queue, and fails iff that rental's credit does not fit. |
| FinalizationQueue.RoundsComplete | internal/payment/rental_finalization.go:152-205 | As many rounds as are affordable leave every rental they took completed. |
| FinalizationQueue.RoundsDrain | internal/payment/rental_finalization.go:195-197 | A queue worked off to its end has nothing left that is due. |
| FinalizationService.FinalizationService.FinalizeOne | internal/payment/rental_finalization.go:155-192 | The transaction of one round is the specified one, alone or joined. |
| FinalizationService.FinalizationService.FinalizeExpiredRentals | internal/payment/rental_finalization.go:145-206 | The loop ends; it takes a prefix of the queue in whole rounds, counts it exactly, and stops early only at a failing call or at a credit that does not fit. |
| FinalizationService.FinalizerSucceeds | internal/payment/rental_finalization.go:145-206 | With a database that answers, the loop succeeds iff the credits of the first rentals of the queue, up to the limit, fit their users' balances. |
| FinalizationService.FinalizerCompletes | internal/payment/rental_finalization.go:145-206 | Then processed and completed are the smaller of limit and number due, automatic releases are at most as many, all counted rentals are completed, and fewer than the limit means nothing is left. |
| Cleanup.CallSettles | internal/shared/scheduler/expired_cleanup.go:39-63 | A call for a row of the snapshot never fails; afterwards the row has left its status, and an account freed by the call is available. |
| Cleanup.SweepSettles | internal/shared/scheduler/expired_cleanup.go:39-63 | Whatever operations run before, between and after the calls of a pass, no rental of its snapshot is still active, or still waiting, at the end. |
| Cleanup.DueExactly | internal/repository/postgres/workers.go:48-100 | The query of a sweep selects a row iff the call for that row would change something at that time. |
| Cleanup.QueueByTime | internal/repository/postgres/workers.go:48-100 | The rows come by end, or by expiry of the reservation, and by id among equals. |
| Cleanup.NextIsSwept | internal/repository/postgres/workers.go:190-315 | The call for the next row of a pass answers, settles that row, frees its account and touches nothing else. |
| Cleanup.PassSweeps | internal/shared/scheduler/expired_cleanup.go:39-63 | Whichever calls fail, a pass settles exactly the rows whose calls were answered and leaves every other rental, payment and account, and all money, as they were. |
| Cleanup.EachFailureCostsOneRow | internal/shared/scheduler/expired_cleanup.go:45-52 | A pass leaves exactly as many rows unsettled as database calls failed while it was at work; none if none failed. |
| Cleanup.PassIsRun | internal/shared/scheduler/expired_cleanup.go:39-63 | The tables after a pass are those of the run of its answered calls, in the order of the query. |
| Passes.MissedAreFailures | internal/shared/scheduler/expired_cleanup.go:45-52 | A failing call ends the call for its row and no other: rows missed and calls failed are equally many. |
| Cleanup.CleanupWorker.CleanExpiredRentals | internal/shared/scheduler/expired_cleanup.go:18-67 | The loop fails iff its query does; otherwise it is that pass over all overdue rentals, whichever calls fail: a failing call is skipped and the loop goes on. |
| Cleanup.CleanupWorker.CleanUnpaidReservations | internal/shared/scheduler/waiting_payment_cleanup.go:18-70 | The same for unpaid reservations. |
| Sessions.ErrorTakesNoStep | internal/shared/database/transaction.go:42-47 | An operation that returns an error has no effect. |
| Sessions.AnswerIsGood | internal/shared/database/transaction.go:23-54 | A service call takes the step of its operation or none, and takes it if no database call fails. |
| Sessions.Session.Serve | internal/shared/database/transaction.go:23-54 | For each of twelve operations the call of its service method takes the step, returns its error or reports a failing call, alone or joined. |
| Sessions.Session.ServeAll | internal/shared/database/transaction.go:34-54 | Any calls in a row, with any database calls failing: the tables are those of the run of the calls that succeeded, and of all of them if none failed. |
| Sessions.Session.Together | internal/shared/database/transaction.go:23-54 | Any calls in one transaction: they are all committed, or the first error is returned and the tables are those of before. |
| Sessions.ErrorIsFirst | internal/shared/database/transaction.go:42-47 | The error of a transaction of several calls is that of the first one that fails. |
| Transactions.JoinedIsNested | internal/shared/database/transaction.go:25-47 | Unless a nested call that can fail midway has its error ignored, joined calls and real nested transactions have the same outcome and effect, whatever the statements do. |
| Transactions.UnsafeDiffers | internal/shared/database/transaction.go:25-27 | For every other shape of a callback there is one that commits statements of a nested call that failed. |
| Transactions.AgreesExactly | internal/shared/database/transaction.go:25-47 | So joined and nested transactions agree on all callbacks of a shape iff no error is ignored of a nested call in which a statement that can fail follows another. |
| Transactions.Execute | internal/shared/database/transaction.go:25-27 | Run on the database, with nested calls through `Begin` and `Finish`, a callback does what that model of joined calls says, failing calls being failing statements. |
| Transactions.Transact | internal/shared/database/transaction.go:23-54 | As the outermost call it is committed as a whole or, after an error or a failed commit, not at all. |
| RateLimiter.Limiter.Allow | internal/shared/middleware/rate_limiter.go:51-81 | Answers by the refilled level and takes one token if there is one. |
| RateLimiter.Limiter.Cleanup | internal/shared/middleware/rate_limiter.go:37-49 | Deletes exactly the buckets idle for more than ten minutes. |
| RateLimiter.SaneAfter | internal/shared/middleware/rate_limiter.go:68-73 | After every trace all buckets hold between zero and capacity tokens. |
| RateLimiter.TokensConserved | internal/shared/middleware/rate_limiter.go:51-81 | What a trace admits plus what is left is at most what there was plus what the interval refills. |
| RateLimiter.SameLevels | internal/shared/middleware/rate_limiter.go:37-49 | If buckets fill up while idle, deleting them changes no level at any later time. |
| RateLimiter.TwoBursts | internal/shared/middleware/rate_limiter.go:37-81 | Otherwise a single caller can, around two ticks of the ten minute ticker, drain the bucket, be forgotten and drain it again. |
| RateLimiter.PlanExists | internal/shared/middleware/rate_limiter.go:51-81 | For every such configuration there are times at which this gets more through than capacity plus refill. |
| RateLimiter.RateBoundExactly | internal/shared/middleware/rate_limiter.go:37-81 | The rate bound holds over all traces and intervals iff the cleanup is harmless, for sweeps at any times and for the ticks of the ticker alike; without cleanup it always holds. |
| RateLimiter.CleanupExactly | internal/shared/middleware/rate_limiter.go:37-49 | All callers get the same answers as without cleanup iff the cleanup is harmless, again for both. |

## Left out

- HTTP handlers, JSON, DTOs, logging, metrics, pagination, listings and summaries: no part of the machine.
- HMAC, AES-GCM, bcrypt, JWT and random ids: library code; the signature of a webhook is taken as checked.
- Login, tokens, Redis, Steam, games, reviews and the web front end.
- Trimming and upper-casing of texts: reason codes, comments, keys and currencies arrive normalised.
- The contents of audit and event metadata, the currency columns beyond their equality, `created_at`,
  `updated_at`, `processed_at`, cancellation reasons, and the decryption of credentials.
- Row ids of holds, refunds and ledger rows: holds and refunds are found by their rental, of which each
  has one; a reservation is expired by its rental instead of its payment.
- Concurrent transactions inside PostgreSQL: `SKIP LOCKED` and `pg_try_advisory_xact_lock` are modelled
  for a worker that finds no row locked elsewhere, deadlocks not at all.
- The second look of `ProcessWebhook` after `ErrPaymentAlreadyProcessed` (internal/payment/service.go:308-328):
  the row is locked, so the guarded update cannot miss it.
- An error while rolling back, and a panic in a callback: both end as a rollback.
- A crash between a commit and its acknowledgement.
- AdministrationSteps.UpdateUserIsGood: of the administration of users only role and block flag are modelled,
  not the trust score and not the revocation of refresh tokens.
- AdministrationSteps.RegisterIsGood: of a registration only the new row with its balance is modelled, not
  e-mail, password and tokens.
- Repository.Database.GetExpiredReservations: ties in expiry go by rental id instead of payment id.
- Repository.Database.LockNextFinalization: a candidate that another transaction holds locked is not skipped;
  the contract is that of a lone worker.
- Repository.Database.ExpireRental: a rental that another transaction holds locked is not skipped.
- FinalizationService.FinalizationService.FinalizeExpiredRentals: modelled for the scheduler, which calls it
  outside of any transaction.
- Sessions.Session.Serve: expiry, disabling, registration and the administration of users are not among its
  operations; the first two never join a transaction.
- Transactions.AgreesExactly: a statement fails by its guard, which leaves the transaction usable; one that the
  server rejects, after which a PostgreSQL transaction can only be rolled back, is not told apart.
- RateLimiter.Limiter.Allow: floating point rounding is not modelled; the mutex makes each call atomic.
