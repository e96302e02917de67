# Wallet ledger service: verified model

A wallet service moves money with two requests, `TopUp` and `Transfer`, and creates wallets with
`Register`. Each request is a multi-statement database transaction at the READ COMMITTED level, so
nothing but its row locks keeps concurrent requests apart. This project models the requests as sessions
of a concurrent protocol, over the committed tables, a lock table and each session's private writes, and
proves what every run keeps, for any number of requests, any interleaving and any failure. On top of it
stand the idempotency layer, the rate limiter, the path from a commit to a notification, and the paged
lists.

| module | what it holds |
|---|---|
| `Money`, `WalletOrder`, `Tables` | two-decimal storage with its rounding, the byte order of wallet IDs, the tables |
| `Serial` | the reference: each request as one indivisible change of the tables |
| `Answers` | what every request is answered, and what it changes, by the tables alone; receipts stay true |
| `Sessions` | the protocol: one statement of one session at a time, locks, commits, failures |
| `Serializability`, `Guarantees` | the invariant of every run, and what follows: strict serializability, serial refusals |
| `Liveness` | no circular waiting, progress, termination |
| `EmailRace` | when a registration loses the race for its address |
| `Bookkeeping`, `OrderIndependence`, `Sums` | double entry, reconciliation, conservation, the effect of reordering |
| `Service` | `TopUp`, `Transfer`, `Register` and the repositories as imperative code, proved to be runs of the protocol |
| `KeyReuse` | when a repeated key is answered for the request at hand |
| `Idempotency`, `Overlap` | the middleware one call at a time, and its three steps interleaved |
| `Handlers` | the middleware over the protocol: handlers run statement by statement, and refine the steps above |
| `RateLimit` | the fixed-window counter |
| `Notifications` | publish, delivery, acknowledgement and redelivery |
| `Paging`, `Views` | page arithmetic and filters; listing, detail and ledger agree |

Amounts are exact `real` numbers of cents and may have any fraction of a cent; stored amounts and
balances are whole cents, as the DECIMAL(18,2) columns keep them.

Main results: `Guarantees.ReachableIsSerial`, `Guarantees.SerialOrderIsRealTime`,
`Guarantees.RefusalsAreSerial`, `Answers.AnswerIff`, `Answers.ReceiptsStayTrue`, `Liveness.NoCircularWait`, `Liveness.SomeSessionCanStep`,
`Liveness.MaximalRunsEndClean`, `Bookkeeping.BalancesReconcile`, `Bookkeeping.MoneyIsConserved`,
`OrderIndependence.OrderDoesNotMatter`, `Service.Transfer`,
`Idempotency.SequentialCallsAreDeduplicated`, `Overlap.OneRunIff`, `Handlers.HistoryIsSeen`, `Handlers.RepliesAreReceipts`,
`RateLimit.SlidingWindowIff`, `Notifications.NoticesTraceToTransactions`,
`Views.DetailMatchesListing`, `Paging.PagesPartition`.

Where the code and its documentation or evident intent differ, the code is modelled as it is:

- The repository's README (lines 44 and 124) calls the rate limiter a sliding window. The script is a
  fixed window. `RateLimit.SlidingWindowIff`: it admits at most its limit in every interval of one window
  length if and only if the limit is at most one request or the window is empty.
  `RateLimit.SlidingWindowIsExceeded` gives arrivals of which 2 * max - 1 are admitted within any gap,
  however short, and `RateLimit.IntervalAdmitsLessThanTwice` shows that this is the most.
- A transfer of a half-cent amount creates a cent, since both stored balances round up
  (`Bookkeeping.HalfCentCreatesACent`). `Bookkeeping.BalanceEqualsLedgerIff` and
  `Bookkeeping.BalancesEqualTopUpsIff` say exactly when stored balances agree with the ledger and with the
  top-ups.
- Two registrations racing for one e-mail address: the loser gets the database's duplicate-key error, not
  the service's conflict error. `EmailRace.RaceCanBeLost` is such a run from the start;
  `EmailRace.LostRaceIff` says that this error comes exactly from the insert of a user whose address has
  been committed since the check, and `Guarantees.RefusalsAreSerial` that no other refusal differs from
  the serial one.
- Overlapping calls with one idempotency key can both run: `Overlap.OverlappingCallsRunTwice`.
  `Overlap.OneRunIff` says exactly when at most one does: when at most one call looked the key up before
  the first response was stored.
- The key alone is the identity of a call. `KeyReuse.KeyReuseAnswersForAnother` gives one user another
  user's receipt; `KeyReuse.OwnReceiptIff` says that a repeated call's receipt is for its own request
  exactly when the call it repeats made the same request.
- Transfer's errors when creating notifications are swallowed, so an acknowledged transfer may have none:
  `Notifications.TransferMayGoUnnoticed`.
- Offsets are cut to 32 bits. `Paging.QueryIsPageIff` says exactly which pages are right;
  `Paging.LatePageRepeatsFirst` names one that shows the first page again.
- Transfer would dereference nil if a locked row were missing. `Service.Settled`, which every request
  ends in, says that this never happens. The second selection after the locks
  (`internal/service/transaction_service.go`, lines 212-219) has an unreachable `else`: the first variable
  is always the source, which is what the contract of `Service.LockInOrder` returns.

## Model

| member | source | states |
|---|---|---|
| Money.RoundIsNearest | database/migrations/000002_create_wallets_table.up.sql:4 | storing gives a nearest cent, the one further from zero on a tie, and leaves an amount alone exactly when it is whole cents |
| Money.RoundAfterAdding | internal/service/transaction_service.go:253-254 | a credit raises the stored balance by exactly the amount that the ledger stores |
| Money.RoundAfterTaking | internal/service/transaction_service.go:247-248 | a debit lowers the stored balance by the amount that the ledger stores, less one cent exactly on a half-cent tie |
| Money.AmountFitsIff | database/migrations/000003_create_transactions_table.up.sql:6 | an amount column takes exactly the amounts from half a cent up to what rounds to 9,999,999,999,999,999.99 |
| Money.BalanceFitsIff | database/migrations/000002_create_wallets_table.up.sql:4 | the balance column takes exactly what rounds to zero or more, up to the same limit |
| WalletOrder.LessIsIrreflexive | internal/service/transaction_service.go:192 | no wallet ID is below itself in Go's string order |
| WalletOrder.LessIsTransitive | internal/service/transaction_service.go:192 | the lock order is transitive |
| WalletOrder.LessIsTotal | internal/service/transaction_service.go:192 | the lock order decides between any two different wallet IDs |
| WalletOrder.LessIff | internal/service/transaction_service.go:192 | the order is the lexicographic one: the first difference decides, and an ID comes before its own extensions |
| Serial.ApplyKeepsConsistent | database/migrations/000002_create_wallets_table.up.sql:2-4 | one atomic request keeps the unique indexes, the pairing of users and wallets, and every balance between zero and the column's limit |
| Serial.PlayKeepsConsistent | database/migrations/000002_create_wallets_table.up.sql:2-4 | so does every serial run of requests |
| Answers.TopUpAnswer | internal/service/transaction_service.go:58-134 | by the tables alone, without the reference: a top-up is refused for want of a wallet exactly when its user has none, by the columns exactly when the amount is below half a cent or the balance would not fit, and accepted exactly otherwise, if its ID is new |
| Answers.TransferAnswer | internal/service/transaction_service.go:164-298 | likewise each refusal of a transfer comes exactly when its reason holds: the target is the caller's own wallet; it is another ID and no wallet; it is another wallet and the amount exceeds the balance; the columns do not take the amount; and it is accepted exactly otherwise, if its ID is new |
| Answers.RegisterAnswer | internal/service/auth_service.go:59-103 | a registration conflicts exactly when some user has its address, and is accepted exactly otherwise, if its keys are new |
| Answers.AnswerIff | internal/service/transaction_service.go:173-223 | so the answer of every request is determined by the tables and the keys drawn |
| Answers.TopUpEffect | internal/service/transaction_service.go:81-161 | an accepted top-up adds the nearest cents to the caller's wallet, one completed transaction, one credit, and nothing else; the receipt names them |
| Answers.TransferEffect | internal/service/transaction_service.go:225-329 | an accepted transfer leaves the payer the nearest cents of what is left, adds the nearest cents of the amount to the payee, one completed transaction, one debit and one credit, and nothing else; the receipt names them |
| Answers.RegisterEffect | internal/service/auth_service.go:79-123 | an accepted registration stores a user and an empty wallet that were not there, under the address asked for, with both indexes, and nothing else; the receipt names that user and that wallet |
| Answers.ReceiptsStayTrue | internal/service/auth_service.go:118-123 | in every reachable state each receipt ever given is for the request that was made and true of the tables: a registration's names the stored user of its address and that user's wallet, a payment's its wallets, and its rows are there |
| Answers.ReceiptBalanceIsSerial | internal/service/transaction_service.go:152-161 | the balance a caller is told is the one the serial run gives: the balance after the requests committed before, with this amount added or taken; what is stored is the nearest cent |
| Serializability.InitialHoldsInv | internal/service/transaction_service.go:58-330 | the invariant holds before any request starts: locks, uncommitted writes, unlocked reads and claimed keys are what each session's position says |
| Serializability.StepKeepsInv | internal/service/transaction_service.go:58-330 | every statement of every session, and every failure, keeps the invariant |
| Serializability.RunKeepsInv | internal/service/transaction_service.go:58-330 | every run keeps the invariant |
| Serializability.AcquireKeepsInv | internal/repository/wallet_repository.go:85-98 | a locking read returns the latest committed row, which then stays current while the lock is held |
| Serializability.MoveKeepsInv | internal/service/transaction_service.go:81-130 | an unlocked read or a buffered write keeps the invariant, whatever the other sessions hold |
| Serializability.WantedExists | internal/repository/wallet_repository.go:90-95 | the row a session locks is there, and is not one it already holds |
| Serializability.CommitsSerially | internal/service/transaction_service.go:132 | flushing the private writes of a session at its commit is the atomic request run on the tables of that moment, with the same receipt |
| Serializability.TransferCommitsSerially | internal/service/transaction_service.go:242-298 | the two balance writes, the two entries and the completed transaction are the atomic transfer |
| Serializability.OthersSurviveCommit | internal/service/transaction_service.go:191-210 | a commit disturbs nothing another session has read or written: held rows are apart, and wallets are never taken away |
| Serializability.OverKeepsInv | internal/service/transaction_service.go:189 | the deferred rollback, at any point, keeps the invariant |
| Serializability.ReplayIsConsistent | internal/service/auth_service.go:73-103 | any history that replays leads to consistent tables |
| Guarantees.ReachableIsSerial | internal/service/transaction_service.go:58-330 | serializability: the committed tables are those of the committed requests run one at a time in commit order, with the very receipts returned, and the history lists each committed session once and no other |
| Guarantees.SerialOrderIsRealTime | internal/service/transaction_service.go:132 | the serial order respects real time: a request already committed stands before any that was still running |
| Guarantees.RunGrowsLog | internal/service/transaction_service.go:298 | history is only appended to |
| Guarantees.RunKeepsRequests | internal/service/transaction_service.go:164 | a run changes neither which requests there are nor what they ask |
| Guarantees.OnlyCommitsWrite | internal/service/transaction_service.go:67-134 | all or nothing: any step but a commit, failures after the first balance write included, leaves the tables alone |
| Guarantees.RefusalsAreSerial | internal/service/transaction_service.go:173-223 | every refusal, however stale the unlocked reads, is the one the request would get run alone at that moment; a lost e-mail race is the one difference in error |
| EmailRace.LostRaceIff | internal/service/auth_service.go:60-82 | a session ends with the duplicate-key error exactly when it inserts a user whose address has been committed |
| EmailRace.RaceCanBeLost | internal/service/auth_service.go:60-82 | a run of two registrations, from the start, in which the first commits and the second gets the duplicate-key error |
| Guarantees.RunGrows | internal/repository/wallet_repository.go:100-111 | along every run users and wallets only come, wallets keep their owners, and history is only appended to |
| Guarantees.RunAppends | internal/service/transaction_service.go:259-298 | along every run transactions and ledger entries are only appended |
| Guarantees.DebitFits | internal/service/transaction_service.go:221-248 | after the check on the locked row the debit always fits the balance column |
| Guarantees.BalanceCheckNeverDecides | database/migrations/000002_create_wallets_table.up.sql:4 | in every reachable state a debit about to be written is of the committed balance and satisfies the column's check |
| Liveness.NoCircularWait | internal/service/transaction_service.go:191-210 | deadlock freedom: no chain of sessions each waiting for the next, of any length, closes |
| Liveness.WantsAboveHeld | internal/service/transaction_service.go:192-207 | a session only asks for rows above all rows it holds |
| Liveness.ChainAscends | internal/service/transaction_service.go:192-207 | along a chain of waits the wanted wallet IDs ascend |
| Liveness.SomeSessionCanStep | internal/service/transaction_service.go:185-300 | progress: while any session is unfinished, some session can execute its next statement |
| Liveness.StepUsesUp | internal/service/transaction_service.go:185-300 | every step lowers the number of statements still to execute |
| Liveness.RunsAreBounded | internal/service/transaction_service.go:185-300 | no run has more than thirteen steps a session |
| Liveness.MaximalRunsEndClean | internal/service/transaction_service.go:185-300 | a run that cannot go on has every session committed or rolled back and no row locked |
| Bookkeeping.DoubleEntry | internal/service/transaction_service.go:259-293 | in every reachable state no row is pending, a top-up has exactly one credit on its target, and a transfer exactly a debit on its source and a credit on a different target, of equal amounts |
| Bookkeeping.ReachableKeepsLedger | internal/service/transaction_service.go:109-129 | the ledger of a reachable state is the transactions written out line by line, with unique transaction IDs and existing wallets |
| Bookkeeping.TxnsAreReceipts | internal/service/transaction_service.go:152-161 | the transaction rows are exactly the rounded receipts of the history |
| Bookkeeping.ApplyMovesBalance | internal/service/transaction_service.go:247-254 | a payment moves each balance by its own ledger lines, plus the spare cent of a half-cent debit |
| Bookkeeping.BalancesReconcile | internal/service/transaction_service.go:103-122 | in every reachable state, for arbitrary amounts, a stored balance is its credits less its debits plus one cent for each committed half-cent debit |
| Bookkeeping.BalanceEqualsLedgerIff | database/migrations/000004_create_ledger_entries_table.up.sql:6 | a balance equals its credits less its debits if and only if the wallet has paid no half-cent amount |
| Bookkeeping.NoOverdraft | database/migrations/000002_create_wallets_table.up.sql:4 | no reachable state has a negative balance |
| Bookkeeping.ApplyMovesTotal | internal/service/transaction_service.go:247-254 | a transfer changes the sum of all balances by zero, or by one cent exactly for a half-cent amount; a top-up by its stored amount |
| Bookkeeping.MoneyIsConserved | internal/service/transaction_service.go:103-104 | in every reachable state the balances sum to the committed top-ups plus one cent for each committed half-cent transfer |
| Bookkeeping.BalancesEqualTopUpsIff | internal/service/transaction_service.go:247-254 | the balances sum to the top-ups if and only if no half-cent transfer has committed |
| Bookkeeping.HalfCentCreatesACent | database/migrations/000002_create_wallets_table.up.sql:4 | a transfer of half a cent out of 100 cents leaves 100 cents and gives the payee one |
| Bookkeeping.LedgerBalances | internal/service/transaction_service.go:259-288 | over the whole ledger the entries of transfers cancel: credits less debits are the top-ups |
| Bookkeeping.UsersAndWalletsPairUp | internal/service/auth_service.go:60-103 | under concurrent registrations e-mail addresses stay distinct and users and wallets match one to one |
| Bookkeeping.ReceiptShowsBalance | internal/service/transaction_service.go:159 | the balance in a receipt is the exact one, and is the stored one if and only if the amount is whole cents |
| OrderIndependence.OrderDoesNotMatter | internal/service/transaction_service.go:247-254 | two serial orders of the same requests, both all accepted, end with the same wallets, whatever transaction IDs each run draws; true of half-cent amounts and registrations as well |
| OrderIndependence.PlayHasEffects | internal/service/transaction_service.go:103-104 | a run changes each balance by the sum of effects that depend on no balance |
| OrderIndependence.SameOwners | internal/service/auth_service.go:88-96 | both orders give every user the same wallet, whatever transaction IDs each run draws |
| Service.Database.Await | internal/repository/wallet_repository.go:85-98 | while waiting, other sessions may do anything the protocol allows; the waiting session ends up free to go on, or unavailable |
| Service.Database.FindByUserID | internal/repository/wallet_repository.go:62-72 | returns the wallet committed for the user at that moment, if any |
| Service.Database.FindByID | internal/repository/wallet_repository.go:74-83 | returns the wallet with this ID committed at that moment, if any |
| Service.Database.FindByIDForUpdate | internal/repository/wallet_repository.go:85-98 | the session holds exactly one more row, the one returned; none is returned only if the row is not there |
| Service.Database.CreateTransaction | internal/repository/transaction_repository.go:44-70 | the private writes gain the pending row under the returned ID, refused if the amount does not fit |
| Service.Database.UpdateBalance | internal/repository/wallet_repository.go:100-111 | the private writes hold the rounded balance for this wallet, other rows unchanged |
| Service.Database.CreateLedgerEntry | internal/repository/ledger_repository.go:41-57 | the private writes gain this entry with its rounded amount |
| Service.Database.UpdateStatus | internal/repository/transaction_repository.go:84-95 | the row with this ID takes the status, other rows unchanged |
| Service.Database.FindByEmail | internal/service/auth_service.go:60-66 | tells whether the address is committed at that moment |
| Service.Database.CreateUser | internal/service/auth_service.go:79-82 | the private writes gain the user and its address |
| Service.Database.CreateWallet | internal/repository/wallet_repository.go:45-60 | the private writes gain the wallet and its owner |
| Service.Database.Commit | internal/service/transaction_service.go:132-134 | the session ends committed with the receipt it returns |
| Service.Database.Rollback | internal/service/transaction_service.go:71 | the session ends with its error, the tables and history as they were, and no lock gained by anyone |
| Service.LockInOrder | internal/service/transaction_service.go:191-219 | both rows are locked whichever ID is less, and come back as source and target |
| Service.TransferWrites | internal/service/transaction_service.go:225-257 | the writing half continues the run and ends committed with its receipt, or may stop with its error; undisturbed, only a constraint of the database stops it |
| Service.TransferEntries | internal/service/transaction_service.go:259-300 | likewise from the ledger entries to the commit |
| Service.TopUpWrites | internal/service/transaction_service.go:81-134 | likewise for a top-up |
| Service.TopUp | internal/service/transaction_service.go:58-162 | the method is a run of the protocol under any interference; a receipt is in the history under this session and is true of the tables, an error means the session is not, and has its reason in the tables of that moment unless it is a failure on the way; no row stays locked; if nothing interferes, answer and tables are those of the atomic request, with no failure of its own making |
| Service.Transfer | internal/service/transaction_service.go:164-330 | likewise for a transfer, which never dereferences a missing row: under any interference each refusal comes only when its reason holds, self-transfer when the target is the caller's own wallet, insufficient balance when the amount exceeds the committed balance of another wallet's payer |
| Service.Register | internal/service/auth_service.go:59-123 | likewise for a registration: the receipt names the stored user of the address and that user's wallet, and a conflict or a duplicate key means that the address is stored |
| Service.RegisterWrites | internal/service/auth_service.go:79-103 | both inserts and the commit continue the run, or may stop with an error |
| Service.SettledAtEnd | internal/service/transaction_service.go:132-161 | whatever a session ends with, history and lock table agree with it |
| Service.AcceptedAlone | internal/service/transaction_service.go:132-161 | a request that nothing interferes with and that returns a receipt is accepted by the reference, with that receipt and those tables |
| Service.RefusedAlone | internal/service/transaction_service.go:173-223 | one that returns an error is refused by the reference with that error, whatever keys are drawn |
| Service.RefusedThen | internal/service/transaction_service.go:173-223 | under any interference, an error of its own is the one that the reference gives in the tables of the moment at which the request stops |
| Service.LeadsKeepsInv | internal/service/transaction_service.go:58-330 | the imperative code stays within reachable behaviour, so every guarantee applies to it |
| Idempotency.SequentialCallsAreDeduplicated | internal/middleware/idempotency_middleware.go:49-103 | calls one after another, of which any may fail on the way, end in the tables of running only the calls that repeat no success of the last 86,400 seconds; each of these gets its own response, each repeat the stored status and body, and a call without key gets status 400 |
| Idempotency.OneSuccessPerDay | internal/middleware/idempotency_middleware.go:99 | two successes with one key are at least 86,400 seconds apart |
| Idempotency.ReplayedForADay | internal/middleware/idempotency_middleware.go:68-79 | for 86,400 seconds after a success has been stored a call with its key gets the response of that success and leaves the tables alone |
| Idempotency.RunsAfterADay | internal/middleware/idempotency_middleware.go:91-101 | a call runs the handler, on the tables as they are and with its own response, exactly when 86,400 seconds have passed since every earlier success with its key |
| Idempotency.StatusIff | internal/handler/transaction_handler.go:64-82 | by the tables alone: 422 exactly for a self-transfer, 400 exactly for insufficient balance, 404 exactly for a missing wallet, 409 for a known address, 200 or 201 exactly when served, 500 otherwise |
| Idempotency.ErrorIsTold | internal/handler/transaction_handler.go:32-46 | an amount that is not positive gets 400, a failure on the way 500, and every error response tells an error whose reason holds |
| Idempotency.RepeatsOnlyOne | internal/middleware/idempotency_middleware.go:68-79 | the success a call repeats is unique, so its response is determined |
| Idempotency.FailedCallIsForgotten | internal/middleware/idempotency_middleware.go:92 | after a response other than 2xx, be it a refusal or a failure on the way, any later call is served as if that one had not been made |
| Idempotency.SuccessMeansEffect | internal/handler/transaction_handler.go:51-83 | a response is 2xx exactly when the request took effect; a refusal or a failure on the way left the tables alone |
| Idempotency.CacheHolds | internal/middleware/idempotency_middleware.go:91-101 | the cache holds, for each key, the response of its last success |
| KeyReuse.HitIgnoresRequest | internal/middleware/idempotency_middleware.go:65-79 | on a hit the answer and the tables do not depend on the request or its user |
| KeyReuse.RepeatShowsReceipt | internal/middleware/idempotency_middleware.go:68-79 | a repeated call is answered by the receipt of the call it repeats |
| KeyReuse.OwnReceiptIff | internal/middleware/idempotency_middleware.go:65-79 | that receipt is for the call's own request if and only if the call it repeats made the very same request |
| KeyReuse.KeyReuseAnswersForAnother | internal/middleware/idempotency_middleware.go:65-79 | two users' different top-ups under one key: the second gets the first one's receipt and is not made |
| Idempotency.ResponseCapture.Write | internal/middleware/idempotency_middleware.go:30-33 | client and copy get the same bytes, after those before |
| Idempotency.ResponseCapture.WriteHeader | internal/middleware/idempotency_middleware.go:42-45 | client and copy get the same status |
| Idempotency.Middleware | internal/middleware/idempotency_middleware.go:49-103 | what reaches the client and what is stored are the reference's; outright: without a key 400 and nothing else; on a hit the stored response and nothing else; on a miss the handler's response, kept for 86,400 seconds exactly if its status is 200 to 299 |
| Overlap.HandlerRunsAreBounded | internal/middleware/idempotency_middleware.go:68-100 | in any interleaving, while a stored response lives, the calls with its key that have run the handler had all missed their lookup before that state |
| Overlap.StoredKeyIsReplayed | internal/middleware/idempotency_middleware.go:68-79 | a call that looks up a live key never runs the handler |
| Overlap.RunnersAreMissers | internal/middleware/idempotency_middleware.go:68-100 | the bound is exact: once all calls with the key are answered, the handler has run for each of these misses |
| Overlap.OneRunIff | internal/middleware/idempotency_middleware.go:68-100 | within 86,400 seconds of the first store for a key the handler has run for exactly the calls that had looked the key up before it, so at most once if and only if at most one had |
| Overlap.EffectsWereLookedUp | internal/middleware/idempotency_middleware.go:68-100 | within those 86,400 seconds every call that has taken effect had looked the key up before the first response was stored, which is one of theirs; a second effect needs a second early lookup |
| Overlap.LiveKeyRun | internal/middleware/idempotency_middleware.go:97-100 | no run within the lifetime of a stored response adds a miss for its key |
| Overlap.OnlySuccessesAreStored | internal/middleware/idempotency_middleware.go:92-99 | a store keeps the call's own response under its key for 86,400 seconds exactly if its status is 200 to 299; nothing else touches the cache |
| Overlap.RepliesHold | internal/middleware/idempotency_middleware.go:68-79 | in every interleaving what is stored, and what a replayed call was told, is the response with which a call of the same key that took effect was answered |
| Overlap.OverlappingCallsRunTwice | internal/middleware/idempotency_middleware.go:68-100 | a concrete interleaving of two calls with one key moves the money twice |
| Handlers.CommitIsRun | internal/service/transaction_service.go:298-300 | a call's session that commits is one run of the handler, at that moment, with the receipt as its response |
| Handlers.ErrorIsRun | internal/handler/transaction_handler.go:38-83 | a call's session that ends by an error is one run of the handler, refused or failed, with the tables as they were |
| Handlers.HistoryIsSeen | internal/middleware/idempotency_middleware.go:68-100 | the layer over handlers that run statement by statement, among any other sessions, refines the layer over indivisible handlers |
| Handlers.ServerRunsAreBounded | internal/middleware/idempotency_middleware.go:68-100 | the bound on handler runs holds of such handlers |
| Handlers.ServerOneRunIff | internal/middleware/idempotency_middleware.go:68-100 | both exact statements hold of such handlers, for 86,400 seconds after the first store: effects only from the calls that looked up before it, and, once all are answered, runs of exactly these |
| Handlers.RepliesAreReceipts | internal/middleware/idempotency_middleware.go:68-79 | a replayed call is told, with status 200, the receipt in the history of a committed session whose call has the same key |
| RateLimit.Limiter.RateLimit | internal/middleware/rate_limit_middleware.go:20-40 | a request goes on exactly when it is among the first requests of its own address's window; other addresses have no influence |
| RateLimit.CounterMatches | internal/middleware/rate_limit_middleware.go:12-18 | the counter is the position in the window and expires with the window, so blocked requests extend nothing |
| RateLimit.WindowAdmitsLimit | internal/middleware/rate_limit_middleware.go:27-39 | a window admits exactly the smaller of its arrivals and the limit |
| RateLimit.IntervalAdmitsLessThanTwice | internal/middleware/rate_limit_middleware.go:12-18 | any interval of one window length admits at most 2 * max - 1 requests |
| RateLimit.SlidingWindowIsExceeded | internal/middleware/rate_limit_middleware.go:12-18 | that bound is attained, within any gap however short, so this is no sliding window |
| RateLimit.SlidingWindowIff | internal/middleware/rate_limit_middleware.go:12-39 | for all arrivals every interval of one window length admits at most the limit, if and only if the limit is at most one or the window is empty |
| RateLimit.LaterWindowIsApart | internal/middleware/rate_limit_middleware.go:12-18 | a window opens only when the one before has expired |
| Notifications.NoticesTraceToTransactions | internal/worker/notification_worker.go:125-206 | under publishing, loss, redelivery and lost acknowledgements every top-up or transfer notification is about a committed transaction of that amount and names its other wallet, and is the payer's or the receiver's |
| Notifications.DeliveryIsAtLeastOnce | internal/worker/notification_worker.go:101-122 | no published message is lost: it is queued, in flight or acknowledged, and each acknowledgement of a registration, login or top-up has a notification of its own |
| Notifications.AckedIsNoticed | internal/worker/notification_worker.go:136-167 | processing without error inserted the promised row |
| Notifications.ProcessedExactly | internal/worker/notification_worker.go:136-205 | stated from the rows: which message makes a row, which calls must succeed for it, once and no more; and when a message ends without error |
| Notifications.PromisedOrNothing | internal/worker/notification_worker.go:137-167 | for a registration, a login or a top-up: the promised row and no error if the insert works, no row and an error otherwise |
| Notifications.LoopIsExact | internal/worker/notification_worker.go:111-120 | over any deliveries acknowledgements and rows are counted exactly |
| Notifications.WorkIsSettled | internal/worker/notification_worker.go:111-120 | a processed delivery leaves the flight; it is acknowledged exactly if it works and the acknowledgement arrives, and goes back on the queue otherwise |
| Notifications.CommitPublishes | internal/service/transaction_service.go:136-150 | a commit, and no other step of the protocol, has one event published: the one of its own kind, with the user, wallets, transaction and amount of its request and receipt |
| Notifications.OutboxMoves | internal/service/auth_service.go:143-150 | a login has its own event published; publishing or losing takes one event from those waiting; a closing channel puts its messages back |
| Notifications.EveryEventCanArrive | internal/worker/notification_worker.go:101-122 | whatever has happened, a waiting event can be published, delivered and acknowledged in three steps that make its rows and disturb nothing else |
| Notifications.WelcomesTraceToUsers | internal/service/auth_service.go:105-116 | a welcome goes to a stored user and names that user's own wallet; a login notification goes to a stored user |
| Notifications.TransferMayGoUnnoticed | internal/worker/notification_worker.go:178-199 | for a transfer it need not: only the wallet lookup decides the acknowledgement, only the first insert the sender's row, and the receiver's row needs the lookup, the wallet and the second insert |
| Notifications.NotificationWorker.ProcessMessage | internal/worker/notification_worker.go:125-206 | a registration, a login or a top-up ends without error exactly when its insert works, a transfer when its wallet lookup does, an audit event always, a body that does not parse never; the rows added are exactly those that the message sends, each once |
| Notifications.NotificationWorker.ConsumeLoop | internal/worker/notification_worker.go:101-122 | each message is acknowledged exactly as often as its deliveries work, the other deliveries are requeued, and each row is made exactly as often as it is sent; each acknowledgement of a registration, login or top-up has a row of its own |
| Notifications.DeliveriesAreSorted | internal/worker/notification_worker.go:111-120 | each delivery is acknowledged or requeued, exactly once, and a body that does not parse is requeued |
| Notifications.RowsCoverAcks | internal/worker/notification_worker.go:136-167 | a message acknowledged several times has its row as many times |
| Notifications.ReplayIsPaidByOwner | internal/service/transaction_service.go:165-171 | the payer of every committed payment is the user who asked for it |
| Notifications.MailRunKeepsInv | internal/worker/notification_worker.go:84-123 | every run of the message path keeps its invariant |
| Notifications.TicketHasTxn | internal/service/transaction_service.go:302-317 | the transaction an event names is committed when the event exists |
| Paging.PagesPartition | internal/service/ledger_service.go:36-55 | pages 1 to the page count, put together, are the list; pages before the last are full, the last is not empty, later ones are |
| Paging.PagesArePrefix | internal/dto/pagination.go:24-26 | the first pages, put together, are a prefix of the list |
| Paging.WalkLosesNothing | internal/repository/ledger_repository.go:73-117 | a walk through the pages while rows are added shows every row there was at its start, and nothing but rows |
| Views.ListingsGrow | database/queries/transactions.sql:25-30 | along every run a wallet's transactions and entries, last committed first, only gain rows, so walks through them are such walks |
| Paging.TotalPagesCovers | internal/service/ledger_service.go:55 | the page count is the least that covers the list |
| Paging.Int32Fits | internal/repository/ledger_repository.go:82-83 | narrowing gives the one number of 32 bits, with sign, that differs by a multiple of 2^32 |
| Paging.QueryIsPage | internal/repository/ledger_repository.go:79-84 | within 32 bits the query returns the page asked for |
| Paging.QueryIsPageIff | internal/repository/ledger_repository.go:79-84 | it returns the page asked for, for every list, if and only if the offset is below 2^31 |
| Paging.LatePageRepeatsFirst | internal/repository/ledger_repository.go:79-84 | a page whose offset is 2^32 shows the first page |
| Paging.PaginationRequest.SetDefaults | internal/dto/pagination.go:15-22 | what is not positive becomes page 1 and limit 10, anything else stays |
| Paging.FindAll | internal/repository/transaction_repository.go:146-214 | the four queries are one query under the filters that are present, "TOPUP" and "TRANSFER" by kind, "PENDING" and "COMPLETED" by status; the count is of all matching rows when it is made |
| Paging.AllFilterTexts | internal/model/transaction.go:14-20 | each of these texts lists the rows of its kind or status, as often as they are there; two filters list what both do; any other text lists nothing |
| Paging.WhereCounts | database/queries/ledger_entries.sql:20-24 | a filter keeps each row that it keeps as often as it is there, and no other |
| Paging.FindByWalletID | internal/repository/ledger_repository.go:73-117 | a page and a count of the wallet's entries: its debits for "DEBIT", its credits for "CREDIT", all without a filter, none for any other text |
| Paging.LedgerFilterTexts | internal/model/ledger_entry.go:12-15 | "DEBIT" lists exactly the wallet's debits, "CREDIT" exactly its credits, no filter both, any other text nothing |
| Paging.GetLedgerEntries | internal/service/ledger_service.go:27-66 | the page asked for, by the defaults where none is, the totals and the page count of the caller's own debits, credits or entries, by the filter text as above; list and count may read different states |
| Views.FindByWalletID | internal/repository/transaction_repository.go:97-144 | a page and a count of the transactions that name the wallet, of the type asked for, whatever text that is |
| Views.ListingFilterTexts | database/queries/transactions.sql:20-39 | "TOPUP" lists exactly the top-ups that name the wallet, "TRANSFER" exactly the transfers, no filter both, any other text nothing |
| Views.WhereSplits | database/queries/transactions.sql:25-30 | a filter keeps the order of the rows |
| Views.GetTransactions | internal/service/transaction_service.go:332-373 | the page asked for, by the defaults where none is, the totals and the page count of the transactions that name the caller's wallet; list and count may read different states |
| Views.GetTransactionDetail | internal/service/transaction_service.go:375-433 | from the tables of three moments, refuses in the code's order and otherwise shows the transaction and its entries, in whatever order these come |
| Views.DetailRefusedIff | internal/service/transaction_service.go:380-401 | a detail is refused for want of a wallet exactly when the user has none, as not found exactly when there is a wallet and no such transaction, as unauthorized only for a transaction that does not name the wallet |
| Views.FindByTransactionID | internal/repository/ledger_repository.go:59-71 | all entries of the transaction, in the order the query returns them |
| Views.LinesInAnyOrder | database/queries/ledger_entries.sql:6-10 | whatever that order is, they are the same lines, each as often as it is in the table |
| Views.DetailMatchesListing | internal/service/transaction_service.go:392-401 | in every reachable state a user may open exactly the transactions of the own listing, which are those with an entry on the own wallet, and sees all their lines |
| Views.DetailShowsOneState | internal/service/transaction_service.go:375-433 | whatever commits between the three reads of a detail, it shows one state of the tables |
| Views.LedgerNamesWallets | database/queries/transactions.sql:25-28 | a transaction names a wallet if and only if some entry of it is on the wallet |
| Views.CountsAgree | database/queries/ledger_entries.sql:12-14 | a wallet has as many transactions as ledger entries, which rests on refusing self-transfers |

## Left out

- Service.Database.Await: a wait for a lock that is never released ends as unavailable; a lock timeout or a cancelled request looks the same to the caller. The interference of other sessions is a schedule field with arbitrary contents.
- Service.Database.Commit: a commit whose outcome the client does not learn is not modelled; an error means that nothing was committed.
- Service.Database.CreateTransaction: generated keys (transaction and user IDs, wallet IDs, reference numbers, ledger entry IDs) are fresh; a collision is one of the failures that can come at any statement. Reference numbers, ledger entry IDs, timestamps, currency, roles and password hashes are not kept in the rows, and the length limit of wallet IDs is not modelled.
- Service.Transfer: a missing first row ends the request at once instead of after the second lock; since no row is ever missing the difference cannot be observed.
- A failing statement and the deferred rollback after it are one step of the protocol.
- Idempotency.Middleware: Redis is reachable (the middleware runs the handler when it is not), JSON encoding and decoding of the cached response is lossless, and only POST requests reach it. WriteString is Write.
- Overlap.HandlerRunsAreBounded: Handlers.HistoryIsSeen takes the statements of the protocol to happen between two advances of the clock, which only lookups and stores read.
- OrderIndependence.OrderDoesNotMatter: registrations keep the user and wallet IDs they draw, since these name the users and wallets that the other requests and the result speak of.
- Idempotency.StatusIff: only payments pass the middleware in the code; registrations are answered here with the statuses of their own handler.
- Idempotency.SuccessMeansEffect: of the validation of request bodies only "amount is positive" is modelled, and authentication has already happened.
- RateLimit.Limiter.RateLimit: Redis is reachable (requests pass when it is not); times are real numbers of seconds and the window any such number, of which the code uses whole ones. The time at which Redis drops an expired key is taken to be its expiry.
- Paging.WalkLosesNothing: rows that are there keep their order from one page to the next, which the SQL leaves open for equal timestamps; new rows may come in anywhere. The failures of the queries themselves are modelled only for refused limits and offsets.
- Notifications.NotificationWorker.ConsumeLoop: the loop is over the deliveries up to the closing of the channel; connecting, reconnecting and the RabbitMQ client are not modelled. The wording of messages is reduced to the data in it, and clearing notifications is left out, so a row means one that was inserted at some time.
- Notifications.DeliveryIsAtLeastOnce: an event that could not be published is lost, as in the code, which only logs it.
- Gin routing, CORS, JWT, role checks, password hashing, configuration and start-up: plumbing without properties of its own.
- Audit and analytics workers, event streams, the seed command, the list of users and the paging of notifications: easy members beside the ones here.
