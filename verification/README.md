# A verified model of the payment ledger

The payment ledger moves money between wallets.  This project models its
money-movement engine in Dafny and proves what every interleaving, every run and every
input keeps.  It has two halves that share no code.

**The Go/SQL service**, bottom up:

* `Ledger` - the rules of the SQL layer on balances and posted rows, without generated ids;
* `Database` - the three tables with their ids, the stored procedures and repository
  transactions as methods of a class, the audit queries;
* `Transactions` (with `OrderedLocks`) - any number of concurrent database transactions as
  small steps: lock, begin, apply, commit, abort;
* `BatchExecutor` - one batch: filter, fast path, one-by-one fallback;
* `BatchWorker`, `TransferService` - queue, batch buffer, timer, drain: the events as a state
  machine, and the service object that takes its steps;
* `IdempotencyStore`, `IdempotencyProtocol` - the key table, the middleware, and any number
  of requests going through them against a clock;
* `EndToEnd` - middleware, queue, worker and ledger together.

**The in-browser engine** (`web/app.tsx`, lines 188-405, and the money formatter):

* `SimMutex` - the promise-chain mutex; `SimLocks` - sorted lock sets and the map of mutexes;
* `SimBook` - the chained double-entry book; `SimMoney` - `money` cut at its awaits, and the
  engine object; `SimCalls` - any number of `money` calls interleaved;
* `MoneyFormat` - printing and parsing of amounts.

## How to read it

Code that changes state is a class whose methods are proved equal to a function of the old
state (`Db`, `TransferRepository`, `Executor`, `Service`, `Repository`, `Middleware`,
`Mutex`, `LockTable`, `SimEngine`).  The theorems are lemmas about those functions and about state
machines whose steps they are.  Concurrency is an arbitrary sequence of enabled events.

What a run is assumed to satisfy is a visible hypothesis:

* a database error means rollback; a lost call changes nothing (`Weather.fault`, `lost`);
* a wallet id does not come into existence while a running transaction has already found it
  missing (`Transactions.Unclaimed`);
* where it says so, the live holders of the key in question finish within 60 s
  (`KeepsLease`, key by key).  `ExclusionNeedsLease` and `ReplayNeedsLease` show that this
  cannot be dropped, and the lemmas named `...MeansOverstay` that only an overstay breaks what
  holds with it;
* end to end, no request dies in its handler and the middleware's own statements succeed.
  Callers may leave at any time.  The context they wait on is the one their job carries, so
  one who leaves before the worker reaches the job keeps it from being executed
  (`EndToEnd.MayLeave`); one who leaves later deserts a committed transfer;
* the browser engine is assumed nothing of, except that drawn wallet ids are new.

Ledgers are compared up to renaming of transaction ids, because an aborted transaction does
not give its id back; `Database.EraseMeansRenaming` says that this is what comparing
`Erase`d tables means.  Bodies are compared as the JSON value that is stored.

Some expectations do not hold of the code, and the model follows the code:

* not every transaction sums to zero: deposits and withdrawals post one entry
  (`Database.TransactionBalance`);
* a key can commit twice without a sweep: exactly a deserted commit, whose caller left after it
  and was told 500, reopens its key (`EndToEnd.DoubleCommitMeansDesertion`,
  `EndToEnd.DesertionAllowsSecondCommit`, `EndToEnd.DesertedCommitsTwice`);
* a request can lose its key inside its own lease, if a predecessor overstayed
  (`IdempotencyProtocol.LateSettleOpensKey`, `IdempotencyProtocol.TakeoverIff`);
* stopping the worker does not answer every accepted job: one that is enqueued after the
  worker has returned is accepted and never answered (`BatchWorker.AnsweredIff`,
  `BatchWorker.AcceptedButNeverAnswered`); jobs accepted before that all are;
* in the browser engine a transfer whose sender or receiver id is missing or empty is not
  refused: that side settles against the external account (`SimMoney.TransferConservesIff`,
  `SimMoney.TransferFromNobody`).

## Model

| member | source | states |
|---|---|---|
| Ledger.RunOpsIff | migrations/000008_add_balance_check_and_receiver_tx.up.sql:109-150 | the batch loop succeeds if and only if every item is acceptable against start + credits - debits of the items before it, within BIGINT |
| Ledger.RunOpsNet | migrations/000008_add_balance_check_and_receiver_tx.up.sql:138-140 | after a successful run every wallet is at start + credits - debits and in [0, 2^63); no wallet appears or vanishes |
| Ledger.IntermediateBalancesInRange | migrations/000008_add_balance_check_and_receiver_tx.up.sql:138-140 | in a batch, failing or not, every balance is in [0, 2^63) after each item and between the two updates of a transfer whose sender is covered, so the CHECK never fires |
| Ledger.SuccessfulBatchInRange | migrations/000008_add_balance_check_and_receiver_tx.up.sql:109-150 | in a batch of transfers that goes through, every prefix goes through with all balances in [0, 2^63), between the two updates of each transfer too |
| Ledger.FirstFailure | migrations/000008_add_balance_check_and_receiver_tx.up.sql:114-136 | a failing batch has one item to blame, with that item's error against the balances left by the items before it, all of which went through |
| Ledger.BlamedItem | migrations/000008_add_balance_check_and_receiver_tx.up.sql:114-136 | the error of a failing batch of transfers in terms of its arguments and the start balances: self transfer, amount, sender, receiver, funds with the balance found, overflow, for the one item that is judged against start + credits - debits of those before it |
| Ledger.TransfersConserve | migrations/000008_add_balance_check_and_receiver_tx.up.sql:109-153 | a batch of transfers leaves the total money unchanged whether it commits or aborts |
| Ledger.RunOpsTotal | internal/repository/wallet_repository.go:92-105 | total money changes by deposits minus withdrawals and by nothing else |
| Ledger.RunOpsFrame | migrations/000008_add_balance_check_and_receiver_tx.up.sql:104-106 | a transaction neither reads nor writes balances of wallets it does not name, so it commutes with changes to them |
| Ledger.RunOpsTouches | migrations/000008_add_balance_check_and_receiver_tx.up.sql:138-140 | only named wallets change |
| Ledger.ExecKeepsBooks | internal/services/audit_service.go:18-32 | create, deposit, withdraw and batch, committed or aborted, keep every balance in range and equal to the sum of its wallet's entries |
| Ledger.CreateKeepsBooks | internal/repository/wallet_repository.go:24-51 | a new wallet's opening balance is exactly covered by its first deposit entry |
| Database.Db.ProcessItem | migrations/000008_add_balance_check_and_receiver_tx.up.sql:110-149 | one turn of the loop has the effect and the error of one transfer; on success both balances move and exactly a transfer row (from, to, amount) with its debit entry and then its credit entry is appended, under the next id |
| Database.Db.ProcessItems | migrations/000008_add_balance_check_and_receiver_tx.up.sql:108-150 | the loop refines the item-by-item run, stops at the first error, and records item i as number i |
| Database.Db.ProcessTransferBatch | migrations/000008_add_balance_check_and_receiver_tx.up.sql:72-154 | the statement is all or nothing: success appends, in argument order and under consecutive ids, one transfer row from[i], to[i], amounts[i] each with entries -amounts[i] and +amounts[i], and nothing else; an exception restores the exact tables; the invariant holds after either |
| Database.Db.ProcessTransfer | migrations/000008_add_balance_check_and_receiver_tx.up.sql:7-69 | the one-transfer procedure equals a batch of one, returns the id of the transfer row it appends, and of two missing wallets blames the lower id |
| Database.Db.Create | internal/repository/wallet_repository.go:19-52 | opens a wallet under the next id, with one deposit row and entry of the opening balance unless that is zero, or changes nothing; the error is exact |
| Database.Db.Deposit | internal/repository/wallet_repository.go:77-111 | raises one balance and appends one deposit row of the amount with one entry of it, or changes nothing; missing wallet, BIGINT overflow and negative balance each have their error |
| Database.Db.Withdraw | internal/repository/wallet_repository.go:114-152 | lowers one balance and appends one withdrawal row of the amount with one entry of minus the amount, or changes nothing, with the exact error; the int64 negation never wraps on a committed row |
| Database.EraseMeansRenaming | migrations/000008_add_balance_check_and_receiver_tx.up.sql:143-149 | two well-formed sets of tables agree after erasing ids if and only if they differ by a one-to-one renaming of transaction ids |
| Database.EntriesOfTransaction | internal/repository/ledger_repository.go:34-38 | listing a transaction's entries returns exactly what it posted |
| Database.TransactionBalance | internal/repository/wallet_repository.go:102-103 | a transfer posts two entries that sum to zero, a deposit or withdrawal a single one; so a transaction sums to zero if and only if it is a transfer or of amount zero |
| Database.WalletReport | internal/repository/ledger_repository.go:40-60 | a wallet's reconciliation gives its cached balance and the number of its own entries, and in kept books their sum equals that balance; no report for an unknown wallet |
| Database.AuditsPass | internal/repository/ledger_repository.go:40-60 | in tables that keep the books every wallet reconciles and the global audit is true |
| Database.LocalAuditsImplyGlobal | internal/services/audit_service.go:20-32 | if every wallet reconciles and no entry is orphaned, the global audit is true |
| Database.GlobalAuditIff | internal/services/audit_service.go:20-32 | with no orphaned entry the global audit is true if and only if the wallets' drifts (cached - ledger) sum to zero |
| Database.GlobalAuditMissesDrift | internal/services/audit_service.go:20-32 | well-formed tables with a shifted balance pass the global audit although a wallet does not reconcile |
| Database.Db.RunForeign | internal/repository/wallet_repository.go:77-152 | a transaction of another connection, by its specification, keeps the invariant |
| OrderedLocks.ChainAscends | migrations/000008_add_balance_check_and_receiver_tx.up.sql:92-106 | along any chain of blocked agents the awaited locks strictly increase, if locks are taken in ascending order |
| OrderedLocks.Acyclic | migrations/000008_add_balance_check_and_receiver_tx.up.sql:92-106 | ascending acquisition makes the waits-for graph acyclic |
| OrderedLocks.FollowHolders | migrations/000008_add_balance_check_and_receiver_tx.up.sql:103-106 | following the holders from any agent ends in a live agent that nobody blocks |
| Transactions.LockOrderSorted | migrations/000008_add_balance_check_and_receiver_tx.up.sql:93-101 | the lock list is strictly ascending and names exactly the wallets of the batch |
| Transactions.StepKeepsInv | migrations/000008_add_balance_check_and_receiver_tx.up.sql:92-150 | every lock, apply, commit, abort and insertion step of any transaction keeps the invariant: locks held exactly on passed rows, uncommitted work valid against what is committed now |
| Transactions.Serializable | migrations/000008_add_balance_check_and_receiver_tx.up.sql:92-153 | for every interleaving the committed tables and all verdicts are those of running the ended transactions one at a time in that order; no run outlasts its work |
| Transactions.MissingAtLock | internal/repository/wallet_repository.go:84-90 | a deposit or withdrawal of a missing wallet ends when it is to lock it, while a batch goes on to its next lock |
| Transactions.StepDecreases | migrations/000008_add_balance_check_and_receiver_tx.up.sql:104-150 | every step strictly decreases the remaining locks and work |
| Transactions.NoWaitCycle | migrations/000008_add_balance_check_and_receiver_tx.up.sql:103-106 | no reachable lock state has a circular wait |
| Transactions.NoDeadlock | internal/repository/wallet_repository.go:84-122 | while any transaction is unfinished some transaction can step without being killed |
| BatchExecutor.FastIsFold | internal/services/transfer_service.go:143-150 | the one call of the fast path commits what the jobs commit one by one, and every answer is success |
| BatchExecutor.FilterFirst | internal/services/transfer_service.go:119-127 | answering the cancelled jobs first and running the rest equals taking all jobs in order |
| BatchExecutor.FlushAllIsFold | internal/services/transfer_service.go:117-166 | any sequence of batches, with any calls lost, equals the FIFO skip-on-failure run of single transfers, if contexts are fixed and nobody writes in between |
| BatchExecutor.BatchingIsInvisible | internal/services/transfer_service.go:117-166 | two ways of cutting a job stream into batches give the same ledger and the same replies |
| BatchExecutor.ReplyIsItsOwn | internal/services/transfer_service.go:157-166 | the reply to each job of a batch is its own, against the data left by the jobs before it |
| BatchExecutor.FoldMail | internal/services/transfer_service.go:117-166 | a batch writes to exactly the mailboxes of its jobs |
| BatchExecutor.EarlyIsCancelled | internal/services/transfer_service.go:119-127 | a job whose context ends before the filter is answered with that, and the batch commits exactly what it would commit without the job |
| BatchExecutor.LateIsCancelled | internal/services/transfer_service.go:157-161 | when the batch call fails, a job whose context ended before the fallback reaches it is answered with that, and the data stay as the other writers left them |
| BatchExecutor.FallbackRunsAlone | internal/services/transfer_service.go:157-165 | when the batch call fails, a job reached alive is answered from its arguments and the balances it finds (invalid input, not found, funds, internal, success) and moves exactly its amount with one row, or nothing; if its call is lost it changes nothing and is told an internal error |
| BatchExecutor.FastIgnoresWeather | internal/services/transfer_service.go:143-150 | when the batch call goes through, every job alive at the filter is told success, even if its context ends meanwhile, and only that call changes the data |
| BatchExecutor.AloneIsAnswered | internal/repository/transfer_repository.go:24-63 | a single transfer's error class and effect, from its arguments and the balances alone |
| BatchExecutor.RowsAreWins | internal/services/transfer_service.go:143-166 | a batch posts one transaction per job answered with success, in job order, besides what other connections post between the calls of its fallback |
| BatchExecutor.Executor.Filter | internal/services/transfer_service.go:117-127 | the filter loop keeps the live jobs in order and answers each dead one once |
| BatchExecutor.Executor.OneByOne | internal/services/transfer_service.go:157-166 | the fallback loop is the FIFO fold over the kept jobs, with contexts looked at again and other connections writing before each call |
| BatchExecutor.Executor.ExecuteBatch | internal/services/transfer_service.go:117-166 | executeBatch refines the fold, other writers between its calls included; each job gets exactly one message on a slot that was free |
| BatchExecutor.TransferRepository.ExecuteBatch | internal/repository/transfer_repository.go:24-58 | no items is a success without a call; otherwise all or nothing with the error's class |
| BatchExecutor.TransferRepository.ExecuteTransfer | internal/repository/transfer_repository.go:61-63 | a single transfer is a batch of one |
| BatchWorker.EveryRun | internal/services/transfer_service.go:61-103 | in every run, with other writers between flushes and between fallback calls, the accepted jobs are, in FIFO order, the finished, the buffered and the queued; exactly the finished have their one message; flushes have 1 to 50 jobs; fewer than 50 are buffered, and some are if and only if the timer is armed or fired; the ledger has one row per job answered with success |
| BatchWorker.EveryRunKeepsBooks | internal/services/transfer_service.go:113-166 | whatever worker and other writers do, every balance stays the sum of its entries |
| BatchWorker.AnswersAreFinal | internal/services/transfer_service.go:187-202 | a job once answered keeps that one answer |
| BatchWorker.BufferedUntilFlush | internal/services/transfer_service.go:83-103 | in every run a buffered job is answered by the first tick or the end of the drain at the latest; until then the timer is armed or fired, or the worker drains |
| BatchWorker.TimerReachesBatch | internal/services/transfer_service.go:100-101 | from any state with a buffered job, the timer running out and its tick answer the whole batch |
| BatchWorker.LeaversAreCancelled | internal/services/transfer_service.go:119-127 | a job whose caller left before the worker reached it is answered with a cancellation |
| BatchWorker.ExitAnswersAll | internal/services/transfer_service.go:66-81 | in every run, submissions and writes during the drain included, a worker that returns has answered every job it had accepted before |
| BatchWorker.DrainAnswersAll | internal/services/transfer_service.go:66-81 | with nothing enqueued meanwhile, the drain ends with queue and batch empty and every accepted job finished, in order, and answered |
| BatchWorker.ExitIsFinal | internal/services/transfer_service.go:76-80 | after the worker returns nobody is answered any more |
| BatchWorker.AnsweredIff | internal/services/transfer_service.go:107-111 | in every run that ends with the worker gone, a job accepted by some point is answered if and only if it was answered by then or the worker had not returned by then |
| BatchWorker.AnswerableIff | internal/services/transfer_service.go:107-111 | a schedule leading to an accepted job's answer exists if and only if it has one or the worker has not returned |
| BatchWorker.AcceptedButNeverAnswered | cmd/server/main.go:162-170 | a job enqueued after the worker returned is accepted and never answered |
| TransferService.Service.constructor | internal/services/transfer_service.go:26-37 | a capacity that is not positive becomes 5000 |
| TransferService.Service.Enqueue | internal/services/transfer_service.go:170-195 | refuses exactly non-positive ids or amounts and transfers to self, then exactly a queue at capacity, without blocking; otherwise the job joins the end of the queue |
| TransferService.Service.OnJob | internal/services/transfer_service.go:83-98 | takes the receive step: below fifty jobs the head of the queue is buffered, nobody is answered and a first job arms the timer; at fifty the timer stops and exactly the buffered jobs are answered |
| TransferService.Service.OnTick | internal/services/transfer_service.go:100-101 | takes the tick step: exactly the buffered jobs are answered and the timer is stopped |
| TransferService.Service.Drain | internal/services/transfer_service.go:66-81 | the drain loop terminates, with every accepted job finished and answered |
| TransferService.Service.Work | internal/services/transfer_service.go:61-103 | under any schedule, other writers included, the object's state is that of the state machine |
| IdempotencyStore.Repository.TryLock | internal/repository/idempotency_repository.go:18-41 | locks exactly if the key is absent, or started and older than 60 s; otherwise the table is unchanged |
| IdempotencyStore.Repository.Update | internal/repository/idempotency_repository.go:53-60 | completes the row if it exists, an empty body becoming null |
| IdempotencyStore.Repository.SweepExpiredKeys | internal/repository/idempotency_repository.go:68-76 | with a day as cutoff, keeps exactly the rows at most that old, unchanged, and reports how many went |
| IdempotencyStore.Middleware.LookUp | internal/handlers/idempotency_middleware.go:65-101 | 500 without a row, 409 for a started one, for a completed one 422 on another hash and else the stored code and body with 200 and null as defaults; any other status falls through |
| IdempotencyStore.Middleware.Settle | internal/handlers/idempotency_middleware.go:114-125 | a code from 500 up deletes the row; any other completes it with that code and the body itself, or null if the body is empty or no JSON |
| IdempotencyProtocol.HandlerNeedsLock | internal/handlers/idempotency_middleware.go:59-107 | in every run, leases kept or not, only started and completed rows exist and the handler runs only under a successful lock |
| IdempotencyProtocol.EveryRun | internal/handlers/idempotency_middleware.go:59-125 | with the leases of one key kept: its holder's row is its own; its completed row holds code, body (null if empty or no JSON) and hash of one request; each replay repeats the code and body of such a request with an equal hash and each 422 goes to a different one |
| IdempotencyProtocol.MutualExclusion | internal/repository/idempotency_repository.go:22-30 | with the leases of one key kept it has no two live holders |
| IdempotencyProtocol.BusyKeyIsRefused | internal/handlers/idempotency_middleware.go:65-76 | in every run with the leases of a key kept, while a request runs under it no newcomer gets the key, and one that looks the row up is told 409 |
| IdempotencyProtocol.TwoHoldersMeanOverstay | internal/repository/idempotency_repository.go:22-30 | in any run, two live holders of a key mean that some request under that key was live past its 60 s |
| IdempotencyProtocol.TakeoverIff | internal/repository/idempotency_repository.go:22-30 | in any run, a newcomer displaces a live holder if and only if the key has no row or a started one older than 60 s; while the row is the holder's own, if and only if the holder's 60 s are over; and only if some request under the key overstayed |
| IdempotencyProtocol.LateSettleOpensKey | internal/repository/idempotency_repository.go:62-66 | a holder can lose its key inside its own lease: a slow predecessor's server error deletes the row by key |
| IdempotencyProtocol.UnexplainedMeansOverstay | internal/handlers/idempotency_middleware.go:78-99 | in any run, a replay or 422 that no request with that key and an equal, respectively different, hash explains means that some request under the key overstayed |
| IdempotencyProtocol.ReplayNeedsLease | internal/repository/idempotency_repository.go:53-60 | a run that outlives a lease can replay the response of a request with a different payload, because the row is completed by key |
| IdempotencyProtocol.ExclusionNeedsLease | internal/repository/idempotency_repository.go:29-30 | a run that outlives a lease can have two live holders |
| IdempotencyProtocol.CrashedKeyComesBack | internal/repository/idempotency_repository.go:22-30 | in every run from a crash on, until somebody asks for the key, the crashed holder's row stays or is swept a day later, and the first to ask is granted if and only if the lease is over |
| IdempotencyProtocol.CompletedRowIsFrozen | internal/repository/idempotency_repository.go:68-76 | a completed row changes only by being swept, a day after it was locked |
| IdempotencyProtocol.ReplayOrRefuse | internal/handlers/idempotency_middleware.go:78-99 | a request under a completed key gets the code and the body of the original, null for a body that is empty or no JSON, if its hash is the stored one, else 422 |
| IdempotencyProtocol.RepeatsForADay | internal/handlers/idempotency_middleware.go:65-100 | in every run from a completion on, leases or not, for a day after its key was locked the row stays as it is, and a request arriving later never runs its handler but is answered from the row |
| EndToEnd.DoubleCommitMeansDesertion | internal/services/transfer_service.go:117-202 | in every run that keeps the leases of a key, whoever leaves: two committed transfers under it have a sweep of it between them, or one was committed and then told 500 because its caller had left |
| EndToEnd.DesertionNeedsLeaving | internal/services/transfer_service.go:197-202 | only a caller's leaving deserts a commit |
| EndToEnd.DesertionReopensKey | internal/handlers/idempotency_middleware.go:114-119 | whenever a deserted request settles, its key is free again and the next request under it runs |
| EndToEnd.DesertionAllowsSecondCommit | internal/handlers/idempotency_middleware.go:114-119 | whenever a deserted request settles while the worker rests, every retry under its key that the ledger can serve commits a second time without a sweep |
| EndToEnd.DesertedCommitsTwice | internal/handlers/idempotency_middleware.go:114-119 | with every lease kept, a caller that leaves just after its commit and retries pays twice |
| EndToEnd.AtMostOnce | internal/handlers/idempotency_middleware.go:59-125 | in every run that keeps the leases of a key and in which no caller under it leaves, two committed transfers under it have a sweep of it between them |
| EndToEnd.DoubleCommitMeansOverstay | internal/handlers/idempotency_middleware.go:59-125 | in any run, two commits under a key with no sweep between them and neither deserted mean that some request under the key overstayed |
| EndToEnd.StoredCodeTellsTheTruth | internal/handlers/idempotency_middleware.go:114-125 | under a key whose leases are kept, a stored 200 stands for exactly one committed transfer that was not deserted, any other stored code for none; without desertions under the key these are all its commits |
| EndToEnd.FalseCodeMeansOverstay | internal/handlers/idempotency_middleware.go:114-125 | in any run, a stored code that is not the truth about the commits of its key means that some request under the key overstayed |
| EndToEnd.AnswersTellTheTruth | internal/services/transfer_service.go:170-203 | in every run, leases kept or not, a request told 200 has committed; one that commits, now or in any continuation, was told 200, or 500 because its caller had left; one told anything else never commits; one that was not enqueued was told 400 if malformed and 503 otherwise, one that was enqueued and not told 500 the status of its reply (404 missing wallet, 400 funds, 200) |
| EndToEnd.SubmitIsAnswered | internal/services/transfer_service.go:170-195 | 400 exactly if an id or the amount is not positive or both ids are equal; otherwise 503 exactly if the queue is at capacity; otherwise the job is enqueued and the caller waits |
| EndToEnd.RefusalsSettle | internal/handlers/idempotency_middleware.go:114-125 | whatever happens until a refused request settles, with the leases of its key kept: after a 400 the key's row is completed with 400; after a 503 the key is free and the next request under it runs |
| EndToEnd.QuietServiceAnswers | internal/handlers/middleware.go:29-50 | a transfer through the resting service and back: 404, 400, 500 or 200 from its arguments and the balances alone, money and one row moved exactly on 200, and the code kept under the key unless it is 500 |
| EndToEnd.FateIsSealed | internal/services/transfer_service.go:119-127 | once its handler has returned, whether a request commits no longer changes in any continuation |
| EndToEnd.WriterCommitted | internal/handlers/idempotency_middleware.go:109-125 | the request that wrote a completed row committed if and only if the row says 200, and was not deserted |
| EndToEnd.CommitsHaveRequests | internal/services/transfer_service.go:168-204 | only requests that came through the middleware commit |
| EndToEnd.CommitsArePosted | internal/services/transfer_service.go:113-166 | in every run the ledger is the initial one plus one transaction per job answered with success, in job order, plus those of other writers, and its books stay balanced |
| SimMutex.GrantedIff | web/app.tsx:219-228 | a lock call is granted if and only if every earlier call has released |
| SimMutex.OneGrant | web/app.tsx:219-228 | at most one grant is out, and those still waiting called later |
| SimMutex.GrantedIsHead | web/app.tsx:219-228 | the promise chain is a FIFO queue whose head is the granted call |
| SimMutex.Mutex.Lock | web/app.tsx:221-227 | a new call joins the end of the line |
| SimMutex.Mutex.Release | web/app.tsx:223-226 | the granted call leaves the head of the line; a second release does nothing |
| SimLocks.SortedAscends | web/app.tsx:256-256 | the deduplicated, sorted lock list is strictly ascending with the same names |
| SimLocks.LockTable.Lock | web/app.tsx:249-258 | over the map of mutexes made on demand, a caller joins the end of exactly one line |
| SimLocks.LockTable.ReleaseAll | web/app.tsx:261-263 | the finally block makes the caller, who heads them, leave each of its lines and touches no other line |
| SimLocks.LockTable.TurnIffHead | web/app.tsx:219-228 | the promise a caller awaits is fulfilled if and only if the caller heads the line of that lock |
| SimBook.CommitKeepsSound | web/app.tsx:266-321 | a commit keeps: contiguous numbers, each entry chained to its predecessor's hash, balance_after the running sum, balance and version those of the entries, one debit and one credit of equal amount per transaction |
| SimBook.NewWalletKeepsSound | web/app.tsx:337-344 | so does opening a wallet |
| SimBook.CommitMoves | web/app.tsx:307-321 | a commit moves the amount between the named wallets and touches no other |
| SimBook.ConservedIff | web/app.tsx:307-321 | money in wallets is conserved if and only if both sides or neither name a wallet |
| SimBook.EntriesAddUpToZero | web/app.tsx:307-321 | with the external account counted in, all entries sum to zero |
| SimBook.MoneyCameFromOutside | web/app.tsx:307-321 | in every sound book the money in all wallets is what the external account gave, net |
| SimBook.SoundBookReconciles | web/app.tsx:356-365 | a sound book passes the balance and the chain check for every wallet |
| SimBook.FalsifiedAmount | web/app.tsx:361-363 | the chain check overlooks a falsified amount, the wallet's balance check never does |
| SimMoney.WakeKeepsBook | web/app.tsx:395-401 | a commit through the balance check keeps the book sound and no wallet is overdrawn |
| SimMoney.TransferConservesIff | web/app.tsx:391-401 | a transfer that goes through conserves money if and only if it names a wallet on both sides |
| SimMoney.TransferFromNobody | web/app.tsx:376-393 | a transfer from the empty id passes every check and creates money |
| SimMoney.ValidateIff | web/app.tsx:371-380 | which body is refused why: key, then amount, then a transfer to itself; any other goes on |
| SimMoney.DepositRaises | web/app.tsx:378-401 | a validated deposit to a known wallet is created, never refused for funds, and raises exactly that wallet; to an unknown wallet it is 404 |
| SimMoney.WithdrawalIff | web/app.tsx:378-401 | a validated withdrawal is created if and only if its wallet holds the amount, and lowers exactly that wallet; else 422 with balance and amount, and nothing changes |
| SimMoney.TransferMoves | web/app.tsx:378-401 | a validated transfer between known wallets is created if and only if the sender holds the amount, moves it from body.from to body.to and touches no third wallet |
| SimMoney.NobodyThrows | web/app.tsx:391-399 | a call that names no wallet passes every check, throws and leaves no trace |
| SimMoney.SimEngine.Post | web/app.tsx:266-273 | appends one entry with the next number, chained to the last hash |
| SimMoney.SimEngine.Commit | web/app.tsx:307-321 | posts the debit side, then the credit side, then the transaction |
| SimMoney.SimEngine.Enter | web/app.tsx:384-393 | known key: replay or 422 by fingerprint; unknown wallet: 404; else go on |
| SimMoney.SimEngine.Wake | web/app.tsx:395-402 | insufficient funds, an exception when neither side names a wallet, or commit and record |
| SimMoney.SimEngine.Reconcile | web/app.tsx:356-365 | computes sum, count and link check of the entries; a valid engine always reports balanced and chain_valid |
| SimCalls.NextKeepsLines | web/app.tsx:255-264 | in every interleaving a line holds exactly the calls that queue there, once, and lock holders are at its head |
| SimCalls.OneHolder | web/app.tsx:255-264 | no lock has two holders |
| SimCalls.EveryRun | web/app.tsx:371-404 | every run over a sound book keeps it sound and solvent, records each commit under its key, and answers in agreement with the records |
| SimCalls.CallDoesAsAsked | web/app.tsx:371-404 | however many calls run between its start and its commit, a call does what its body asks: deposit raises, withdrawal lowers, transfer moves, each created if and only if there are funds, and no other wallet is touched |
| SimCalls.LocksOfCall | web/app.tsx:383-383 | a call locks exactly `idem:` with its key and the wallets it names, each once |
| SimCalls.SleepersAreApart | web/app.tsx:383-394 | in every run two calls between their checks and their commit share neither key nor wallet |
| SimCalls.AtMostOnce | web/app.tsx:383-403 | money commits at most one transaction per key, in every interleaving and with no assumption on timing |
| SimCalls.RepeatMovesNothing | web/app.tsx:384-390 | once a key is recorded no step of a call with that key touches book or records |
| SimCalls.LaterCallsRepeat | web/app.tsx:384-390 | every call that enters after the commit answers with the original response, marked as replay, or 422 for another payload |
| SimCalls.NextKeepsOriginals | web/app.tsx:401-402 | no key has two calls answered as the original |
| SimCalls.NoWaitCycle | web/app.tsx:255-264 | calls never wait for each other in a circle |
| SimCalls.NoDeadlock | web/app.tsx:255-264 | while a call is unfinished some call can go on |
| SimCalls.StepDecreases | web/app.tsx:255-264 | every step of a call strictly decreases the steps all calls have left |
| MoneyFormat.RoundTrip | web/app.tsx:133-158 | a printed amount is read back exactly if it was printed without a sign; signed output is refused |
| MoneyFormat.CommasEveryThree | web/app.tsx:136-136 | grouping puts a comma at every fourth place from the right and nowhere else |
| MoneyFormat.NoLeadingZero | web/app.tsx:136-137 | the whole part has no leading zero unless it is zero |
| MoneyFormat.MoneyShape | web/app.tsx:133-140 | a minus for negative amounts, a plus exactly for positive ones that ask for it, else the symbol first; two digits of cents behind a dot |
| MoneyFormat.ParseWhole | web/app.tsx:153-158 | digits alone are whole units |
| MoneyFormat.ParseMinorReads | web/app.tsx:153-158 | up to two decimals are read as minor units, missing ones as zeros; more are refused |
| MoneyFormat.SeparatorsIgnored | web/app.tsx:153-154 | a comma, currency sign or blank anywhere in the input makes no difference to what is read |
| MoneyFormat.MoneyIsInjective | web/app.tsx:133-140 | different amounts are printed differently |

## Left out

- Exhaustion of the id sequences (INT columns) and the driver's encoding of ids as int4.
- SHA-256 and `fnv`: hashes and fingerprints are opaque values; nothing is claimed of collisions.
- The exact bytes of JSONB bodies: a stored body is the JSON value that was written.
- Postgres internals (write-ahead log, snapshots, foreign-key locks, error message matching): a transaction has row locks, an atomic commit or abort, and an error code.
- Requests without an idempotency key and methods other than POST, which the middleware refuses or passes on untouched.
- A failure of the middleware's own statement after the handler: it is a `Crash`, which leaves the row started.
- An ambiguous commit, where the connection breaks after the database committed: the fallback would run the batch again.  A database error is taken to mean rollback.
- `EndToEnd` covers the transfer route; deposit, withdrawal and wallet creation share the middleware proofs but are not composed with it.
- JavaScript numbers from 2^53 on, and amounts typed with more digits than that.
- Wallet ids in the browser's JSON bodies that are not strings; owners, timestamps and entry ids.
- The browser engine's seed transactions: runs start from any sound book without overdrafts.
- The microtask order between a promise resolving and its continuation: a granted call may resume at any later point.
- `moneyParts`, which repeats the pieces of `money`.
- The wait of `ProcessTransfer` for its reply is an event of `EndToEnd` (`Collect`, `Abandon`), not a method of the service object.
- Gin routing, JSON binding, request ids, logging, configuration, the connection pool, the user interface, migrations 000001 to 000007.
- `UpdateBalance`, `CreateEntry` and the transaction status updates, which no service calls.
- `chain_valid` on the Go side, which is the constant true.
