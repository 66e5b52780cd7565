# Bank ledger transfer transaction, modelled in Dafny

This project models the core of a small banking ledger written in Go. The core is the money-transfer transaction of `db/sqlc/store.go` and the currency check of `util/currency.go`.

- `execTx` opens a database transaction and runs a unit of work. If the work fails, it rolls back and reports both errors when the rollback fails too. Otherwise it commits.
- `TransferTx` runs these steps inside `execTx`, in order:
  1. inserts one transfer row;
  2. inserts a debit entry (`-Amount`) for the sender;
  3. inserts a credit entry (`+Amount`) for the receiver;
  4. calls `addMoney`, always updating the smaller account ID first so that two transfers over the same pair take row locks in the same order.
- `addMoney` issues two balance increments in argument order and stops at the first failure.
- `IsSupportedCurrency` accepts exactly `"ZAR"`.

Files:

- `ledger.dfy` (module `Ledger`): the account, entry and transfer rows, Go's `int64`, and the three generated queries `TransferTx` uses. Each query is given its meaning over an in-memory ledger, as the single SQL statement it is assumed to run (see "## Left out").
- `store.dfy` (module `Store`): class `SQLStore`. It holds the accounts map, the entry and transfer tables, the snapshot an open transaction rolls back to, and the trace of account IDs passed to `AddAccountBalance`. Its methods are `BeginTx`, `Rollback`, `Commit`, the three queries, `AddMoney`, the body of the transfer's function literal, `ExecTx`, `TransferTx` and the corrected `TransferTxChecked`. Each method except `BeginTx`, `Rollback`, `Commit` and the constructor is proved to leave exactly the state, result, error and trace that a specification function computes from the old state:
  - the three queries, `AddMoney`, `ExecTx` and `TransferTx` follow the function of the same name ending in `Op`;
  - `TransferWorkBody` follows `TransferWorkOp`, `RunWork` follows `WorkOp`, and `TransferTxChecked` follows `CheckedTransferTxOp`.
  `BeginTx`, `Rollback`, `Commit` and the constructor state their new state directly.
- `properties.dfy` (module `TransferProperties`): lemmas about those functions. They cover the records created, entries summing to zero, lock order, conservation, the result rows, rollback, the swallowed balance-update error, the corrected all-or-nothing behaviour, and transfers run one after another.
- `currency.dfy` (module `Currency`): `IsSupportedCurrency` and its lemmas.

The function literal passed to `execTx` is represented by the datatype `UnitOfWork`, because Dafny methods cannot be passed as values. `TransferWork` is the literal as written. `CheckedTransferWork` is the corrected one. The Go code writes into a `result` variable captured by that literal; `ExecTx` hands that variable back as an out-parameter.

External outcomes are parameters:

- `TxEnv` holds what `BeginTx`, `Rollback` and `Commit` report. A failed commit carries a flag saying whether the work became durable anyway.
- `QueryFaults` holds one optional failure per query call: a lost connection, a lock timeout, or anything else the ledger does not determine.

`AddAccountBalance` also fails on its own in two cases:

- an unknown account ID: the update matches no row, so `Scan` reports `sql: no rows in result set`;
- a new balance outside the 64-bit range: assuming PostgreSQL, the database reports `bigint out of range`.

A failed query is assumed to return Go's zero value of its row type, as code that scans into a fresh row variable would; the generated query code is not part of this model.

The doc comment at `db/sqlc/store.go:63-64` says the transfer updates balances "within a single database transaction". `execTx` rolls that transaction back on any error the unit of work returns (`db/sqlc/store.go:37-42`). But the function literal returns `nil` at `db/sqlc/store.go:110`, so an error from `addMoney` never reaches that rollback path. The model follows the code as written, proves what this causes (see "## Findings") and adds the corrected variant beside it.

## Model

| member | source | states |
|---|---|---|
| `Currency.IsSupportedCurrency` | util/currency.go:9-16 | true exactly for the members of the supported-currency set, which is `{"ZAR"}` |
| `Currency.ZarIsSupported` | util/currency.go:4-12 | `"ZAR"` is supported |
| `Currency.OnlyZarIsSupported` | util/currency.go:10-15 | every other string is rejected |
| `Currency.MatchIsExact` | util/currency.go:10-11 | matching is case-sensitive and does not trim: `"zar"`, `"Zar"`, `"ZAR "`, `" ZAR"` and `""` are rejected |
| `Ledger.Neg` | db/sqlc/store.go:83 | Go's `-x` on `int64` is congruent to `-x` modulo 2^64, and equals the true negation exactly when `x` is not the most negative value |
| `Ledger.CreateTransferOp` | db/sqlc/store.go:72-76 | on success the returned row carries exactly the given from, to and amount, the transfer table grows by exactly that row, and entries and accounts are untouched; on failure the ledger is unchanged and the row is the zero value; well-formedness is kept |
| `Ledger.CreateEntryOp` | db/sqlc/store.go:82-94 | on success the returned row carries exactly the given account and amount, the entry table grows by exactly that row, and transfers and accounts are untouched; on failure nothing changes and the row is the zero value; well-formedness is kept |
| `Ledger.AddAccountBalanceOp` | db/sqlc/store.go:124-136 | succeeds iff no fault, the ID exists and `balance + amount` fits in 64 bits; then only that account changes, its balance by exactly `amount`, and the post-update row is returned; otherwise nothing changes, and a given fault is the error returned |
| `Store.CommitErr` | db/sqlc/store.go:45 | commit reports an error exactly when it did not commit, and that error is the commit's own, returned as is |
| `Store.TxRbError` | db/sqlc/store.go:38-40 | the composite error is `"tx err: "`, then the work's error, then `", rb err: "`, then the rollback's error |
| `Store.AddMoneyOp` | db/sqlc/store.go:116-143 | one or two updates, the first on `id1` and the second on `id2`; exactly one when the first fails, and then nothing changes, both rows are zero and the error is the first query's; when the second fails, the first increment stays applied, `account1` is that updated row, `account2` is zero and the error is the second query's; when both are issued, the final ledger and `account2` are those of the second update; no table other than accounts changes, and no account other than the two; on success with distinct IDs each balance moves by its amount and the rows returned are the final rows; on success with one ID twice, that balance moves by both amounts and `account2` is the final row |
| `Store.TransferWorkOp` | db/sqlc/store.go:69-111 | the unit of work keeps the ledger well formed and never adds or removes accounts |
| `Store.ExecTxOp` | db/sqlc/store.go:29-46 | a failed begin never runs the work and changes nothing; a failed work is rolled back, and its error is returned unchanged or joined with the rollback's error; a successful work is kept exactly when the commit is durable, and the commit's error is returned; no error means begin, work and commit all succeeded |
| `Store.SQLStore.constructor` | db/sqlc/store.go:21-26 | a store over the given accounts, with no entries or transfers, no open transaction and an empty trace |
| `Store.SQLStore.BeginTx` | db/sqlc/store.go:30-33 | on success, snapshots the ledger; on failure, returns the error and opens nothing |
| `Store.SQLStore.Rollback` | db/sqlc/store.go:38 | restores the snapshot and closes the transaction |
| `Store.SQLStore.Commit` | db/sqlc/store.go:45 | keeps the work when durable, otherwise restores the snapshot; closes the transaction |
| `Store.SQLStore.CreateTransfer` | db/sqlc/store.go:72-76 | state, row and error as `CreateTransferOp` gives them |
| `Store.SQLStore.CreateEntry` | db/sqlc/store.go:82-94 | state, row and error as `CreateEntryOp` gives them |
| `Store.SQLStore.AddAccountBalance` | db/sqlc/store.go:124-136 | appends the ID to the trace; state, row and error as `AddAccountBalanceOp` gives them |
| `Store.SQLStore.AddMoney` | db/sqlc/store.go:116-143 | state, rows, error and trace extension as `AddMoneyOp` gives them |
| `Store.SQLStore.TransferWorkBody` | db/sqlc/store.go:69-111 | fills the result field by field and leaves the state `TransferWorkOp` gives |
| `Store.SQLStore.RunWork` | db/sqlc/store.go:36 | runs the given unit of work |
| `Store.SQLStore.ExecTx` | db/sqlc/store.go:29-46 | state, result, error and trace as `ExecTxOp` gives them; no transaction is left open |
| `Store.SQLStore.TransferTx` | db/sqlc/store.go:65-114 | state, result, error and trace as `TransferTxOp` (the code as written) gives them |
| `Store.SQLStore.TransferTxChecked` | db/sqlc/store.go:65-114 | the same, with the balance-update error returned from the unit of work |
| `TransferProperties.TransferRecords` | db/sqlc/store.go:72-94 | the transfer row carries exactly the given from, to and amount; the debit entry is the sender's with `-Amount`; the credit entry is the receiver's with `Amount`; they are appended in that order |
| `TransferProperties.EntriesSumToZero` | db/sqlc/store.go:82-94 | the two entry amounts sum to zero iff the amount is not the most negative `int64` |
| `TransferProperties.CreateFailureSkipsUpdates` | db/sqlc/store.go:78-98 | a failing create returns that query's error (the first one that failed) and issues no balance update |
| `TransferProperties.UpdateOrder` | db/sqlc/store.go:101-108 | the first update targets `min(from, to)` and the second, if issued, `max(from, to)`, in both branches |
| `TransferProperties.UpdatesAscend` | db/sqlc/store.go:101-108 | in every transaction, whatever fails, the IDs passed to `AddAccountBalance` are at most two, the transfer's smaller account ID first and its larger one second |
| `TransferProperties.OppositeTransfersLockAlike` | db/sqlc/store.go:101-108 | A-to-B and B-to-A transfers update the same row first, and the same sequence of rows when both reach the second update |
| `TransferProperties.TransferMovesMoney` | db/sqlc/store.go:104-108 | when both updates go through: `FromAccount` and `ToAccount` are the final rows of the sender and the receiver in both branches; the sender's balance changes by `-Amount` and the receiver's by `+Amount`; no other account changes |
| `TransferProperties.TransferConservesMoney` | db/sqlc/store.go:104-108 | the sender loses exactly `Amount`, the receiver gains it, and the sum of the two balances is unchanged |
| `TransferProperties.CheckedWorkSucceedsIffUpdatesApply` | db/sqlc/store.go:105-110 | with the error returned, the unit of work succeeds iff both updates can go through |
| `TransferProperties.SelfTransfer` | db/sqlc/store.go:104-108 | with from = to, both updates hit one row (`ToAccountID` first, in the else branch); `FromAccount` is the final row, `ToAccount` is the intermediate row (the account with only `+Amount` applied, every other field unchanged), and the account ends as it started |
| `TransferProperties.CreateFailureRollsBack` | db/sqlc/store.go:78-98 | if any create fails, the ledger afterwards equals the ledger before, no update was issued, and the error is the query's, or the composite one when rollback fails too |
| `TransferProperties.CheckedUpdateFailureRollsBack` | db/sqlc/store.go:36-42 | in the corrected transfer, a failing first balance update leaves the ledger as before, only the smaller account was updated, and the error is that update's own, or the composite one when rollback fails too |
| `TransferProperties.UpdateErrorNotReported` | db/sqlc/store.go:105-113 | as written, once the rows exist `TransferTx` returns only Commit's error, and a durable commit keeps whatever the updates did |
| `TransferProperties.HalfAppliedTransferCommits` | db/sqlc/store.go:105-110 | as written, moving 10 from account 1 to a missing account 2 reports success, keeps the transfer and both entries, and leaves account 1 debited to 90: not all-or-nothing |
| `TransferProperties.CheckedTransferAllOrNothing` | db/sqlc/store.go:65-114 | corrected: the ledger afterwards is either the one before or the one with the whole transfer applied; success always means applied; an applied ledger beside an error only comes from a durable commit |
| `TransferProperties.CheckedAgreesWhenUpdatesApply` | db/sqlc/store.go:104-110 | the correction changes nothing on the path where both updates go through |
| `TransferProperties.CleanTransferStep` | db/sqlc/store.go:65-114 | one transfer that can go through, on a clean transaction, moves `Amount` and adds one transfer row and two entries |
| `TransferProperties.RepeatedTransfers` | db/sqlc/store.go:65-114 | `n` transfers run one after another move `n * Amount` and leave `n` transfer rows and `2n` entries |

## Left out

- `main.go`: configuration, opening the connection and starting the HTTP server are process plumbing. They are not part of this model.
- The generated query layer (`New`, `Queries`, `Querier`, `GetTransfer`, `ListTransfers` and its pagination) is not part of this model. Only the three queries `TransferTx` calls are given meaning over the in-memory ledger.
- `database/sql` mechanics, `context.Context` cancellation and JSON tags are not modelled. What begin, rollback and commit report is a parameter.
- Rollback: the model always discards the uncommitted work, even when `Rollback` reports an error. An uncommitted transaction never becomes visible.
- The aborted-transaction state of the assumed PostgreSQL database is not modelled. In that state later statements are refused and a commit becomes a rollback. This database behaviour is covered only through the commit-outcome parameter.
- Concurrency: interleaved transactions, row locks and freedom from deadlock are not modelled, because the model is sequential. What is modelled is the update-order trace that the lock-order rule relies on (`UpdatesAscend`, `OppositeTransfersLockAlike`), and serial composition (`RepeatedTransfers`).
- Foreign-key and check constraints of the schema are not modelled, because the schema is not part of this model. Creating a row for a missing account succeeds; only `AddAccountBalance` notices a missing account.
- Entry and transfer IDs are modelled as unbounded naturals numbered by insertion position. Assuming PostgreSQL serial columns, real IDs would come from a non-transactional sequence, so they could have gaps.
- `CreatedAt` timestamps are not modelled, because they come from the clock.
- Input validation: the operations do not validate their inputs (a positive amount, distinct accounts, matching currencies); any such check would lie above this core, in code not modelled. The operations do not require it. Lemmas that need it say so in their `requires`.
- `TransferMovesMoney`: stated for distinct accounts only; the from = to case is `SelfTransfer`.
- `TransferConservesMoney`: stated for distinct accounts only; the from = to case is `SelfTransfer`.
- `CheckedWorkSucceedsIffUpdatesApply`: stated for distinct accounts only; the from = to case is covered by `SelfTransfer` and `CheckedTransferAllOrNothing`.
- The database engine, the driver and the SQL of the three queries do not appear in the source: the connection is opened with a configured driver name, and the generated query code is not part of this model. The model assumes PostgreSQL through lib/pq, an INSERT ... RETURNING for each create, and an unconditional `UPDATE accounts SET balance = balance + amount WHERE id = ... RETURNING *` for `AddAccountBalance`. The error texts `ErrNoRows` and `ErrBigintOutOfRange` follow from that assumption.
- `AddAccountBalanceOp`: under that assumption no update is refused for insufficient funds, so a transfer may drive a balance negative; the only refusals are an unknown ID and a sum outside the 64-bit range. A schema check constraint on balances would add a refusal not modelled here.

## Findings

| source | as written | input that shows it | evidently intended | confidence | as-written member | corrected member |
|---|---|---|---|---|---|---|
| db/sqlc/store.go:105-110 | the `err` returned by `addMoney` goes into the function literal's own `err` (declared at store.go:70), and the literal then returns `nil`, so `execTx` commits after a failed balance update | account 1 holds 100; transfer 10 from account 1 to account 2, which does not exist: the transfer and both entries are committed, account 1 drops to 90, and `TransferTx` returns no error. This witness assumes the schema has no foreign keys from transfers and entries to accounts (see "## Left out"); with such keys `CreateTransfer` fails first and `execTx` rolls back. In the model, any failure of the second balance update is swallowed the same way (`UpdateErrorNotReported`); whether the database would then still commit depends on its aborted-transaction state, which is listed under "## Left out" | return `err` from the literal so that `execTx` rolls the whole transfer back | not executed; high that the error is dropped, medium for this witness, which rests on the schema assumption | `TransferProperties.HalfAppliedTransferCommits` | `TransferProperties.CheckedTransferAllOrNothing` |
