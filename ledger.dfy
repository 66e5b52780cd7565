/** The ledger schema (accounts, entries, transfers) and the three generated
    queries that the transfer transaction issues, given their meaning over an
    in-memory ledger.  The generated query code, its SQL, the database engine
    and the driver are not part of this model: each query here is the single
    statement it is assumed to run, on PostgreSQL through lib/pq. */
module Ledger {

  datatype Option<+T> = None | Some(value: T)

  /** A Go `error`; only its message is observable. */
  type Error = string

  const MinInt64: int := -0x8000_0000_0000_0000
  const MaxInt64: int := 0x7fff_ffff_ffff_ffff
  const TwoTo64: int := 0x1_0000_0000_0000_0000

  /** Go's `int64`, and the `bigint` column the balances are assumed to be stored in. */
  newtype int64 = x: int | -0x8000_0000_0000_0000 <= x < 0x8000_0000_0000_0000

  predicate InInt64(x: int) {
    MinInt64 <= x <= MaxInt64
  }

  /** Go's unary minus on `int64`: two's-complement negation, which wraps, so
      the most negative value is its own negation. */
  function Neg(x: int64): (r: int64)
    ensures (x as int + r as int) % TwoTo64 == 0
    ensures r as int == -(x as int) <==> x as int != MinInt64
  {
    if x as int == MinInt64 then x else -x
  }

  datatype Account = Account(id: int64, owner: string, balance: int64, currency: string)

  /** A signed change to one account's balance: negative is a debit. */
  datatype Entry = Entry(id: nat, accountId: int64, amount: int64)

  datatype Transfer = Transfer(id: nat, fromAccountId: int64, toAccountId: int64, amount: int64)

  /** Go's zero values of the three row types: what a query returns beside an error. */
  const ZeroAccount := Account(0, "", 0, "")
  const ZeroEntry := Entry(0, 0, 0)
  const ZeroTransfer := Transfer(0, 0, 0, 0)

  datatype CreateTransferParams = CreateTransferParams(fromAccountId: int64, toAccountId: int64, amount: int64)
  datatype CreateEntryParams = CreateEntryParams(accountId: int64, amount: int64)
  datatype AddAccountBalanceParams = AddAccountBalanceParams(id: int64, amount: int64)

  /** The database contents: accounts by ID, and the entry and transfer tables
      in insertion order. */
  datatype LedgerState = LedgerState(accounts: map<int64, Account>, entries: seq<Entry>, transfers: seq<Transfer>)

  /** Every account is stored under its own ID, and entries and transfers are
      numbered 1, 2, ... in insertion order. */
  predicate WellFormed(l: LedgerState) {
    && (forall id :: id in l.accounts ==> l.accounts[id].id == id)
    && (forall i :: 0 <= i < |l.entries| ==> l.entries[i].id == i + 1)
    && (forall i :: 0 <= i < |l.transfers| ==> l.transfers[i].id == i + 1)
  }

  /** The ledger after one query, the row it returned and its error. */
  datatype Step<T> = Step(ledger: LedgerState, value: T, err: Option<Error>)

  /** What `database/sql`'s `Scan` reports when the update, assumed to be an
      UPDATE ... RETURNING, matches no row. */
  const ErrNoRows: Error := "sql: no rows in result set"
  /** The error assumed for a `balance + amount` outside the `bigint` range,
      as PostgreSQL reports it through lib/pq. */
  const ErrBigintOutOfRange: Error := "pq: bigint out of range"

  /** Assumed to be one INSERT INTO transfers ... RETURNING *.  `fault` is a
      failure of the statement that this model does not derive (lost
      connection, lock timeout). */
  function CreateTransferOp(l: LedgerState, p: CreateTransferParams, fault: Option<Error>): (r: Step<Transfer>)
    ensures r.err == fault
    ensures r.err.None? ==>
              && r.value.fromAccountId == p.fromAccountId
              && r.value.toAccountId == p.toAccountId
              && r.value.amount == p.amount
              && r.ledger.transfers == l.transfers + [r.value]
              && r.ledger.entries == l.entries && r.ledger.accounts == l.accounts
    ensures r.err.Some? ==> r.ledger == l && r.value == ZeroTransfer
    ensures WellFormed(l) ==> WellFormed(r.ledger)
  {
    if fault.Some? then Step(l, ZeroTransfer, fault)
    else
      var t := Transfer(|l.transfers| + 1, p.fromAccountId, p.toAccountId, p.amount);
      Step(l.(transfers := l.transfers + [t]), t, None)
  }

  /** Assumed to be one INSERT INTO entries ... RETURNING *. */
  function CreateEntryOp(l: LedgerState, p: CreateEntryParams, fault: Option<Error>): (r: Step<Entry>)
    ensures r.err == fault
    ensures r.err.None? ==>
              && r.value.accountId == p.accountId
              && r.value.amount == p.amount
              && r.ledger.entries == l.entries + [r.value]
              && r.ledger.transfers == l.transfers && r.ledger.accounts == l.accounts
    ensures r.err.Some? ==> r.ledger == l && r.value == ZeroEntry
    ensures WellFormed(l) ==> WellFormed(r.ledger)
  {
    if fault.Some? then Step(l, ZeroEntry, fault)
    else
      var e := Entry(|l.entries| + 1, p.accountId, p.amount);
      Step(l.(entries := l.entries + [e]), e, None)
  }

  /** Assumed to be UPDATE accounts SET balance = balance + amount WHERE id = ...
      RETURNING *: one unconditional, atomic increment evaluated by the
      database, so no update is refused for insufficient funds and a balance
      may go negative. */
  function AddAccountBalanceOp(l: LedgerState, p: AddAccountBalanceParams, fault: Option<Error>): (r: Step<Account>)
    ensures fault.Some? ==> r.err == fault
    ensures r.err.None? <==>
              && fault.None?
              && p.id in l.accounts
              && InInt64(l.accounts[p.id].balance as int + p.amount as int)
    ensures r.err.None? ==>
              && r.value.balance as int == l.accounts[p.id].balance as int + p.amount as int
              && r.value.(balance := l.accounts[p.id].balance) == l.accounts[p.id]
              && r.ledger == l.(accounts := l.accounts[p.id := r.value])
    ensures r.err.Some? ==> r.ledger == l && r.value == ZeroAccount
    ensures WellFormed(l) ==> WellFormed(r.ledger)
  {
    if fault.Some? then Step(l, ZeroAccount, fault)
    else if p.id !in l.accounts then Step(l, ZeroAccount, Some(ErrNoRows))
    else
      var a := l.accounts[p.id];
      var sum := a.balance as int + p.amount as int;
      if !InInt64(sum) then Step(l, ZeroAccount, Some(ErrBigintOutOfRange))
      else
        var updated := a.(balance := sum as int64);
        Step(l.(accounts := l.accounts[p.id := updated]), updated, None)
  }
}
