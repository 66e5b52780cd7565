/** The transaction executor (`execTx`), the transfer transaction
    (`TransferTx`) and its helper `addMoney`.  `SQLStore` holds the ledger the
    queries change in place, the snapshot an open transaction rolls back to,
    and the trace of balance updates.  The query methods, AddMoney, ExecTx and
    TransferTx are tied to the specification function of the same name ending
    in `Op`; TransferWorkBody to TransferWorkOp, RunWork to WorkOp and
    TransferTxChecked to CheckedTransferTxOp.  BeginTx, Rollback, Commit and
    the constructor state their new state directly.  The lemmas about the
    specification functions are in module TransferProperties. */
module Store {
  import opened Ledger

  datatype TransferTxParams = TransferTxParams(fromAccountId: int64, toAccountId: int64, amount: int64)

  datatype TransferTxResult = TransferTxResult(
    transfer: Transfer,
    fromAccount: Account,
    toAccount: Account,
    fromEntry: Entry,
    toEntry: Entry)

  /** `var result TransferTxResult`: every field at Go's zero value. */
  const ZeroResult := TransferTxResult(ZeroTransfer, ZeroAccount, ZeroAccount, ZeroEntry, ZeroEntry)

  /** Failures of the five queries of one transfer, in the order they are issued,
      beyond those the ledger itself determines. */
  datatype QueryFaults = QueryFaults(
    createTransfer: Option<Error>,
    fromEntry: Option<Error>,
    toEntry: Option<Error>,
    firstUpdate: Option<Error>,
    secondUpdate: Option<Error>)

  const NoFaults := QueryFaults(None, None, None, None, None)

  predicate CreatesSucceed(f: QueryFaults) {
    f.createTransfer.None? && f.fromEntry.None? && f.toEntry.None?
  }

  /** A failed commit leaves it open whether the work became durable. */
  datatype CommitOutcome = Committed | CommitFailed(err: Error, durable: bool)

  /** What `BeginTx`, `Rollback` and `Commit` report. */
  datatype TxEnv = TxEnv(beginErr: Option<Error>, rollbackErr: Option<Error>, commit: CommitOutcome)

  const CleanEnv := TxEnv(None, None, Committed)

  predicate Durable(c: CommitOutcome) {
    c.Committed? || c.durable
  }

  function CommitErr(c: CommitOutcome): (r: Option<Error>)
    ensures r.None? <==> c.Committed?
    ensures c.CommitFailed? ==> r == Some(c.err)
  {
    if c.Committed? then None else Some(c.err)
  }

  /** `fmt.Errorf("tx err: %v, rb err: %v", err, rbErr)`. */
  function TxRbError(txErr: Error, rbErr: Error): (r: Error)
    ensures |r| == 18 + |txErr| + |rbErr|
    ensures r[..8] == "tx err: " && r[8..8 + |txErr|] == txErr
    ensures r[8 + |txErr|..18 + |txErr|] == ", rb err: " && r[|r| - |rbErr|..] == rbErr
  {
    "tx err: " + txErr + ", rb err: " + rbErr
  }

  /** The function literal a caller hands to `execTx`, with what it closes over.
      TransferWork is the literal in `TransferTx` as written; CheckedTransferWork
      is the same literal returning the error of `addMoney`. */
  datatype UnitOfWork =
    | TransferWork(args: TransferTxParams, faults: QueryFaults)
    | CheckedTransferWork(args: TransferTxParams, faults: QueryFaults)

  /** The effect of a unit of work or a whole transaction: the ledger it
      leaves, the result it filled in, its error, and the account IDs it
      passed to AddAccountBalance, in order. */
  datatype Outcome = Outcome(ledger: LedgerState, result: TransferTxResult, err: Option<Error>, calls: seq<int64>)

  datatype MoneyOutcome = MoneyOutcome(
    ledger: LedgerState,
    account1: Account,
    account2: Account,
    err: Option<Error>,
    calls: seq<int64>)

  /** `addMoney`: two balance increments in argument order, the second one
      skipped when the first fails. */
  function AddMoneyOp(
    l: LedgerState,
    id1: int64, amount1: int64,
    id2: int64, amount2: int64,
    fault1: Option<Error>, fault2: Option<Error>): (r: MoneyOutcome)
    ensures 1 <= |r.calls| <= 2 && r.calls[0] == id1
    ensures |r.calls| == 2 ==> r.calls[1] == id2
    ensures |r.calls| == 1 <==> AddAccountBalanceOp(l, AddAccountBalanceParams(id1, amount1), fault1).err.Some?
    ensures |r.calls| == 1 ==>
              && r.ledger == l && r.err.Some? && r.account1 == r.account2 == ZeroAccount
              && r.err == AddAccountBalanceOp(l, AddAccountBalanceParams(id1, amount1), fault1).err
    ensures |r.calls| == 2 ==>
              var s1 := AddAccountBalanceOp(l, AddAccountBalanceParams(id1, amount1), fault1);
              var s2 := AddAccountBalanceOp(s1.ledger, AddAccountBalanceParams(id2, amount2), fault2);
              && r.account1 == s1.value && r.err == s2.err
              && r.ledger == s2.ledger && r.account2 == s2.value
              && (r.err.Some? ==> r.ledger == s1.ledger && r.account2 == ZeroAccount)
    ensures |r.calls| == 2 && r.err.Some? ==>
              && id1 in l.accounts && id1 in r.ledger.accounts
              && r.account1 == r.ledger.accounts[id1]
              && r.account1.balance as int == l.accounts[id1].balance as int + amount1 as int
    ensures r.ledger.entries == l.entries && r.ledger.transfers == l.transfers
    ensures r.ledger.accounts.Keys == l.accounts.Keys
    ensures forall id :: id in l.accounts && id != id1 && id != id2 ==> r.ledger.accounts[id] == l.accounts[id]
    ensures r.err.None? ==> id1 in l.accounts && id2 in l.accounts
    ensures r.err.None? && id1 != id2 ==>
              && r.account1 == r.ledger.accounts[id1]
              && r.account2 == r.ledger.accounts[id2]
              && r.ledger.accounts[id1].balance as int == l.accounts[id1].balance as int + amount1 as int
              && r.ledger.accounts[id2].balance as int == l.accounts[id2].balance as int + amount2 as int
    ensures r.err.None? && id1 == id2 ==>
              && r.account2 == r.ledger.accounts[id1]
              && r.account1.balance as int == l.accounts[id1].balance as int + amount1 as int
              && r.ledger.accounts[id1].balance as int
                   == l.accounts[id1].balance as int + amount1 as int + amount2 as int
    ensures WellFormed(l) ==> WellFormed(r.ledger)
  {
    var s1 := AddAccountBalanceOp(l, AddAccountBalanceParams(id1, amount1), fault1);
    if s1.err.Some? then MoneyOutcome(s1.ledger, s1.value, ZeroAccount, s1.err, [id1])
    else
      var s2 := AddAccountBalanceOp(s1.ledger, AddAccountBalanceParams(id2, amount2), fault2);
      MoneyOutcome(s2.ledger, s1.value, s2.value, s2.err, [id1, id2])
  }

  /** The body of the function literal in `TransferTx`.  With `propagate`
      false it ends in `return nil`, as written; with `propagate` true it
      returns the error of `addMoney`. */
  function TransferWorkOp(l: LedgerState, args: TransferTxParams, faults: QueryFaults, propagate: bool): (r: Outcome)
    ensures WellFormed(l) ==> WellFormed(r.ledger)
    ensures r.ledger.accounts.Keys == l.accounts.Keys
  {
    var t := CreateTransferOp(l, CreateTransferParams(args.fromAccountId, args.toAccountId, args.amount), faults.createTransfer);
    var res0 := ZeroResult.(transfer := t.value);
    if t.err.Some? then Outcome(t.ledger, res0, t.err, [])
    else
      var e1 := CreateEntryOp(t.ledger, CreateEntryParams(args.fromAccountId, Neg(args.amount)), faults.fromEntry);
      var res1 := res0.(fromEntry := e1.value);
      if e1.err.Some? then Outcome(e1.ledger, res1, e1.err, [])
      else
        var e2 := CreateEntryOp(e1.ledger, CreateEntryParams(args.toAccountId, args.amount), faults.toEntry);
        var res2 := res1.(toEntry := e2.value);
        if e2.err.Some? then Outcome(e2.ledger, res2, e2.err, [])
        else if args.fromAccountId < args.toAccountId then
          var m := AddMoneyOp(e2.ledger, args.fromAccountId, Neg(args.amount), args.toAccountId, args.amount,
                              faults.firstUpdate, faults.secondUpdate);
          Outcome(m.ledger, res2.(fromAccount := m.account1, toAccount := m.account2),
                  if propagate then m.err else None, m.calls)
        else
          var m := AddMoneyOp(e2.ledger, args.toAccountId, args.amount, args.fromAccountId, Neg(args.amount),
                              faults.firstUpdate, faults.secondUpdate);
          Outcome(m.ledger, res2.(toAccount := m.account1, fromAccount := m.account2),
                  if propagate then m.err else None, m.calls)
  }

  /** Calling a unit of work. */
  function WorkOp(l: LedgerState, work: UnitOfWork): Outcome {
    match work
    case TransferWork(args, faults) => TransferWorkOp(l, args, faults, false)
    case CheckedTransferWork(args, faults) => TransferWorkOp(l, args, faults, true)
  }

  /** `execTx`: begin, run the work, then roll back on its error (an
      uncommitted transaction never becomes visible, whatever Rollback
      reports) or commit. */
  function ExecTxOp(l: LedgerState, work: UnitOfWork, env: TxEnv): (r: Outcome)
    ensures env.beginErr.Some? ==> r == Outcome(l, ZeroResult, env.beginErr, [])
    ensures env.beginErr.None? ==>
              var w := WorkOp(l, work);
              && r.result == w.result && r.calls == w.calls
              && (w.err.Some? ==>
                    && r.ledger == l
                    && r.err == (if env.rollbackErr.Some? then Some(TxRbError(w.err.value, env.rollbackErr.value))
                                 else w.err))
              && (w.err.None? ==>
                    && r.err == CommitErr(env.commit)
                    && r.ledger == (if Durable(env.commit) then w.ledger else l))
    ensures r.err.None? ==> env.beginErr.None? && env.commit.Committed? && WorkOp(l, work).err.None?
  {
    if env.beginErr.Some? then Outcome(l, ZeroResult, env.beginErr, [])
    else
      var w := WorkOp(l, work);
      if w.err.Some? then
        var err := match env.rollbackErr
          case Some(rbErr) => TxRbError(w.err.value, rbErr)
          case None => w.err.value;
        Outcome(l, w.result, Some(err), w.calls)
      else
        Outcome(if Durable(env.commit) then w.ledger else l, w.result, CommitErr(env.commit), w.calls)
  }

  /** `TransferTx` as written. */
  function TransferTxOp(l: LedgerState, args: TransferTxParams, faults: QueryFaults, env: TxEnv): Outcome {
    ExecTxOp(l, TransferWork(args, faults), env)
  }

  /** `TransferTx` with the error of `addMoney` returned from the unit of work. */
  function CheckedTransferTxOp(l: LedgerState, args: TransferTxParams, faults: QueryFaults, env: TxEnv): Outcome {
    ExecTxOp(l, CheckedTransferWork(args, faults), env)
  }

  class SQLStore {
    var accounts: map<int64, Account>
    var entries: seq<Entry>
    var transfers: seq<Transfer>
    /** The ledger as it was when the open transaction began; None when none is open. */
    var snapshot: Option<LedgerState>
    /** Account IDs passed to AddAccountBalance, in call order, across all calls. */
    var trace: seq<int64>

    function State(): LedgerState
      reads this
    {
      LedgerState(accounts, entries, transfers)
    }

    ghost predicate Valid()
      reads this
    {
      WellFormed(State()) && (snapshot.Some? ==> WellFormed(snapshot.value))
    }

    /** `NewStore`, over a database holding the given accounts and no entries
        or transfers. */
    constructor (initial: map<int64, Account>)
      requires forall id :: id in initial ==> initial[id].id == id
      ensures Valid()
      ensures State() == LedgerState(initial, [], []) && snapshot == None && trace == []
    {
      accounts, entries, transfers := initial, [], [];
      snapshot, trace := None, [];
    }

    method BeginTx(beginErr: Option<Error>) returns (err: Option<Error>)
      requires Valid() && snapshot.None?
      modifies this
      ensures Valid() && State() == old(State()) && trace == old(trace)
      ensures err == beginErr
      ensures snapshot == if err.None? then Some(State()) else None
    {
      err := beginErr;
      if err.None? {
        snapshot := Some(State());
      }
    }

    method Rollback(rollbackErr: Option<Error>) returns (err: Option<Error>)
      requires Valid() && snapshot.Some?
      modifies this
      ensures Valid() && snapshot == None && trace == old(trace)
      ensures State() == old(snapshot.value)
      ensures err == rollbackErr
    {
      accounts, entries, transfers := snapshot.value.accounts, snapshot.value.entries, snapshot.value.transfers;
      snapshot := None;
      err := rollbackErr;
    }

    method Commit(outcome: CommitOutcome) returns (err: Option<Error>)
      requires Valid() && snapshot.Some?
      modifies this
      ensures Valid() && snapshot == None && trace == old(trace)
      ensures State() == if Durable(outcome) then old(State()) else old(snapshot.value)
      ensures err == CommitErr(outcome)
    {
      if !Durable(outcome) {
        accounts, entries, transfers := snapshot.value.accounts, snapshot.value.entries, snapshot.value.transfers;
      }
      snapshot := None;
      err := CommitErr(outcome);
    }

    method CreateTransfer(p: CreateTransferParams, fault: Option<Error>) returns (t: Transfer, err: Option<Error>)
      requires Valid()
      modifies this
      ensures Valid() && snapshot == old(snapshot) && trace == old(trace)
      ensures Step(State(), t, err) == CreateTransferOp(old(State()), p, fault)
    {
      if fault.Some? {
        return ZeroTransfer, fault;
      }
      t := Transfer(|transfers| + 1, p.fromAccountId, p.toAccountId, p.amount);
      transfers := transfers + [t];
      err := None;
    }

    method CreateEntry(p: CreateEntryParams, fault: Option<Error>) returns (e: Entry, err: Option<Error>)
      requires Valid()
      modifies this
      ensures Valid() && snapshot == old(snapshot) && trace == old(trace)
      ensures Step(State(), e, err) == CreateEntryOp(old(State()), p, fault)
    {
      if fault.Some? {
        return ZeroEntry, fault;
      }
      e := Entry(|entries| + 1, p.accountId, p.amount);
      entries := entries + [e];
      err := None;
    }

    method AddAccountBalance(p: AddAccountBalanceParams, fault: Option<Error>) returns (a: Account, err: Option<Error>)
      requires Valid()
      modifies this
      ensures Valid() && snapshot == old(snapshot) && trace == old(trace) + [p.id]
      ensures Step(State(), a, err) == AddAccountBalanceOp(old(State()), p, fault)
    {
      trace := trace + [p.id];
      if fault.Some? {
        return ZeroAccount, fault;
      }
      if p.id !in accounts {
        return ZeroAccount, Some(ErrNoRows);
      }
      var sum := accounts[p.id].balance as int + p.amount as int;
      if !InInt64(sum) {
        return ZeroAccount, Some(ErrBigintOutOfRange);
      }
      a := accounts[p.id].(balance := sum as int64);
      accounts := accounts[p.id := a];
      err := None;
    }

    /** `addMoney`. */
    method AddMoney(
      id1: int64, amount1: int64,
      id2: int64, amount2: int64,
      fault1: Option<Error>, fault2: Option<Error>)
      returns (account1: Account, account2: Account, err: Option<Error>)
      requires Valid()
      modifies this
      ensures Valid() && snapshot == old(snapshot)
      ensures var m := AddMoneyOp(old(State()), id1, amount1, id2, amount2, fault1, fault2);
              && State() == m.ledger && account1 == m.account1 && account2 == m.account2 && err == m.err
              && trace == old(trace) + m.calls
    {
      account2 := ZeroAccount;
      account1, err := AddAccountBalance(AddAccountBalanceParams(id1, amount1), fault1);
      if err.Some? {
        return;
      }
      account2, err := AddAccountBalance(AddAccountBalanceParams(id2, amount2), fault2);
    }

    /** The body of the function literal in `TransferTx`; see TransferWorkOp. */
    method TransferWorkBody(args: TransferTxParams, faults: QueryFaults, propagate: bool)
      returns (result: TransferTxResult, err: Option<Error>)
      requires Valid()
      modifies this
      ensures Valid() && snapshot == old(snapshot)
      ensures var w := TransferWorkOp(old(State()), args, faults, propagate);
              && State() == w.ledger && result == w.result && err == w.err
              && trace == old(trace) + w.calls
    {
      result := ZeroResult;
      var t: Transfer, e: Entry, updateErr: Option<Error>;
      t, err := CreateTransfer(CreateTransferParams(args.fromAccountId, args.toAccountId, args.amount), faults.createTransfer);
      result := result.(transfer := t);
      if err.Some? {
        return;
      }
      e, err := CreateEntry(CreateEntryParams(args.fromAccountId, Neg(args.amount)), faults.fromEntry);
      result := result.(fromEntry := e);
      if err.Some? {
        return;
      }
      e, err := CreateEntry(CreateEntryParams(args.toAccountId, args.amount), faults.toEntry);
      result := result.(toEntry := e);
      if err.Some? {
        return;
      }
      var first: Account, second: Account;
      if args.fromAccountId < args.toAccountId {
        first, second, updateErr := AddMoney(args.fromAccountId, Neg(args.amount), args.toAccountId, args.amount,
                                             faults.firstUpdate, faults.secondUpdate);
        result := result.(fromAccount := first, toAccount := second);
      } else {
        first, second, updateErr := AddMoney(args.toAccountId, args.amount, args.fromAccountId, Neg(args.amount),
                                             faults.firstUpdate, faults.secondUpdate);
        result := result.(toAccount := first, fromAccount := second);
      }
      err := if propagate then updateErr else None;
    }

    /** Calling the unit of work handed to `execTx`. */
    method RunWork(work: UnitOfWork) returns (result: TransferTxResult, err: Option<Error>)
      requires Valid()
      modifies this
      ensures Valid() && snapshot == old(snapshot)
      ensures var w := WorkOp(old(State()), work);
              State() == w.ledger && result == w.result && err == w.err && trace == old(trace) + w.calls
    {
      match work
      case TransferWork(args, faults) =>
        result, err := TransferWorkBody(args, faults, false);
      case CheckedTransferWork(args, faults) =>
        result, err := TransferWorkBody(args, faults, true);
    }

    /** `execTx`; `result` is what the work left in the variable it closes over. */
    method ExecTx(work: UnitOfWork, env: TxEnv) returns (result: TransferTxResult, err: Option<Error>)
      requires Valid() && snapshot.None?
      modifies this
      ensures Valid() && snapshot == None
      ensures var o := ExecTxOp(old(State()), work, env);
              State() == o.ledger && result == o.result && err == o.err && trace == old(trace) + o.calls
    {
      result := ZeroResult;
      err := BeginTx(env.beginErr);
      if err.Some? {
        return;
      }
      result, err := RunWork(work);
      if err.Some? {
        var rbErr := Rollback(env.rollbackErr);
        if rbErr.Some? {
          err := Some(TxRbError(err.value, rbErr.value));
        }
        return;
      }
      err := Commit(env.commit);
    }

    /** `TransferTx`, as written. */
    method TransferTx(args: TransferTxParams, faults: QueryFaults, env: TxEnv)
      returns (result: TransferTxResult, err: Option<Error>)
      requires Valid() && snapshot.None?
      modifies this
      ensures Valid() && snapshot == None
      ensures var o := TransferTxOp(old(State()), args, faults, env);
              State() == o.ledger && result == o.result && err == o.err && trace == old(trace) + o.calls
    {
      result, err := ExecTx(TransferWork(args, faults), env);
    }

    /** `TransferTx` with the balance-update error returned from the unit of work,
        so that `execTx` rolls the whole transfer back. */
    method TransferTxChecked(args: TransferTxParams, faults: QueryFaults, env: TxEnv)
      returns (result: TransferTxResult, err: Option<Error>)
      requires Valid() && snapshot.None?
      modifies this
      ensures Valid() && snapshot == None
      ensures var o := CheckedTransferTxOp(old(State()), args, faults, env);
              State() == o.ledger && result == o.result && err == o.err && trace == old(trace) + o.calls
    {
      result, err := ExecTx(CheckedTransferWork(args, faults), env);
    }
  }
}
