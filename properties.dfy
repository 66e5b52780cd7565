/** What the transfer transaction guarantees, and where the code as written
    falls short of it, stated over the specification functions of module
    Store (which the methods of SQLStore are proved to follow). */
module TransferProperties {
  import opened Ledger
  import opened Store

  function MinId(a: int64, b: int64): int64 {
    if a < b then a else b
  }

  function MaxId(a: int64, b: int64): int64 {
    if a < b then b else a
  }

  function BalanceOf(l: LedgerState, id: int64): int
    requires id in l.accounts
  {
    l.accounts[id].balance as int
  }

  /** Reference definition: `after` is `before` with `amount` moved from
      `from` to `to`, every other field of every account as it was. */
  ghost predicate Moved(before: map<int64, Account>, after: map<int64, Account>, from: int64, to: int64, amount: int) {
    && after.Keys == before.Keys
    && (forall id :: id in before ==>
          && after[id].(balance := before[id].balance) == before[id]
          && after[id].balance as int == before[id].balance as int
               - (if id == from then amount else 0) + (if id == to then amount else 0))
  }

  /** Reference definition of a completed transfer: one transfer row and the
      debit and credit entries appended, and the money moved. */
  ghost predicate Applied(before: LedgerState, args: TransferTxParams, after: LedgerState) {
    && after.transfers == before.transfers + [Transfer(|before.transfers| + 1, args.fromAccountId, args.toAccountId, args.amount)]
    && after.entries == before.entries + [Entry(|before.entries| + 1, args.fromAccountId, Neg(args.amount)),
                                          Entry(|before.entries| + 2, args.toAccountId, args.amount)]
    && args.fromAccountId in before.accounts && args.toAccountId in before.accounts
    && Moved(before.accounts, after.accounts, args.fromAccountId, args.toAccountId, args.amount as int)
  }

  /** Both balance updates of a transfer between two distinct accounts go through. */
  predicate UpdatesApply(l: LedgerState, args: TransferTxParams, faults: QueryFaults) {
    && faults.firstUpdate.None? && faults.secondUpdate.None?
    && args.fromAccountId in l.accounts && args.toAccountId in l.accounts
    && InInt64(BalanceOf(l, args.fromAccountId) + Neg(args.amount) as int)
    && InInt64(BalanceOf(l, args.toAccountId) + args.amount as int)
  }

  // ---------------------------------------------------------------------
  // The records a transfer creates
  // ---------------------------------------------------------------------

  /** One transfer row carrying exactly the arguments, then the debit entry of
      the sender and the credit entry of the receiver, in that order. */
  lemma TransferRecords(l: LedgerState, args: TransferTxParams, faults: QueryFaults, propagate: bool)
    requires CreatesSucceed(faults)
    ensures var w := TransferWorkOp(l, args, faults, propagate);
            && w.result.transfer == Transfer(|l.transfers| + 1, args.fromAccountId, args.toAccountId, args.amount)
            && w.result.fromEntry == Entry(|l.entries| + 1, args.fromAccountId, Neg(args.amount))
            && w.result.toEntry == Entry(|l.entries| + 2, args.toAccountId, args.amount)
            && w.ledger.transfers == l.transfers + [w.result.transfer]
            && w.ledger.entries == l.entries + [w.result.fromEntry, w.result.toEntry]
  {
  }

  /** The two entries cancel out exactly when the amount has a negation in
      `int64`: Go's `-args.Amount` wraps for the most negative amount. */
  lemma EntriesSumToZero(l: LedgerState, args: TransferTxParams, faults: QueryFaults, propagate: bool)
    requires CreatesSucceed(faults)
    ensures var w := TransferWorkOp(l, args, faults, propagate);
            (w.result.fromEntry.amount as int + w.result.toEntry.amount as int == 0
             <==> args.amount as int != MinInt64)
  {
    TransferRecords(l, args, faults, propagate);
  }

  /** A failing create stops the work before any balance is touched. */
  lemma CreateFailureSkipsUpdates(l: LedgerState, args: TransferTxParams, faults: QueryFaults, propagate: bool)
    requires !CreatesSucceed(faults)
    ensures var w := TransferWorkOp(l, args, faults, propagate);
            && w.calls == [] && w.err.Some?
            && w.err == (if faults.createTransfer.Some? then faults.createTransfer
                         else if faults.fromEntry.Some? then faults.fromEntry
                         else faults.toEntry)
            && w.ledger.accounts == l.accounts
  {
  }

  // ---------------------------------------------------------------------
  // Lock order
  // ---------------------------------------------------------------------

  /** The first balance update always goes to the smaller account ID and the
      second, if issued, to the larger one; it is issued exactly when the first
      succeeded. */
  lemma UpdateOrder(l: LedgerState, args: TransferTxParams, faults: QueryFaults, propagate: bool)
    requires CreatesSucceed(faults)
    ensures var w := TransferWorkOp(l, args, faults, propagate);
            && 1 <= |w.calls| <= 2
            && w.calls[0] == MinId(args.fromAccountId, args.toAccountId)
            && (|w.calls| == 2 ==> w.calls[1] == MaxId(args.fromAccountId, args.toAccountId))
  {
  }

  /** Over a whole transaction, whatever fails: the account IDs handed to
      AddAccountBalance are the transfer's two accounts, in ascending order:
      at most two, the smaller ID first and the larger second. */
  lemma UpdatesAscend(l: LedgerState, work: UnitOfWork, env: TxEnv)
    ensures var o := ExecTxOp(l, work, env);
            && |o.calls| <= 2
            && (|o.calls| >= 1 ==> o.calls[0] == MinId(work.args.fromAccountId, work.args.toAccountId))
            && (|o.calls| == 2 ==> o.calls[1] == MaxId(work.args.fromAccountId, work.args.toAccountId))
            && (forall i, j :: 0 <= i < j < |o.calls| ==> o.calls[i] <= o.calls[j])
            && (forall i :: 0 <= i < |o.calls| ==>
                  o.calls[i] == work.args.fromAccountId || o.calls[i] == work.args.toAccountId)
  {
    if env.beginErr.None? {
      var p := work.CheckedTransferWork?;
      if CreatesSucceed(work.faults) {
        UpdateOrder(l, work.args, work.faults, p);
      } else {
        CreateFailureSkipsUpdates(l, work.args, work.faults, p);
      }
    }
  }

  /** Transfers A to B and B to A, from any two ledgers, lock the same first row,
      and when both reach their second update, the same second row: the two can
      never each hold the row the other waits for. */
  lemma OppositeTransfersLockAlike(
    l1: LedgerState, l2: LedgerState, a: int64, b: int64, amount1: int64, amount2: int64,
    faults1: QueryFaults, faults2: QueryFaults, p1: bool, p2: bool)
    requires CreatesSucceed(faults1) && CreatesSucceed(faults2)
    ensures var w1 := TransferWorkOp(l1, TransferTxParams(a, b, amount1), faults1, p1);
            var w2 := TransferWorkOp(l2, TransferTxParams(b, a, amount2), faults2, p2);
            && w1.calls[0] == w2.calls[0]
            && (|w1.calls| == |w2.calls| == 2 ==> w1.calls == w2.calls)
  {
    UpdateOrder(l1, TransferTxParams(a, b, amount1), faults1, p1);
    UpdateOrder(l2, TransferTxParams(b, a, amount2), faults2, p2);
  }

  // ---------------------------------------------------------------------
  // Balances and the result rows
  // ---------------------------------------------------------------------

  /** When both updates go through, `FromAccount` and `ToAccount` are the final
      rows of the sender and the receiver in both branches, the sender is
      debited, the receiver credited, and no other account changes. */
  lemma TransferMovesMoney(l: LedgerState, args: TransferTxParams, faults: QueryFaults, propagate: bool)
    requires CreatesSucceed(faults) && args.fromAccountId != args.toAccountId
    requires UpdatesApply(l, args, faults)
    ensures var w := TransferWorkOp(l, args, faults, propagate);
            && w.err.None? && |w.calls| == 2
            && args.fromAccountId in w.ledger.accounts && args.toAccountId in w.ledger.accounts
            && w.result.fromAccount == w.ledger.accounts[args.fromAccountId]
            && w.result.toAccount == w.ledger.accounts[args.toAccountId]
            && BalanceOf(w.ledger, args.fromAccountId) == BalanceOf(l, args.fromAccountId) + Neg(args.amount) as int
            && BalanceOf(w.ledger, args.toAccountId) == BalanceOf(l, args.toAccountId) + args.amount as int
            && w.ledger.accounts.Keys == l.accounts.Keys
            && (forall id :: id in l.accounts && id != args.fromAccountId && id != args.toAccountId ==>
                  w.ledger.accounts[id] == l.accounts[id])
  {
    TransferRecords(l, args, faults, propagate);
  }

  /** Conservation: for an amount Go can negate, the sender loses exactly what
      the receiver gains, so the sum of the two balances is unchanged. */
  lemma TransferConservesMoney(l: LedgerState, args: TransferTxParams, faults: QueryFaults, propagate: bool)
    requires CreatesSucceed(faults) && args.fromAccountId != args.toAccountId
    requires UpdatesApply(l, args, faults)
    requires args.amount as int != MinInt64
    ensures var w := TransferWorkOp(l, args, faults, propagate);
            && BalanceOf(w.ledger, args.fromAccountId) == BalanceOf(l, args.fromAccountId) - args.amount as int
            && BalanceOf(w.ledger, args.toAccountId) == BalanceOf(l, args.toAccountId) + args.amount as int
            && BalanceOf(w.ledger, args.fromAccountId) + BalanceOf(w.ledger, args.toAccountId)
               == BalanceOf(l, args.fromAccountId) + BalanceOf(l, args.toAccountId)
  {
    TransferMovesMoney(l, args, faults, propagate);
  }

  /** With the error returned, the unit of work succeeds exactly when both
      balance updates go through. */
  lemma CheckedWorkSucceedsIffUpdatesApply(l: LedgerState, args: TransferTxParams, faults: QueryFaults)
    requires CreatesSucceed(faults) && args.fromAccountId != args.toAccountId
    ensures TransferWorkOp(l, args, faults, true).err.None? <==> UpdatesApply(l, args, faults)
  {
    if UpdatesApply(l, args, faults) {
      TransferMovesMoney(l, args, faults, true);
    }
  }

  /** A transfer from an account to itself: both updates hit the same row, the
      balance ends where it started, `FromAccount` is that final row (the
      update issued second) and `ToAccount` the row between the two updates. */
  lemma SelfTransfer(l: LedgerState, args: TransferTxParams, faults: QueryFaults, propagate: bool)
    requires CreatesSucceed(faults) && faults.firstUpdate.None? && faults.secondUpdate.None?
    requires args.fromAccountId == args.toAccountId && args.fromAccountId in l.accounts
    requires InInt64(BalanceOf(l, args.fromAccountId) + args.amount as int)
    requires InInt64(BalanceOf(l, args.fromAccountId) + args.amount as int + Neg(args.amount) as int)
    ensures var w := TransferWorkOp(l, args, faults, propagate);
            var id := args.fromAccountId;
            && w.err.None? && w.calls == [id, id]
            && id in w.ledger.accounts
            && w.result.fromAccount == w.ledger.accounts[id]
            && w.result.toAccount.balance as int == BalanceOf(l, id) + args.amount as int
            && w.result.toAccount.(balance := l.accounts[id].balance) == l.accounts[id]
            && (args.amount as int != MinInt64 ==> w.ledger.accounts == l.accounts)
  {
    TransferRecords(l, args, faults, propagate);
  }

  // ---------------------------------------------------------------------
  // All or nothing
  // ---------------------------------------------------------------------

  /** If creating the transfer or either entry fails, `execTx` rolls back:
      the ledger is as before, no balance update was issued, and the error
      returned is the failing query's, joined with the rollback's if that
      failed too. */
  lemma CreateFailureRollsBack(l: LedgerState, work: UnitOfWork, env: TxEnv)
    requires env.beginErr.None? && !CreatesSucceed(work.faults)
    ensures var o := ExecTxOp(l, work, env);
            var e := if work.faults.createTransfer.Some? then work.faults.createTransfer.value
                     else if work.faults.fromEntry.Some? then work.faults.fromEntry.value
                     else work.faults.toEntry.value;
            && o.ledger == l && o.calls == []
            && o.err == Some(if env.rollbackErr.Some? then TxRbError(e, env.rollbackErr.value) else e)
  {
    CreateFailureSkipsUpdates(l, work.args, work.faults, work.CheckedTransferWork?);
  }

  /** With the fix, a failing first balance update rolls the whole transfer
      back: the ledger is as before, only the smaller account was updated,
      and the error returned is that update's own, joined with the
      rollback's if that failed too. */
  lemma CheckedUpdateFailureRollsBack(l: LedgerState, args: TransferTxParams, faults: QueryFaults, env: TxEnv)
    requires env.beginErr.None? && CreatesSucceed(faults) && faults.firstUpdate.Some?
    ensures var o := CheckedTransferTxOp(l, args, faults, env);
            var e := faults.firstUpdate.value;
            && o.ledger == l
            && o.calls == [MinId(args.fromAccountId, args.toAccountId)]
            && o.err == Some(if env.rollbackErr.Some? then TxRbError(e, env.rollbackErr.value) else e)
  {
  }

  /** As written, once the three rows are created the unit of work reports
      success whatever the balance updates did, so `TransferTx` returns only
      what Commit returns and a durable commit keeps the rows and whatever
      balance changes were made. */
  lemma UpdateErrorNotReported(l: LedgerState, args: TransferTxParams, faults: QueryFaults, env: TxEnv)
    requires env.beginErr.None? && CreatesSucceed(faults)
    ensures var o := TransferTxOp(l, args, faults, env);
            && o.err == CommitErr(env.commit)
            && (Durable(env.commit) ==> o.ledger == TransferWorkOp(l, args, faults, false).ledger)
  {
  }

  /** The code as written commits a half-applied transfer: moving 10 from
      account 1 to an account 2 that does not exist reports success, keeps the
      transfer and both entries, and leaves account 1 debited. */
  lemma HalfAppliedTransferCommits()
    ensures var l := LedgerState(map[1 := Account(1, "alice", 100, "ZAR")], [], []);
            var args := TransferTxParams(1, 2, 10);
            var o := TransferTxOp(l, args, NoFaults, CleanEnv);
            && o.err.None?
            && o.calls == [1, 2]
            && BalanceOf(o.ledger, 1) == 90
            && 2 !in o.ledger.accounts
            && |o.ledger.transfers| == 1 && |o.ledger.entries| == 2
            && o.ledger != l && !Applied(l, args, o.ledger)
  {
    var l := LedgerState(map[1 := Account(1, "alice", 100, "ZAR")], [], []);
    var args := TransferTxParams(1, 2, 10);
    var w := TransferWorkOp(l, args, NoFaults, false);
    TransferRecords(l, args, NoFaults, false);
    assert w.calls == [1, 2];
    assert |w.ledger.transfers| == 1;
  }

  /** The corrected transaction is all or nothing: the ledger afterwards is
      either the one before or the one with the whole transfer applied, the
      latter on every success, and only a durable commit keeps it beside an
      error. */
  lemma CheckedTransferAllOrNothing(l: LedgerState, args: TransferTxParams, faults: QueryFaults, env: TxEnv)
    requires WellFormed(l) && args.amount as int != MinInt64
    ensures var o := CheckedTransferTxOp(l, args, faults, env);
            && (o.ledger == l || Applied(l, args, o.ledger))
            && (o.err.None? ==> Applied(l, args, o.ledger))
            && (o.ledger != l ==> Durable(env.commit))
  {
    var w := TransferWorkOp(l, args, faults, true);
    if env.beginErr.None? && w.err.None? {
      TransferRecords(l, args, faults, true);
      if args.fromAccountId != args.toAccountId {
        CheckedWorkSucceedsIffUpdatesApply(l, args, faults);
        TransferMovesMoney(l, args, faults, true);
      } else {
        SelfTransferApplied(l, args, faults);
      }
    }
  }

  /** The same-account case of CheckedTransferAllOrNothing: the two updates of
      one row cancel out. */
  lemma SelfTransferApplied(l: LedgerState, args: TransferTxParams, faults: QueryFaults)
    requires WellFormed(l) && args.amount as int != MinInt64
    requires CreatesSucceed(faults) && args.fromAccountId == args.toAccountId
    requires TransferWorkOp(l, args, faults, true).err.None?
    ensures Applied(l, args, TransferWorkOp(l, args, faults, true).ledger)
  {
    TransferRecords(l, args, faults, true);
  }

  /** The fix changes nothing on the path where both updates go through. */
  lemma CheckedAgreesWhenUpdatesApply(l: LedgerState, args: TransferTxParams, faults: QueryFaults, env: TxEnv)
    requires CreatesSucceed(faults) && args.fromAccountId != args.toAccountId
    requires UpdatesApply(l, args, faults)
    ensures CheckedTransferTxOp(l, args, faults, env) == TransferTxOp(l, args, faults, env)
  {
    TransferMovesMoney(l, args, faults, false);
    TransferMovesMoney(l, args, faults, true);
  }

  // ---------------------------------------------------------------------
  // Transfers one after another
  // ---------------------------------------------------------------------

  /** A transfer with no query failing and a transaction that begins and commits. */
  function CleanTransfer(l: LedgerState, args: TransferTxParams): LedgerState {
    TransferTxOp(l, args, NoFaults, CleanEnv).ledger
  }

  /** `n` transfers of the same arguments, each run to completion before the next. */
  function Repeated(l: LedgerState, args: TransferTxParams, n: nat): LedgerState {
    if n == 0 then l else CleanTransfer(Repeated(l, args, n - 1), args)
  }

  /** One transfer that can go through, on a clean transaction. */
  lemma CleanTransferStep(l: LedgerState, args: TransferTxParams)
    requires WellFormed(l) && args.fromAccountId != args.toAccountId
    requires UpdatesApply(l, args, NoFaults) && args.amount as int != MinInt64
    ensures var r := CleanTransfer(l, args);
            && WellFormed(r) && r.accounts.Keys == l.accounts.Keys
            && BalanceOf(r, args.fromAccountId) == BalanceOf(l, args.fromAccountId) - args.amount as int
            && BalanceOf(r, args.toAccountId) == BalanceOf(l, args.toAccountId) + args.amount as int
            && |r.transfers| == |l.transfers| + 1
            && |r.entries| == |l.entries| + 2
  {
    TransferRecords(l, args, NoFaults, false);
    TransferConservesMoney(l, args, NoFaults, false);
  }

  /** The arithmetic step of RepeatedTransfers, kept apart from the ledger reasoning. */
  lemma MulStep(n: nat, amount: int)
    requires n > 0 && amount > 0
    ensures (n - 1) * amount == n * amount - amount
    ensures 0 <= (n - 1) * amount
  {
    assert n * amount == (n - 1) * amount + amount;
  }

  /** Run one after another with room in both balances, `n` transfers move
      `n * amount` and leave `n` transfer rows and `2 * n` entries: the end
      state that concurrent transfers must reproduce in some serial order. */
  lemma {:induction false} RepeatedTransfers(l: LedgerState, args: TransferTxParams, n: nat)
    requires WellFormed(l) && args.fromAccountId != args.toAccountId
    requires args.fromAccountId in l.accounts && args.toAccountId in l.accounts
    requires args.amount > 0
    requires BalanceOf(l, args.fromAccountId) - n * args.amount as int >= MinInt64
    requires BalanceOf(l, args.toAccountId) + n * args.amount as int <= MaxInt64
    ensures var r := Repeated(l, args, n);
            && WellFormed(r) && r.accounts.Keys == l.accounts.Keys
            && BalanceOf(r, args.fromAccountId) == BalanceOf(l, args.fromAccountId) - n * args.amount as int
            && BalanceOf(r, args.toAccountId) == BalanceOf(l, args.toAccountId) + n * args.amount as int
            && |r.transfers| == |l.transfers| + n
            && |r.entries| == |l.entries| + 2 * n
  {
    if n > 0 {
      var amount := args.amount as int;
      MulStep(n, amount);
      RepeatedTransfers(l, args, n - 1);
      var prev := Repeated(l, args, n - 1);
      CleanTransferStep(prev, args);
    }
  }
}
