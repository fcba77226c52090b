/** CoinProxy.sol: where money comes from and goes to.  What the contract owes in a
    token moves by deposits, by what withdrawals take out and rollbacks give back,
    and by the cast imbalance of settlements; and by nothing else. */
module CoinProxyMoney {
  import opened Wrappers
  import opened SolidityLedger
  import opened CoinProxyModel
  import opened CoinProxyTheorems

  /** What a withdrawal takes out of the ledger in token `t`.  Its fee stays with
      the fee account; in native currency it is part of the amount, and nothing
      keeps it from being the larger of the two. */
  function Leaves(w: Withdrawal, t: Address): int {
    if t != w.token then 0 else if t == NATIVE then w.amount - w.fee else w.amount
  }

  function LeavesAll(ws: seq<Withdrawal>, t: Address): int {
    if ws == [] then 0 else Leaves(ws[0], t) + LeavesAll(ws[1..], t)
  }

  function DepositedIn(ds: seq<Deposit>, t: Address): nat {
    if ds == [] then 0 else (if ds[0].token == t then ds[0].amount else 0) + DepositedIn(ds[1..], t)
  }

  // ---------------------------------------------------------------------------
  // Deposits, withdrawals and their rollback
  // ---------------------------------------------------------------------------

  lemma AddOwed(b: Ledger, wallet: Address, token: Address, amount: Uint256, t: Address)
    requires Add(b, wallet, token, amount).Some?
    ensures Owed(Add(b, wallet, token, amount).value, t) == Owed(b, t) + (if t == token then amount else 0)
  {
    OwedAfterStore(b, wallet, token, BalanceOf(b, wallet, token) + amount, t);
  }

  lemma SubOwed(b: Ledger, wallet: Address, token: Address, amount: Uint256, t: Address)
    requires Sub(b, wallet, token, amount).Some?
    ensures Owed(Sub(b, wallet, token, amount).value, t) == Owed(b, t) - (if t == token then amount else 0)
  {
    OwedAfterStore(b, wallet, token, BalanceOf(b, wallet, token) - amount, t);
  }

  lemma {:induction false} CreditAllOwed(b: Ledger, ds: seq<Deposit>, t: Address)
    requires CreditAll(b, ds).Some?
    ensures Owed(CreditAll(b, ds).value, t) == Owed(b, t) + DepositedIn(ds, t)
    decreases |ds|
  {
    if ds != [] {
      var d := ds[0];
      AddOwed(b, d.sender, d.token, d.amount, t);
      CreditAllOwed(Add(b, d.sender, d.token, d.amount).value, ds[1..], t);
    }
  }

  lemma ChargeOwed(b: Ledger, feeAccount: Address, w: Withdrawal, t: Address)
    requires Covered(b, w) && Charge(b, feeAccount, w).Some?
    ensures Owed(Charge(b, feeAccount, w).value, t) == Owed(b, t) - Leaves(w, t)
  {
    var b1 := b;
    if w.fee > 0 && w.token != NATIVE {
      b1 := Sub(b, w.sender, NATIVE, w.fee).value;
      SubOwed(b, w.sender, NATIVE, w.fee, t);
    }
    SubOwed(b1, w.sender, w.token, w.amount, t);
    AddOwed(Sub(b1, w.sender, w.token, w.amount).value, feeAccount, NATIVE, w.fee, t);
  }

  /** The withdrawals of a batch take out what those that succeeded take out. */
  lemma {:induction false} ChargeAllOwed(b: Ledger, feeAccount: Address, ws: seq<Withdrawal>, t: Address)
    requires ChargeAll(b, feeAccount, ws).Some?
    ensures Owed(ChargeAll(b, feeAccount, ws).value, t) == Owed(b, t) - LeavesAll(Succeeded(b, feeAccount, ws), t)
    decreases |ws|
  {
    if ws != [] {
      var b' := Charge(b, feeAccount, ws[0]).value;
      ChargeAllOwed(b', feeAccount, ws[1..], t);
      if Covered(b, ws[0]) {
        ChargeOwed(b, feeAccount, ws[0], t);
        assert Succeeded(b, feeAccount, ws)[1..] == Succeeded(b', feeAccount, ws[1..]);
      } else {
        assert Succeeded(b, feeAccount, ws) == Succeeded(b', feeAccount, ws[1..]);
      }
    }
  }

  lemma UndoOwed(c: Ledger, feeAccount: Address, w: Withdrawal, t: Address)
    requires Undo(c, feeAccount, w).Some?
    ensures Owed(Undo(c, feeAccount, w).value, t) == Owed(c, t) + Leaves(w, t)
  {
    var c1 := Add(c, w.sender, w.token, w.amount).value;
    AddOwed(c, w.sender, w.token, w.amount, t);
    if w.fee > 0 && w.token != NATIVE {
      AddOwed(c1, w.sender, NATIVE, w.fee, t);
      c1 := Add(c1, w.sender, NATIVE, w.fee).value;
    }
    SubOwed(c1, feeAccount, NATIVE, w.fee, t);
  }

  /** A rollback puts back what its entries took out, whether they did or not. */
  lemma {:induction false} UndoAllOwed(c: Ledger, feeAccount: Address, us: seq<Withdrawal>, t: Address)
    requires UndoAll(c, feeAccount, us).Some?
    ensures Owed(UndoAll(c, feeAccount, us).value, t) == Owed(c, t) + LeavesAll(us, t)
    decreases |us|
  {
    if us != [] {
      UndoOwed(c, feeAccount, us[0], t);
      UndoAllOwed(Undo(c, feeAccount, us[0]).value, feeAccount, us[1..], t);
    }
  }

  // ---------------------------------------------------------------------------
  // Exactly when a withdrawal or a rollback creates money
  // ---------------------------------------------------------------------------

  /** A withdrawal that is covered, and goes through, leaves the contract owing more
      of a token than before if and only if it is in native currency, that is the
      token, and the fee exceeds the amount. */
  lemma WithdrawalMintsIff(b: Ledger, feeAccount: Address, w: Withdrawal, t: Address)
    requires Covered(b, w) && Charge(b, feeAccount, w).Some?
    ensures Owed(Charge(b, feeAccount, w).value, t) > Owed(b, t) <==> t == w.token == NATIVE && w.fee > w.amount
  {
    ChargeOwed(b, feeAccount, w, t);
  }

  /** A rollback transaction that goes through moves what the contract owes of a
      token if and only if its entries do not add up to nothing in that token, and
      creates money if and only if they add up to more. */
  lemma RollbackMintsIff(abi: Abi, s: State, rollback: Tx, t: Address)
    requires rollback.call.RollbackWithdrawalBatch? && Perform(abi, s, rollback).Some?
    ensures var us := abi.rollback(rollback.call.data).value; var after := Step(abi, s, rollback);
            && (Owed(after.balances, t) == Owed(s.balances, t) <==> LeavesAll(us, t) == 0)
            && (Owed(after.balances, t) > Owed(s.balances, t) <==> LeavesAll(us, t) > 0)
  {
    UndoAllOwed(s.balances, s.feeAccount, abi.rollback(rollback.call.data).value, t);
  }

  lemma {:induction false} LeavesSplit(us: seq<Withdrawal>, vs: seq<Withdrawal>, t: Address)
    ensures LeavesAll(us + vs, t) == LeavesAll(us, t) + LeavesAll(vs, t)
  {
    if us == [] {
      assert us + vs == vs;
    } else {
      assert (us + vs)[1..] == us[1..] + vs;
      LeavesSplit(us[1..], vs, t);
    }
  }

  lemma {:induction false} LeavesOfPermutation(us: seq<Withdrawal>, vs: seq<Withdrawal>, t: Address)
    requires multiset(us) == multiset(vs)
    ensures LeavesAll(us, t) == LeavesAll(vs, t)
  {
    if us == [] {
      assert |vs| == |multiset(vs)| == 0;
    } else {
      var i := FirstOfPermutation(us, vs);
      assert vs == vs[..i] + vs[i..] && vs[i..][1..] == vs[i + 1..];
      LeavesSplit(vs[..i], vs[i..], t);
      LeavesSplit(vs[..i], vs[i + 1..], t);
      LeavesOfPermutation(us[1..], vs[..i] + vs[i + 1..], t);
    }
  }

  // ---------------------------------------------------------------------------
  // Every transaction and every run
  // ---------------------------------------------------------------------------

  /** What one transaction deposits, takes out, gives back, and mints by the int256
      cast, in token `t`. */
  datatype Flow = Flow(deposited: nat, takenOut: int, givenBack: int, castMinted: int) {
    function Plus(f: Flow): Flow {
      Flow(deposited + f.deposited, takenOut + f.takenOut, givenBack + f.givenBack, castMinted + f.castMinted)
    }

    function Net(): int {
      deposited - takenOut + givenBack + U256 * castMinted
    }
  }

  const NO_FLOW: Flow := Flow(0, 0, 0, 0)

  function FlowOf(abi: Abi, s: State, tx: Tx, t: Address): Flow {
    if Perform(abi, s, tx).None? then NO_FLOW else
    match tx.call
    case SubmitDepositAndWithdrawalBatch(_) =>
      Flow(DepositedIn(MoneyOf(abi, tx).deposits, t), LeavesAll(Withdrawn(abi, s, tx), t), 0, 0)
    case RollbackWithdrawalBatch(data) => Flow(0, 0, LeavesAll(abi.rollback(data).value, t), 0)
    case SubmitSettlementBatch(data) => Flow(0, 0, 0, TokenImbalance(abi.batch(data).value.lists, t))
    case _ => NO_FLOW
  }

  function RunFlow(abi: Abi, s: State, txs: seq<Tx>, t: Address): Flow {
    if txs == [] then NO_FLOW else
    var front := txs[..|txs| - 1];
    RunFlow(abi, s, front, t).Plus(FlowOf(abi, Run(abi, s, front), txs[|txs| - 1], t))
  }

  lemma StepOwed(abi: Abi, s: State, tx: Tx, t: Address)
    requires PendingNets(abi.batch, s.batchHash)
    ensures PendingNets(abi.batch, Step(abi, s, tx).batchHash)
    ensures Owed(Step(abi, s, tx).balances, t) == Owed(s.balances, t) + FlowOf(abi, s, tx, t).Net()
  {
    if Perform(abi, s, tx).Some? {
      match tx.call
      case SubmitDepositAndWithdrawalBatch(data) =>
        CreditAllOwed(s.balances, MoneyOf(abi, tx).deposits, t);
        ChargeAllOwed(WithDeposits(abi, s, tx), s.feeAccount, MoneyOf(abi, tx).withdrawals, t);
      case RollbackWithdrawalBatch(data) =>
        UndoAllOwed(s.balances, s.feeAccount, abi.rollback(data).value, t);
      case PrepareSettlementBatch(data) =>
        var batch := abi.batch(data).value;
        VerifiedNets(s.balances, batch.wallets, true, batch.lists);
      case SubmitSettlementBatch(data) =>
        var batch := abi.batch(data).value;
        ListsOwed(s.balances, batch.wallets, s.feeAccount, batch.lists, t);
      case _ =>
    }
  }

  /** The ledger identity of any run whatsoever: what the contract owes of a token
      is what it owed, and what was deposited, less what withdrawals took out, and
      what rollbacks gave back, and 2^256 for each unit of cast imbalance. */
  lemma {:induction false} RunOwed(abi: Abi, s: State, txs: seq<Tx>, t: Address)
    requires PendingNets(abi.batch, s.batchHash)
    ensures PendingNets(abi.batch, Run(abi, s, txs).batchHash)
    ensures Owed(Run(abi, s, txs).balances, t) == Owed(s.balances, t) + RunFlow(abi, s, txs, t).Net()
  {
    if txs != [] {
      var front := txs[..|txs| - 1];
      RunOwed(abi, s, front, t);
      StepOwed(abi, Run(abi, s, front), txs[|txs| - 1], t);
    }
  }

  /** From a new contract on, it owes exactly what was deposited and not taken out
      again if and only if rollbacks and casts, together, put in nothing. */
  lemma BackedIff(abi: Abi, submitter: Address, feeAccount: Address, owner: Address, txs: seq<Tx>, t: Address)
    ensures var s0 := Fresh(submitter, feeAccount, owner); var f := RunFlow(abi, s0, txs, t);
            Owed(Run(abi, s0, txs).balances, t) == f.deposited - f.takenOut
            <==> f.givenBack + U256 * f.castMinted == 0
  {
    RunOwed(abi, Fresh(submitter, feeAccount, owner), txs, t);
  }

  /** A rollback that matches its batch creates no money, in whatever order, and
      whoever the fee account is by then: batch, deposits and rollback together
      leave the contract owing what it did before, plus all deposits. */
  lemma MatchedRollbackConserves(abi: Abi, s: State, batch: Tx, txs: seq<Tx>, rollback: Tx, t: Address)
    requires SubmitsMoney(abi, s, batch) && PendingNets(abi.batch, s.batchHash)
    requires RollsBack(abi, s, batch, rollback) && Perform(abi, Run(abi, Step(abi, s, batch), txs), rollback).Some?
    ensures var s1 := Step(abi, s, batch);
            Owed(Step(abi, Run(abi, s1, txs), rollback).balances, t)
            == Owed(s.balances, t) + DepositedIn(MoneyOf(abi, batch).deposits, t) + RunFlow(abi, s1, txs, t).Net()
  {
    var s1 := Step(abi, s, batch);
    StepOwed(abi, s, batch, t);
    RunOwed(abi, s1, txs, t);
    StepOwed(abi, Run(abi, s1, txs), rollback, t);
    LeavesOfPermutation(abi.rollback(rollback.call.data).value, Withdrawn(abi, s, batch), t);
  }

  // ---------------------------------------------------------------------------
  // Where money is created
  // ---------------------------------------------------------------------------

  lemma OverchargedOne()
    ensures var w := Withdrawal(1, NATIVE, 1, 100); var b: Ledger := map[(1, NATIVE) := 1];
            && ChargeAll(b, 2, [w]) == Some(map[(1, NATIVE) := 0, (2, NATIVE) := 100])
            && Succeeded(b, 2, [w]) == [w]
  {
    var w := Withdrawal(1, NATIVE, 1, 100);
    var b: Ledger := map[(1, NATIVE) := 1];
    var b1: Ledger := map[(1, NATIVE) := 0, (2, NATIVE) := 100];
    assert b[(1, NATIVE) := 0][(2, NATIVE) := 100] == b1 && [w][1..] == [];
    assert Charge(b, 2, w) == Some(b1);
    assert ChargeAll(b, 2, [w]) == ChargeAll(b1, 2, []) && Succeeded(b, 2, [w]) == [w] + Succeeded(b1, 2, []);
  }

  /** One transaction to a new contract after which it owes 100: wallet 1 deposits 1
      and withdraws it with a fee of 100. */
  lemma FeeAboveAmountMints()
    ensures var w := Withdrawal(1, NATIVE, 1, 100); var abi := Decoding(MoneyBatch([Deposit(1, NATIVE, 1)], [w]), []);
            var s, batch := Fresh(7, 2, 9), Tx(7, SubmitDepositAndWithdrawalBatch([]));
            && SubmitsMoney(abi, s, batch) && Withdrawn(abi, s, batch) == [w]
            && Owed(Step(abi, s, batch).balances, NATIVE) == 100
  {
    var b1: Ledger := map[(1, NATIVE) := 0];
    var b2: Ledger := map[(1, NATIVE) := 0, (2, NATIVE) := 100];
    var m := MoneyBatch([Deposit(1, NATIVE, 1)], [Withdrawal(1, NATIVE, 1, 100)]);
    OneCredit(map[], Deposit(1, NATIVE, 1), []);
    assert [Deposit(1, NATIVE, 1)] + [] == [Deposit(1, NATIVE, 1)];
    OverchargedOne();
    BatchGoesThrough(Fresh(7, 2, 9), m, [], map[(1, NATIVE) := 1], b2);
    OwedAfterStore(map[], 1, NATIVE, 0, NATIVE);
    OwedAfterStore(b1, 2, NATIVE, 100, NATIVE);
    assert b1[(2, NATIVE) := 100] == b2;
  }

  /** The contract keeps no record of what it may roll back: undoing a withdrawal
      that was never made credits money that nobody was charged. */
  lemma UnmatchedRollbackMints()
    ensures var abi := Decoding(MoneyBatch([], []), [Withdrawal(1, NATIVE, 5, 0)]);
            var s, rollback := Fresh(7, 2, 9), Tx(7, RollbackWithdrawalBatch([]));
            && Perform(abi, s, rollback).Some? && Owed(s.balances, NATIVE) == 0
            && Owed(Step(abi, s, rollback).balances, NATIVE) == 5
  {
    var w := Withdrawal(1, NATIVE, 5, 0);
    var b1: Ledger := map[(1, NATIVE) := 5];
    var b2: Ledger := map[(1, NATIVE) := 5, (2, NATIVE) := 0];
    assert [w][1..] == [] && UndoAll(b2, 2, []) == Some(b2);
    assert Undo(map[], 2, w) == Some(b2) by {
      assert b1[(2, NATIVE) := 0] == b2;
    }
    assert UndoAll(map[], 2, [w]) == UndoAll(b2, 2, [w][1..]);
    OwedAfterStore(map[], 1, NATIVE, 5, NATIVE);
    OwedAfterStore(b1, 2, NATIVE, 0, NATIVE);
  }
}
