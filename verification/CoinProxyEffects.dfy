/** What each transaction of CoinProxy.sol does to every balance and to the rest of the
    storage, and exactly when it goes through. */
module CoinProxyEffects {
  import opened Wrappers
  import opened SolidityLedger
  import opened SolidityEffects
  import opened CoinProxyModel
  import opened CoinProxyTheorems

  // ---------------------------------------------------------------------------
  // Withdrawals and their rollback
  // ---------------------------------------------------------------------------

  /** A withdrawal is reported and left out when its amount, or a separate fee, is more
      than the sender has. */
  predicate LeftOut(b: Ledger, w: Withdrawal) {
    w.amount > At(b, (w.sender, w.token)) || (w.token != NATIVE && w.fee > At(b, (w.sender, NATIVE)))
  }

  /** What is left out changes nothing; any other withdrawal reverts only if the fee
      account overflows, and takes amount and fee from the sender and gives the fee to
      the fee account. */
  lemma ChargeEffect(b: Ledger, feeAccount: Address, w: Withdrawal)
    ensures var r, native := Charge(b, feeAccount, w), (feeAccount, NATIVE);
            if LeftOut(b, w) then r == Some(b) else
            && (r.Some? <==> At(b, native) - Taken(w, native) + w.fee < U256)
            && (r.Some? ==> forall k: Slot ::
                  At(r.value, k) == At(b, k) - Taken(w, k) + if k == native then w.fee else 0)
  {
    ChargeGoesIff(b, feeAccount, w);
    if !LeftOut(b, w) && Charge(b, feeAccount, w).Some? {
      forall k: Slot
        ensures At(Charge(b, feeAccount, w).value, k)
             == At(b, k) - Taken(w, k) + if k == (feeAccount, NATIVE) then w.fee else 0
      {
        ChargeSlot(b, feeAccount, w, k);
        OneFee(w);
      }
    }
  }

  lemma ChargeGoesIff(b: Ledger, feeAccount: Address, w: Withdrawal)
    ensures LeftOut(b, w) ==> Charge(b, feeAccount, w) == Some(b)
    ensures !LeftOut(b, w) ==>
              (Charge(b, feeAccount, w).Some?
               <==> At(b, (feeAccount, NATIVE)) - Taken(w, (feeAccount, NATIVE)) + w.fee < U256)
  {
  }

  /** The withdrawals that are not left out, each judged by the balances before it. */
  function NotLeftOut(bs: seq<Ledger>, ws: seq<Withdrawal>): seq<Withdrawal>
    requires |bs| == |ws| + 1
  {
    if ws == [] then [] else (if LeftOut(bs[0], ws[0]) then [] else [ws[0]]) + NotLeftOut(bs[1..], ws[1..])
  }

  /** A batch is its withdrawals, one after the other, and reports those as succeeded
      that are not left out. */
  lemma {:induction false} ChargeEach(b: Ledger, feeAccount: Address, ws: seq<Withdrawal>) returns (bs: seq<Ledger>)
    requires ChargeAll(b, feeAccount, ws).Some?
    ensures |bs| == |ws| + 1 && bs[0] == b && bs[|ws|] == ChargeAll(b, feeAccount, ws).value
    ensures forall i | 0 <= i < |ws| :: Charge(bs[i], feeAccount, ws[i]) == Some(bs[i + 1])
    ensures Succeeded(b, feeAccount, ws) == NotLeftOut(bs, ws)
    decreases |ws|
  {
    bs := [b];
    if ws != [] {
      var rest := ChargeEach(Charge(b, feeAccount, ws[0]).value, feeAccount, ws[1..]);
      bs := [b] + rest;
      assert bs[1..] == rest;
      ChargeGoesIff(b, feeAccount, ws[0]);
    }
  }

  /** And one that does not go through is stopped by a withdrawal. */
  lemma {:induction false} ChargeStops(b: Ledger, feeAccount: Address, ws: seq<Withdrawal>) returns (n: nat)
    requires ChargeAll(b, feeAccount, ws).None?
    ensures n < |ws| && ChargeAll(b, feeAccount, ws[..n]).Some?
    ensures Charge(ChargeAll(b, feeAccount, ws[..n]).value, feeAccount, ws[n]).None?
    decreases |ws|
  {
    n := 0;
    if Charge(b, feeAccount, ws[0]).Some? {
      n := ChargeStops(Charge(b, feeAccount, ws[0]).value, feeAccount, ws[1..]);
      n := n + 1;
      assert ws[..n][1..] == ws[1..][..n - 1];
    }
  }

  /** One undo goes through if and only if what it gives back fits, and the fee is there
      then; UndoSlot says what it does. */
  lemma UndoGoesIff(c: Ledger, feeAccount: Address, w: Withdrawal)
    ensures var native := (feeAccount, NATIVE);
            Undo(c, feeAccount, w).Some?
            <==> && At(c, (w.sender, w.token)) + w.amount < U256
                 && (w.token != NATIVE ==> At(c, (w.sender, NATIVE)) + w.fee < U256)
                 && w.fee <= At(c, native) + Taken(w, native)
  {
  }

  /** A rollback is its entries, one after the other. */
  lemma {:induction false} UndoEach(c: Ledger, feeAccount: Address, us: seq<Withdrawal>) returns (cs: seq<Ledger>)
    requires UndoAll(c, feeAccount, us).Some?
    ensures |cs| == |us| + 1 && cs[0] == c && cs[|us|] == UndoAll(c, feeAccount, us).value
    ensures forall i | 0 <= i < |us| :: Undo(cs[i], feeAccount, us[i]) == Some(cs[i + 1])
    decreases |us|
  {
    cs := [c];
    if us != [] {
      var rest := UndoEach(Undo(c, feeAccount, us[0]).value, feeAccount, us[1..]);
      cs := [c] + rest;
    }
  }

  /** Deposits go through if and only if every balance has room for all of them. */
  lemma {:induction false} CreditAllIff(b: Ledger, ds: seq<Deposit>)
    ensures CreditAll(b, ds).Some? <==> forall k: Slot :: At(b, k) + Deposited(ds, k) < U256
    decreases |ds|
  {
    if ds != [] {
      var d, r := ds[0], Add(b, ds[0].sender, ds[0].token, ds[0].amount);
      if r.Some? {
        CreditAllIff(r.value, ds[1..]);
        assert forall k: Slot :: At(r.value, k) == At(b, k) + if k == (d.sender, d.token) then d.amount else 0;
        if forall k: Slot :: At(r.value, k) + Deposited(ds[1..], k) < U256 {
          forall k: Slot ensures At(b, k) + Deposited(ds, k) < U256 {
            assert At(r.value, k) + Deposited(ds[1..], k) < U256;
          }
        }
        if forall k: Slot :: At(b, k) + Deposited(ds, k) < U256 {
          forall k: Slot ensures At(r.value, k) + Deposited(ds[1..], k) < U256 {
            assert At(b, k) + Deposited(ds, k) < U256;
          }
        }
      } else {
        assert At(b, (d.sender, d.token)) + Deposited(ds, (d.sender, d.token)) >= U256;
      }
    }
  }

  // ---------------------------------------------------------------------------
  // Transactions
  // ---------------------------------------------------------------------------

  /** A transaction goes through if and only if `allowed`, and then leaves `s'`. */
  predicate Does(abi: Abi, s: State, tx: Tx, allowed: bool, s': State) {
    (Perform(abi, s, tx).Some? <==> allowed) && Step(abi, s, tx) == if allowed then s' else s
  }

  /** Roles are set by the owner alone, and a prepared batch is given up by the
      submitter alone. */
  lemma RoleEffect(abi: Abi, s: State, tx: Tx)
    ensures tx.call.SetSubmitter? ==>
              Does(abi, s, tx, tx.sender == s.owner && tx.call.account != 0, s.(submitter := tx.call.account))
    ensures tx.call.SetFeeAccount? ==>
              Does(abi, s, tx, tx.sender == s.owner && tx.call.account != 0, s.(feeAccount := tx.call.account))
    ensures tx.call.RollbackBatch? ==> Does(abi, s, tx, tx.sender == s.submitter, s.(batchHash := Zero))
  {
  }

  /** Exactly when a batch of deposits and withdrawals goes through. */
  lemma MoneyGoesIff(abi: Abi, s: State, tx: Tx)
    requires tx.call.SubmitDepositAndWithdrawalBatch?
    ensures Perform(abi, s, tx).Some?
        <==> && tx.sender == s.submitter && s.batchHash == Zero
             && s.lastDepositAndWithdrawBatchHash != Keccak(tx.call.data) && abi.money(tx.call.data).Some?
             && var m := abi.money(tx.call.data).value;
                && (m.deposits != [] || m.withdrawals != [])
                && (forall k: Slot :: At(s.balances, k) + Deposited(m.deposits, k) < U256)
                && (CreditAll(s.balances, m.deposits).Some? ==>
                      ChargeAll(CreditAll(s.balances, m.deposits).value, s.feeAccount, m.withdrawals).Some?)
  {
    if abi.money(tx.call.data).Some? {
      CreditAllIff(s.balances, abi.money(tx.call.data).value.deposits);
    }
  }

  /** And what it does: every balance moves by its deposits, by what the succeeded
      withdrawals take from it, and by their fees. */
  lemma MoneyEffect(abi: Abi, s: State, tx: Tx, k: Slot)
    requires SubmitsMoney(abi, s, tx)
    ensures var done := Withdrawn(abi, s, tx);
            At(Step(abi, s, tx).balances, k) + TakenBy(done, k)
            == At(s.balances, k) + Deposited(MoneyOf(abi, tx).deposits, k)
               + if k == (s.feeAccount, NATIVE) then Fees(done) else 0
    ensures Step(abi, s, tx) == s.(balances := Step(abi, s, tx).balances,
                                   lastDepositAndWithdrawBatchHash := Keccak(tx.call.data))
  {
    CreditAllSlot(s.balances, MoneyOf(abi, tx).deposits, k);
    ChargeAllSlot(WithDeposits(abi, s, tx), s.feeAccount, MoneyOf(abi, tx).withdrawals, k);
  }

  /** A rollback, by the submitter alone, gives back what its entries name and takes
      their fees from the fee account. */
  lemma RollbackEffect(abi: Abi, s: State, tx: Tx, k: Slot)
    requires tx.call.RollbackWithdrawalBatch? && abi.rollback(tx.call.data).Some?
    ensures var us := abi.rollback(tx.call.data).value;
            && (Perform(abi, s, tx).Some? <==> tx.sender == s.submitter && UndoAll(s.balances, s.feeAccount, us).Some?)
            && (Perform(abi, s, tx).Some? ==>
                  && Step(abi, s, tx) == s.(balances := Step(abi, s, tx).balances)
                  && At(Step(abi, s, tx).balances, k) + (if k == (s.feeAccount, NATIVE) then Fees(us) else 0)
                     == At(s.balances, k) + TakenBy(us, k))
  {
    var us := abi.rollback(tx.call.data).value;
    if UndoAll(s.balances, s.feeAccount, us).Some? {
      UndoAllSlot(s.balances, s.feeAccount, us, k);
    }
  }

  /** Exactly when a batch can be prepared, and what that does: its hash is stored if
      and only if every decrement is covered, and nothing else changes. */
  lemma PrepareEffect(abi: Abi, s: State, tx: Tx)
    requires tx.call.PrepareSettlementBatch?
    ensures Perform(abi, s, tx).Some?
        <==> && tx.sender == s.submitter && s.batchHash == Zero && abi.batch(tx.call.data).Some?
             && Verify(s.balances, abi.batch(tx.call.data).value).Some?
    ensures Perform(abi, s, tx).Some? ==>
              && (Step(abi, s, tx).batchHash == Keccak(tx.call.data)
                  <==> AllCovered(s.balances, abi.batch(tx.call.data).value))
              && (Step(abi, s, tx).batchHash == Zero <==> !AllCovered(s.balances, abi.batch(tx.call.data).value))
              && Step(abi, s, tx) == s.(batchHash := Step(abi, s, tx).batchHash)
  {
    if abi.batch(tx.call.data).Some? {
      VerifyIff(s.balances, abi.batch(tx.call.data).value);
    }
  }

  /** Exactly when the stored batch can be submitted, and what that does to every
      balance: its credits and debits, and the hash moves on. */
  lemma SubmitEffect(abi: Abi, s: State, tx: Tx)
    requires tx.call.SubmitSettlementBatch? && abi.batch(tx.call.data).Some?
    ensures var batch := abi.batch(tx.call.data).value;
            var ms := BatchMoves(batch.wallets, s.feeAccount, batch.lists);
            && (Perform(abi, s, tx).Some? <==>
                && tx.sender == s.submitter && s.batchHash == Keccak(tx.call.data)
                && AllListed(batch.wallets, batch.lists) && batch.tradeLists <= |batch.wallets|
                && RunningFits(k => At(s.balances, k), ms))
            && (Perform(abi, s, tx).Some? ==>
                && (forall k: Slot ::
                      At(Step(abi, s, tx).balances, k) + DebitsTo(ms, k) == At(s.balances, k) + CreditsTo(ms, k))
                && Step(abi, s, tx) == s.(balances := Step(abi, s, tx).balances, batchHash := Zero,
                                          lastSettlementBatchHash := Keccak(tx.call.data)))
  {
    var batch := abi.batch(tx.call.data).value;
    ApplyIff(s.balances, s.feeAccount, batch);
    if Perform(abi, s, tx).Some? {
      forall k: Slot
        ensures var ms := BatchMoves(batch.wallets, s.feeAccount, batch.lists);
                At(Step(abi, s, tx).balances, k) + DebitsTo(ms, k) == At(s.balances, k) + CreditsTo(ms, k)
      {
        ApplySlot(s.balances, s.feeAccount, batch, k);
      }
    }
  }

  /** A prepared batch, after any run: while its hash is stored it can be submitted,
      if it debits no slot twice, none of these balances has fallen since, it names
      listed wallets and there is room for what it credits. */
  lemma PreparedSubmits(abi: Abi, s: State, prep: Tx, txs: seq<Tx>, submit: Tx)
    requires prep.call.PrepareSettlementBatch? && Perform(abi, s, prep).Some?
    requires submit.call.SubmitSettlementBatch? && submit.call.data == prep.call.data
    requires AllCovered(s.balances, abi.batch(prep.call.data).value)
    requires var w := Run(abi, Step(abi, s, prep), txs); var batch := abi.batch(prep.call.data).value;
             var ms := BatchMoves(batch.wallets, w.feeAccount, batch.lists);
             && w.batchHash == Keccak(prep.call.data) && submit.sender == w.submitter
             && AllListed(batch.wallets, batch.lists) && DebitsDistinct(ms)
             && (forall m | m in ms && !m.credit :: At(s.balances, m.slot) <= At(w.balances, m.slot))
             && forall k: Slot :: At(w.balances, k) + CreditsTo(ms, k) < U256
    ensures Perform(abi, Run(abi, Step(abi, s, prep), txs), submit).Some?
  {
    var w, batch := Run(abi, Step(abi, s, prep), txs), abi.batch(prep.call.data).value;
    VerifyIff(s.balances, batch);
    CheckedApplies(s.balances, w.balances, w.feeAccount, batch);
  }

  lemma StepKeepsLast(abi: Abi, s: State, tx: Tx)
    ensures Step(abi, s, tx).lastDepositAndWithdrawBatchHash
         == if SubmitsMoney(abi, s, tx) then Keccak(tx.call.data) else s.lastDepositAndWithdrawBatchHash
  {
  }

  /** The last batch hash names the last batch that went through. */
  lemma {:induction false} LastNamesLast(abi: Abi, s: State, txs: seq<Tx>, m: nat, n: nat)
    requires m < n <= |txs| && SubmitsMoney(abi, Run(abi, s, txs[..m]), txs[m])
    requires forall j | m < j < n :: !SubmitsMoney(abi, Run(abi, s, txs[..j]), txs[j])
    ensures Run(abi, s, txs[..n]).lastDepositAndWithdrawBatchHash == Keccak(txs[m].call.data)
    decreases n
  {
    assert txs[..n][..n - 1] == txs[..n - 1];
    StepKeepsLast(abi, Run(abi, s, txs[..n - 1]), txs[n - 1]);
    if n > m + 1 {
      LastNamesLast(abi, s, txs, m, n - 1);
      assert !SubmitsMoney(abi, Run(abi, s, txs[..n - 1]), txs[n - 1]);
    }
  }

  /** No batch of deposits and withdrawals goes through twice in a row: between two
      times there is another one. */
  lemma NoRepeat(abi: Abi, s: State, txs: seq<Tx>, m: nat, n: nat) returns (j: nat)
    requires m < n < |txs|
    requires SubmitsMoney(abi, Run(abi, s, txs[..m]), txs[m]) && SubmitsMoney(abi, Run(abi, s, txs[..n]), txs[n])
    requires txs[m].call.data == txs[n].call.data
    ensures m < j < n && SubmitsMoney(abi, Run(abi, s, txs[..j]), txs[j]) && txs[j].call.data != txs[n].call.data
  {
    j := n - 1;
    while j > m && !SubmitsMoney(abi, Run(abi, s, txs[..j]), txs[j])
      invariant m <= j < n && forall i | j < i < n :: !SubmitsMoney(abi, Run(abi, s, txs[..i]), txs[i])
    {
      j := j - 1;
    }
    LastNamesLast(abi, s, txs, j, n);
  }
}
