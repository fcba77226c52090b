/** What each transaction of Exchange.sol does to every balance, to the holdings and to
    the rest of the storage, and exactly when it goes through. */
module ExchangeEffects {
  import opened Wrappers
  import opened SolidityLedger
  import opened SolidityEffects
  import opened ExchangeModel
  import opened ExchangeTheorems
  import opened Sessions

  // ---------------------------------------------------------------------------
  // Paying out
  // ---------------------------------------------------------------------------

  /** `amount` leaves the sender's balance; `fee` of it goes to the fee account, and
      the rest leaves the contract.  Nothing else moves. */
  ghost predicate Takes(s: State, s': State, sender: Address, token: Address, amount: int, fee: int) {
    && (forall k: Slot :: At(s'.balances, k) == At(s.balances, k) - (if k == (sender, token) then amount else 0)
                                                + (if k == (s.feeAccount, token) then fee else 0))
    && (forall t: Address :: Held(s'.holdings, t) == Held(s.holdings, t) - (if t == token then amount - fee else 0))
  }

  /** Nothing but money and stored requests differs. */
  predicate OnlyMoney(s: State, s': State, requests: map<Address, Request>) {
    s' == s.(balances := s'.balances, holdings := s'.holdings, sovereignWithdrawals := requests)
  }

  /** The fee is part of the amount and fits the fee account, and the rest can be
      transferred. */
  predicate CanTake(s: State, msg: Msg, sender: Address, token: Address, amount: Uint256, fee: Uint256) {
    && fee <= amount <= Held(s.holdings, token) + fee && msg.moves(sender, token, amount - fee)
    && At(s.balances, (s.feeAccount, token)) - (if s.feeAccount == sender then amount else 0) + fee < U256
  }

  /** What becomes of paying `amount`: nothing if the balance does not cover it. */
  ghost predicate Pays(s: State, msg: Msg, sender: Address, token: Address, amount: Uint256, fee: Uint256,
                       r: Option<State>) {
    if amount > At(s.balances, (sender, token)) then r == Some(s) else
    && (r.Some? <==> CanTake(s, msg, sender, token, amount, fee))
    && (r.Some? ==> Takes(s, r.value, sender, token, amount, fee) && OnlyMoney(s, r.value, s.sovereignWithdrawals))
  }

  lemma WithdrawGoesIff(s: State, msg: Msg, sender: Address, token: Address, amount: Uint256, fee: Uint256)
    requires amount <= At(s.balances, (sender, token))
    ensures Withdraw(s, msg, sender, token, amount, fee).Some? <==> CanTake(s, msg, sender, token, amount, fee)
  {
  }

  lemma WithdrawSlot(s: State, msg: Msg, sender: Address, token: Address, amount: Uint256, fee: Uint256, k: Slot)
    requires amount <= At(s.balances, (sender, token)) && Withdraw(s, msg, sender, token, amount, fee).Some?
    ensures At(Withdraw(s, msg, sender, token, amount, fee).value.balances, k)
         == At(s.balances, k) - (if k == (sender, token) then amount else 0)
            + (if k == (s.feeAccount, token) then fee else 0)
  {
  }

  /** A withdrawal beyond the balance is left out; any other one reverts, or takes its
      amount and fee. */
  lemma WithdrawEffect(s: State, msg: Msg, sender: Address, token: Address, amount: Uint256, fee: Uint256)
    ensures Pays(s, msg, sender, token, amount, fee, Withdraw(s, msg, sender, token, amount, fee))
  {
    var r := Withdraw(s, msg, sender, token, amount, fee);
    if amount <= At(s.balances, (sender, token)) {
      WithdrawGoesIff(s, msg, sender, token, amount, fee);
      if r.Some? {
        forall k: Slot
          ensures At(r.value.balances, k) == At(s.balances, k) - (if k == (sender, token) then amount else 0)
                                             + (if k == (s.feeAccount, token) then fee else 0)
        {
          WithdrawSlot(s, msg, sender, token, amount, fee, k);
        }
      }
    }
  }

  /** A withdrawal of everything takes the balance, or the amount if that is smaller,
      and nothing when the fee would use the balance up. */
  lemma WithdrawAllEffect(s: State, msg: Msg, sender: Address, token: Address, amount: Uint256, fee: Uint256)
    ensures var balance := At(s.balances, (sender, token)); var r := WithdrawAll(s, msg, sender, token, amount, fee);
            if fee >= balance then r == Some(s)
            else Pays(s, msg, sender, token, if amount < balance then amount else balance, fee, r)
  {
    WithdrawEffect(s, msg, sender, token, if amount > BalanceOf(s.balances, sender, token)
        then BalanceOf(s.balances, sender, token) else amount, fee);
  }

  /** What becomes of an item that may be paid. */
  ghost predicate ItemPaid(s: State, msg: Msg, w: Withdrawal, r: Option<State>) {
    var balance := At(s.balances, (w.sender, w.token));
    if !w.all then Pays(s, msg, w.sender, w.token, w.amount, w.fee, r)
    else if w.fee >= balance then r == Some(s)
    else Pays(s, msg, w.sender, w.token, if w.amount < balance then w.amount else balance, w.fee, r)
  }

  lemma PayEffect(s: State, msg: Msg, w: Withdrawal)
    ensures ItemPaid(s, msg, w, Pay(s, msg, w))
  {
    WithdrawEffect(s, msg, w.sender, w.token, w.amount, w.fee);
    WithdrawAllEffect(s, msg, w.sender, w.token, w.amount, w.fee);
  }

  // ---------------------------------------------------------------------------
  // Withdrawal batches
  // ---------------------------------------------------------------------------

  /** The item carries no signature, and the sender has asked for it. */
  predicate Requested(s: State, w: Withdrawal) {
    var request := RequestOf(s.sovereignWithdrawals, w.sender);
    && w.zeroSignature && request.token == w.token
    && (request.amount == w.amount || (w.all && request.amount == 0))
  }

  /** An item that was asked for is paid, and uses the request up. */
  lemma RequestedWithdrawal(abi: Abi, s: State, msg: Msg, item: Bytes)
    requires abi.withdrawal(item).Some? && Requested(s, abi.withdrawal(item).value)
    ensures var w, r := abi.withdrawal(item).value, WithdrawOne(abi, s, msg, item);
            && (r.Some? ==> r.value.sovereignWithdrawals == s.sovereignWithdrawals - {w.sender})
            && ItemPaid(s, msg, w, match r case None => None
                                         case Some(s') => Some(s'.(sovereignWithdrawals := s.sovereignWithdrawals)))
  {
    var w, r := abi.withdrawal(item).value, WithdrawOne(abi, s, msg, item);
    PayEffect(s, msg, w);
    if r.Some? {
      var s' := Pay(s, msg, w).value;
      assert s'.sovereignWithdrawals == s.sovereignWithdrawals;
      assert r.value.(sovereignWithdrawals := s.sovereignWithdrawals) == s';
    }
  }

  /** The sender, or the signer that the sender linked last in this run and has not
      removed. */
  ghost predicate MaySign(abi: Abi, s: State, txs: seq<Tx>, sender: Address, signer: Address) {
    && signer != 0
    && (signer == sender || exists m :: StillOpen(Stepper(abi), LinkEvents(abi, sender), s, txs, m, signer))
  }

  /** In a batch after any run, an item that carries a signature is paid if it is
      signed by who may sign for its sender, and otherwise leaves all as it was,
      whatever came before it in the batch; if no signer can be recovered, the batch
      reverts. */
  lemma SignedWithdrawal(abi: Abi, s: State, txs: seq<Tx>, msg: Msg, before: seq<Bytes>, item: Bytes)
    requires s.linkedSigners == map[]
    requires WithdrawMany(abi, Run(abi, s, txs), msg, before).Some?
    requires abi.withdrawal(item).Some?
    requires !Requested(WithdrawMany(abi, Run(abi, s, txs), msg, before).value, abi.withdrawal(item).value)
    ensures var w, now := abi.withdrawal(item).value, WithdrawMany(abi, Run(abi, s, txs), msg, before).value;
            var r := WithdrawOne(abi, now, msg, item);
            if w.recovered.None? then r == None
            else if MaySign(abi, s, txs, w.sender, w.recovered.value) then ItemPaid(now, msg, w, r)
            else r == Some(now)
  {
    var w, now := abi.withdrawal(item).value, WithdrawMany(abi, Run(abi, s, txs), msg, before).value;
    WithdrawManyKeepsSigners(abi, Run(abi, s, txs), msg, before);
    PayEffect(now, msg, w);
    if w.recovered.Some? {
      LinkedIff(abi, s, txs, w.sender, w.recovered.value);
    }
  }

  /** A batch that goes through is its items, one after the other. */
  lemma {:induction false} WithdrawEach(abi: Abi, s: State, msg: Msg, items: seq<Bytes>) returns (ss: seq<State>)
    requires WithdrawMany(abi, s, msg, items).Some?
    ensures |ss| == |items| + 1 && ss[0] == s && ss[|items|] == WithdrawMany(abi, s, msg, items).value
    ensures forall i | 0 <= i < |items| :: WithdrawOne(abi, ss[i], msg, items[i]) == Some(ss[i + 1])
    decreases |items|
  {
    ss := [s];
    if items != [] {
      var rest := WithdrawEach(abi, WithdrawOne(abi, s, msg, items[0]).value, msg, items[1..]);
      ss := [s] + rest;
    }
  }

  /** And one that does not is stopped by an item. */
  lemma {:induction false} WithdrawStops(abi: Abi, s: State, msg: Msg, items: seq<Bytes>) returns (n: nat)
    requires WithdrawMany(abi, s, msg, items).None?
    ensures n < |items| && WithdrawMany(abi, s, msg, items[..n]).Some?
    ensures WithdrawOne(abi, WithdrawMany(abi, s, msg, items[..n]).value, msg, items[n]).None?
    decreases |items|
  {
    n := 0;
    if WithdrawOne(abi, s, msg, items[0]).Some? {
      n := WithdrawStops(abi, WithdrawOne(abi, s, msg, items[0]).value, msg, items[1..]);
      n := n + 1;
      assert items[..n][1..] == items[1..][..n - 1];
    }
  }

  // ---------------------------------------------------------------------------
  // Deposits and requests
  // ---------------------------------------------------------------------------

  /** `amount` of a token comes in for one wallet, and nothing else moves. */
  ghost predicate Receives(s: State, s': State, wallet: Address, token: Address, amount: nat) {
    && (forall k: Slot :: At(s'.balances, k) == At(s.balances, k) + if k == (wallet, token) then amount else 0)
    && (forall t: Address :: Held(s'.holdings, t) == Held(s.holdings, t) + if t == token then amount else 0)
    && OnlyMoney(s, s', s.sovereignWithdrawals)
  }

  /** Currency that is sent to the contract, and tokens that it pulls, are credited to
      the sender of the transaction. */
  lemma DepositEffect(abi: Abi, s: State, tx: Tx)
    requires tx.call.Receive? || tx.call.Deposit?
    ensures var token := if tx.call.Receive? then NATIVE else tx.call.token;
            var amount := if tx.call.Receive? then tx.call.value else tx.call.amount;
            && (Perform(abi, s, tx).Some? <==>
                && At(s.balances, (tx.msg.sender, token)) + amount < U256
                && (tx.call.Deposit? ==> token != NATIVE && tx.msg.moves(tx.msg.sender, token, amount)))
            && (Perform(abi, s, tx).Some? ==> Receives(s, Step(abi, s, tx), tx.msg.sender, token, amount))
  {
  }

  /** A first request, or one that differs from the stored one, is stored if the
      balance covers it; a stored one cannot be touched before its delay is over. */
  lemma RequestEffect(abi: Abi, s: State, tx: Tx)
    requires tx.call.SovereignWithdrawal?
    requires var q := RequestOf(s.sovereignWithdrawals, tx.msg.sender);
             q.timestamp == 0 || q.token != tx.call.token || q.amount != tx.call.amount
    ensures var q := RequestOf(s.sovereignWithdrawals, tx.msg.sender); var user := tx.msg.sender;
            && (Perform(abi, s, tx).Some? <==>
                && tx.call.amount <= At(s.balances, (user, tx.call.token))
                && (q.timestamp != 0 ==> q.timestamp + s.sovereignWithdrawalDelay <= tx.msg.timestamp
                                         && q.timestamp + s.sovereignWithdrawalDelay < U256))
            && (Perform(abi, s, tx).Some? ==>
                  Step(abi, s, tx) == s.(sovereignWithdrawals := s.sovereignWithdrawals[
                      user := Request(tx.call.token, tx.call.amount, tx.msg.timestamp)]))
  {
  }

  /** A stored request, made again when its delay is over, is paid without a fee, the
      whole balance if its amount is zero; and it is used up, paid or not. */
  lemma MaturedEffect(abi: Abi, s: State, tx: Tx)
    requires tx.call.SovereignWithdrawal?
    requires var q := RequestOf(s.sovereignWithdrawals, tx.msg.sender);
             q.timestamp != 0 && q.token == tx.call.token && q.amount == tx.call.amount
    ensures var user, token, delay := tx.msg.sender, tx.call.token, s.sovereignWithdrawalDelay;
            var due := s.sovereignWithdrawals[user].timestamp + delay;
            var balance := At(s.balances, (user, token));
            var out := if tx.call.amount == 0 then balance else tx.call.amount;
            var r, left := Perform(abi, s, tx), s.sovereignWithdrawals - {user};
            && (r.Some? <==> due < U256 && due <= tx.msg.timestamp
                             && (out <= balance ==> CanTake(s, tx.msg, user, token, out, 0)))
            && (r.Some? && out <= balance ==> Takes(s, r.value, user, token, out, 0) && OnlyMoney(s, r.value, left))
            && (r.Some? && out > balance ==> r.value == s.(sovereignWithdrawals := left))
  {
    var user, token := tx.msg.sender, tx.call.token;
    var out := if tx.call.amount == 0 then At(s.balances, (user, token)) else tx.call.amount;
    WithdrawEffect(s, tx.msg, user, token, out, 0);
  }

  // ---------------------------------------------------------------------------
  // Settlement
  // ---------------------------------------------------------------------------

  /** Exactly when a batch can be prepared, and what that does: its hash is stored if
      and only if every decrement is covered, and nothing else changes. */
  lemma PrepareEffect(abi: Abi, s: State, tx: Tx)
    requires tx.call.PrepareSettlementBatch?
    ensures Perform(abi, s, tx).Some?
        <==> && tx.msg.sender == s.submitter && s.batchHash == Zero && abi.batch(tx.call.data).Some?
             && Verify(s.balances, abi.batch(tx.call.data).value).Some?
    ensures Perform(abi, s, tx).Some? ==>
              && (Step(abi, s, tx).batchHash == Keccak(tx.call.data)
                  <==> AllCovered(s.balances, abi.batch(tx.call.data).value))
              && (Step(abi, s, tx).batchHash == Zero <==> !AllCovered(s.balances, abi.batch(tx.call.data).value))
              && Step(abi, s, tx) == s.(batchHash := Step(abi, s, tx).batchHash)
  {
    if abi.batch(tx.call.data).Some? {
      VerifyIff(s.balances, abi.batch(tx.call.data).value);
    }
  }

  /** Exactly when the stored batch can be submitted, and what that does to every
      balance: its credits and debits, and the hash moves on. */
  lemma SubmitEffect(abi: Abi, s: State, tx: Tx)
    requires tx.call.SubmitSettlementBatch? && abi.batch(tx.call.data).Some?
    ensures var batch := abi.batch(tx.call.data).value;
            var ms := BatchMoves(batch.wallets, s.feeAccount, batch.lists);
            && (Perform(abi, s, tx).Some? <==>
                && tx.msg.sender == s.submitter && s.batchHash == Keccak(tx.call.data)
                && AllListed(batch.wallets, batch.lists) && batch.tradeLists <= |batch.wallets|
                && RunningFits(k => At(s.balances, k), ms))
            && (Perform(abi, s, tx).Some? ==>
                && (forall k: Slot ::
                      At(Step(abi, s, tx).balances, k) + DebitsTo(ms, k) == At(s.balances, k) + CreditsTo(ms, k))
                && Step(abi, s, tx) == s.(balances := Step(abi, s, tx).balances, batchHash := Zero,
                                          lastSettlementBatchHash := Keccak(tx.call.data)))
  {
    var batch := abi.batch(tx.call.data).value;
    ApplyIff(s.balances, s.feeAccount, batch);
    if Perform(abi, s, tx).Some? {
      forall k: Slot
        ensures var ms := BatchMoves(batch.wallets, s.feeAccount, batch.lists);
                At(Step(abi, s, tx).balances, k) + DebitsTo(ms, k) == At(s.balances, k) + CreditsTo(ms, k)
      {
        ApplySlot(s.balances, s.feeAccount, batch, k);
      }
    }
  }

  /** A prepared batch, after any run: while its hash is stored it can be submitted,
      if it debits no slot twice, none of these balances has fallen since, it names
      listed wallets and there is room for what it credits. */
  lemma PreparedSubmits(abi: Abi, s: State, prep: Tx, txs: seq<Tx>, submit: Tx)
    requires prep.call.PrepareSettlementBatch? && Perform(abi, s, prep).Some?
    requires submit.call.SubmitSettlementBatch? && submit.call.data == prep.call.data
    requires AllCovered(s.balances, abi.batch(prep.call.data).value)
    requires var w := Run(abi, Step(abi, s, prep), txs); var batch := abi.batch(prep.call.data).value;
             var ms := BatchMoves(batch.wallets, w.feeAccount, batch.lists);
             && w.batchHash == Keccak(prep.call.data) && submit.msg.sender == w.submitter
             && AllListed(batch.wallets, batch.lists) && DebitsDistinct(ms)
             && (forall m | m in ms && !m.credit :: At(s.balances, m.slot) <= At(w.balances, m.slot))
             && forall k: Slot :: At(w.balances, k) + CreditsTo(ms, k) < U256
    ensures Perform(abi, Run(abi, Step(abi, s, prep), txs), submit).Some?
  {
    var w, batch := Run(abi, Step(abi, s, prep), txs), abi.batch(prep.call.data).value;
    VerifyIff(s.balances, batch);
    CheckedApplies(s.balances, w.balances, w.feeAccount, batch);
  }

  // ---------------------------------------------------------------------------
  // Who may do what
  // ---------------------------------------------------------------------------

  /** A transaction goes through if and only if `allowed`, and then leaves `s'`. */
  predicate Does(abi: Abi, s: State, tx: Tx, allowed: bool, s': State) {
    (Perform(abi, s, tx).Some? <==> allowed) && Step(abi, s, tx) == if allowed then s' else s
  }

  /** Roles and the delay are set by the owner alone, and to nothing that is refused. */
  lemma OwnerEffect(abi: Abi, s: State, tx: Tx)
    ensures tx.call.SetSubmitter? ==>
              Does(abi, s, tx, tx.msg.sender == s.owner && tx.call.account != 0, s.(submitter := tx.call.account))
    ensures tx.call.SetFeeAccount? ==>
              Does(abi, s, tx, tx.msg.sender == s.owner && tx.call.account != 0, s.(feeAccount := tx.call.account))
    ensures tx.call.SetSovereignWithdrawalDelay? ==>
              Does(abi, s, tx, tx.msg.sender == s.owner && 86400 <= tx.call.delay,
                   s.(sovereignWithdrawalDelay := tx.call.delay))
  {
  }

  /** A signer is linked to the sender of the transaction, by its own signature. */
  lemma SignerEffect(abi: Abi, s: State, tx: Tx)
    ensures tx.call.LinkSigner? ==>
              var recovered := abi.recover(tx.call.digest, tx.call.signature);
              Does(abi, s, tx, recovered.Some?,
                   if tx.call.signer != 0 && recovered == Some(tx.call.signer)
                   then s.(linkedSigners := s.linkedSigners[tx.msg.sender := tx.call.signer]) else s)
    ensures tx.call.RemoveLinkedSigner? ==>
              Does(abi, s, tx, true, s.(linkedSigners := s.linkedSigners - {tx.msg.sender}))
  {
  }

  /** The submitter alone gives a prepared batch up, and submits withdrawals, while
      nothing is prepared and the batch is not the last one again. */
  lemma SubmitterEffect(abi: Abi, s: State, tx: Tx)
    ensures tx.call.RollbackBatch? ==> Does(abi, s, tx, tx.msg.sender == s.submitter, s.(batchHash := Zero))
    ensures tx.call.SubmitWithdrawals? ==>
              var hash, r := HashOfItems(tx.call.items), WithdrawMany(abi, s, tx.msg, tx.call.items);
              Does(abi, s, tx, tx.msg.sender == s.submitter && s.batchHash == Zero
                               && s.lastWithdrawalBatchHash != hash && r.Some?,
                   if r.Some? then r.value.(lastWithdrawalBatchHash := hash) else s)
  {
  }

  lemma HashNames(a: seq<Bytes>, b: seq<Bytes>)
    requires HashOfItems(a) == HashOfItems(b)
    ensures a == b
  {
    assert forall i | 0 <= i < |a| :: HashOfItems(a).hashes[i] == Keccak(a[i]);
    assert forall i | 0 <= i < |b| :: HashOfItems(b).hashes[i] == Keccak(b[i]);
  }

  /** A withdrawal batch that goes through. */
  predicate Withdraws(abi: Abi, s: State, txs: seq<Tx>, n: nat)
    requires n < |txs|
  {
    txs[n].call.SubmitWithdrawals? && Perform(abi, Run(abi, s, txs[..n]), txs[n]).Some?
  }

  lemma {:induction false} WithdrawManyKeepsLast(abi: Abi, s: State, msg: Msg, items: seq<Bytes>)
    requires WithdrawMany(abi, s, msg, items).Some?
    ensures WithdrawMany(abi, s, msg, items).value.lastWithdrawalBatchHash == s.lastWithdrawalBatchHash
    decreases |items|
  {
    if items != [] {
      WithdrawManyKeepsLast(abi, WithdrawOne(abi, s, msg, items[0]).value, msg, items[1..]);
    }
  }

  lemma SovereignKeepsLast(s: State, msg: Msg, token: Address, amount: Uint256)
    requires Sovereign(s, msg, token, amount).Some?
    ensures Sovereign(s, msg, token, amount).value.lastWithdrawalBatchHash == s.lastWithdrawalBatchHash
  {
  }

  lemma StepKeepsLast(abi: Abi, s: State, tx: Tx)
    requires !(tx.call.SubmitWithdrawals? && Perform(abi, s, tx).Some?)
    ensures Step(abi, s, tx).lastWithdrawalBatchHash == s.lastWithdrawalBatchHash
  {
    if tx.call.SovereignWithdrawal? && Perform(abi, s, tx).Some? {
      SovereignKeepsLast(s, tx.msg, tx.call.token, tx.call.amount);
    }
  }

  /** The last batch hash names the last batch that went through. */
  lemma {:induction false} LastNamesLast(abi: Abi, s: State, txs: seq<Tx>, m: nat, n: nat)
    requires m < n <= |txs| && Withdraws(abi, s, txs, m)
    requires forall j | m < j < n :: !Withdraws(abi, s, txs, j)
    ensures Run(abi, s, txs[..n]).lastWithdrawalBatchHash == HashOfItems(txs[m].call.items)
    decreases n
  {
    assert txs[..n][..n - 1] == txs[..n - 1];
    var before := Run(abi, s, txs[..n - 1]);
    if n == m + 1 {
      SubmitterEffect(abi, before, txs[m]);
    } else {
      LastNamesLast(abi, s, txs, m, n - 1);
      assert !Withdraws(abi, s, txs, n - 1);
      StepKeepsLast(abi, before, txs[n - 1]);
    }
  }

  /** No batch of withdrawals goes through twice in a row: between two times there is
      another one. */
  lemma NoRepeat(abi: Abi, s: State, txs: seq<Tx>, m: nat, n: nat) returns (j: nat)
    requires m < n < |txs| && Withdraws(abi, s, txs, m) && Withdraws(abi, s, txs, n)
    requires txs[m].call.items == txs[n].call.items
    ensures m < j < n && Withdraws(abi, s, txs, j) && txs[j].call.items != txs[n].call.items
  {
    j := n - 1;
    while j > m && !Withdraws(abi, s, txs, j)
      invariant m <= j < n && forall i | j < i < n :: !Withdraws(abi, s, txs, i)
    {
      j := j - 1;
    }
    LastNamesLast(abi, s, txs, j, n);
    SubmitterEffect(abi, Run(abi, s, txs[..n]), txs[n]);
  }
}
