/** Rolling back a prepared withdrawal batch gives every slot back what it had, moved
    by whatever was deposited and settled in the meantime. */
module ArchRollback {
  import opened Machine
  import opened Wrappers
  import opened ArchTypes
  import opened ArchLedger
  import opened ArchFrames
  import opened ArchReports
  import opened ArchInvariants
  import opened ArchSessions
  import opened ArchWithdrawal
  import opened ArchAmounts

  // ---------------------------------------------------------------------------
  // What a prepared batch guarantees its rollback
  // ---------------------------------------------------------------------------

  /** Slot 0 of the account that collects the fee holds the fee address. */
  predicate FeeIsHome(w: World, metas: seq<Meta>, d: Withdrawal, feeAddress: Bytes) {
    d.feeAmount > 0 ==>
      && d.feeAccount as nat < |metas| && At(w, metas[d.feeAccount].key).Token?
      && var f := At(w, metas[d.feeAccount].key).t; 0 < |f.slots| && UpToNul(f.slots[0].address) == feeAddress
  }

  predicate FeesHome(w: World, metas: seq<Meta>, ds: seq<Withdrawal>, feeAddress: Bytes) {
    forall d | d in ds :: FeeIsHome(w, metas, d, feeAddress)
  }

  lemma FeesHomeBack(w: World, w': World, metas: seq<Meta>, ds: seq<Withdrawal>, feeAddress: Bytes, owner: Key)
    requires AmountsOnly(w, w', owner) && FeesHome(w', metas, ds, feeAddress)
    ensures FeesHome(w, metas, ds, feeAddress)
  {
    forall d | d in ds ensures FeeIsHome(w, metas, d, feeAddress) {
      assert FeeIsHome(w', metas, d, feeAddress);
      if d.feeAmount > 0 {
        assert At(w', metas[d.feeAccount].key).Token?;
      }
    }
  }

  lemma ChargedHome(w: World, metas: seq<Meta>, account: u8, d: Withdrawal, feeAddress: Bytes)
    requires ChargeOne(w, metas, account, d, feeAddress).Ok?
    ensures FeesHome(w, metas, [d], feeAddress)
  {
  }

  lemma {:induction false} PreparedHome(env: Env, x: Draft, metas: seq<Meta>, account: u8, ds: seq<Withdrawal>,
                                        feeAddress: Bytes, network: Network, owner: Key)
    requires BoundTo(x.w, metas, account, owner) && BoundWithdrawals(x.w, metas, ds, owner)
    requires PrepareToken(env, x, metas, account, ds, feeAddress, network).Ok?
    ensures FeesHome(x.w, metas, ds, feeAddress)
    decreases |ds|
  {
    if ds != [] {
      assert ds[0] in ds && ds[0] in [ds[0]];
      ChargedHome(x.w, metas, account, ds[0], feeAddress);
      ChargeFrame(x.w, metas, account, ds[0], feeAddress, owner);
      var x' := PrepareOne(env, x, metas, account, ds[0], feeAddress, network).value;
      StaysBound(x.w, x'.w, metas, account, owner);
      forall d | d in ds[1..] ensures BoundTo(x'.w, metas, d.feeAccount, owner) {
        StaysBound(x.w, x'.w, metas, d.feeAccount, owner);
      }
      PreparedHome(env, x', metas, account, ds[1..], feeAddress, network, owner);
      FeesHomeBack(x.w, x'.w, metas, ds[1..], feeAddress, owner);
      assert forall d | d in ds :: d == ds[0] || d in ds[1..];
    }
  }

  lemma {:induction false} AllPreparedHome(env: Env, x: Draft, metas: seq<Meta>, tokens: seq<TokenWithdrawals>,
                                           feeAddress: Bytes, network: Network, owner: Key)
    requires BoundBatch(x.w, metas, tokens, owner) && PrepareAll(env, x, metas, tokens, feeAddress, network).Ok?
    ensures forall y | y in tokens :: FeesHome(x.w, metas, y.withdrawals, feeAddress)
    decreases |tokens|
  {
    if tokens != [] {
      var y := tokens[0];
      assert y in tokens;
      PreparedHome(env, x, metas, y.account, y.withdrawals, feeAddress, network, owner);
      PrepareTokenFrame(env, x, metas, y.account, y.withdrawals, feeAddress, network, owner);
      var x' := PrepareToken(env, x, metas, y.account, y.withdrawals, feeAddress, network).value;
      BoundKept(x.w, x'.w, metas, tokens, owner);
      AllPreparedHome(env, x', metas, tokens[1..], feeAddress, network, owner);
      forall z | z in tokens[1..] ensures FeesHome(x.w, metas, z.withdrawals, feeAddress) {
        FeesHomeBack(x.w, x'.w, metas, z.withdrawals, feeAddress, owner);
      }
    }
  }

  /** Same accounts, listed with the flags that rollback asks for. */
  ghost predicate RollbackList(prepare: seq<Meta>, rollback: seq<Meta>) {
    && |rollback| == |prepare| > 1 && (forall i | 0 <= i < |prepare| :: rollback[i].key == prepare[i].key)
    && rollback[0].signer && !rollback[0].writable && !rollback[1].signer && rollback[1].writable
    && forall i | 0 <= i < |prepare| ::
        !prepare[i].signer && prepare[i].writable ==> !rollback[i].signer && rollback[i].writable
  }

  lemma TakenByKey(prepare: seq<Meta>, rollback: seq<Meta>, tokens: seq<TokenWithdrawals>, s: Place)
    requires |rollback| == |prepare| && forall i | 0 <= i < |prepare| :: rollback[i].key == prepare[i].key
    ensures BatchTaken(rollback, tokens, s) == BatchTaken(prepare, tokens, s)
    ensures BatchFees(rollback, tokens, s) == BatchFees(prepare, tokens, s)
  {
    if tokens != [] {
      TokenTakenByKey(prepare, rollback, tokens[0].account, tokens[0].withdrawals, s);
      TakenByKey(prepare, rollback, tokens[1..], s);
    }
  }

  lemma TokenTakenByKey(prepare: seq<Meta>, rollback: seq<Meta>, account: u8, ds: seq<Withdrawal>, s: Place)
    requires |rollback| == |prepare| && forall i | 0 <= i < |prepare| :: rollback[i].key == prepare[i].key
    ensures TokenTaken(rollback, account, ds, s) == TokenTaken(prepare, account, ds, s)
    ensures TokenFees(rollback, ds, s) == TokenFees(prepare, ds, s)
  {
    if ds != [] {
      TokenTakenByKey(prepare, rollback, account, ds[1..], s);
    }
  }

  /** An entry that could be paid, whose fee account collects fees, can be refunded
      in any later state. */
  lemma PayableRefundable(env: Env, w: World, w': World, prepare: seq<Meta>, rollback: seq<Meta>, x: TokenWithdrawals,
                          network: Network, feeAddress: Bytes)
    requires AllPayable(env, w, prepare, x, network) && FeesHome(w, prepare, x.withdrawals, feeAddress)
    requires RollbackList(prepare, rollback)
    requires forall k: Key :: Later(At(w, k), At(w', k)) && GoodAccount(env, At(w, k)) && GoodAccount(env, At(w', k))
    ensures TokenRefundable(w', rollback, x, feeAddress)
  {
    var t := ExpectToken(w, prepare, x.account, true).value;
    var k := prepare[x.account].key;
    assert Later(At(w, k), At(w', k)) && GoodAccount(env, At(w, k)) && GoodAccount(env, At(w', k));
    assert ExpectToken(w', rollback, x.account, true) == Ok(At(w', k).t);
    forall d | d in x.withdrawals ensures Refundable(w', rollback, x.account, d, feeAddress) {
      var f := ExpectToken(w, prepare, d.feeAccount, true).value;
      var fk := prepare[d.feeAccount].key;
      assert Payable(env, t, f, d, network);
      assert Later(At(w, fk), At(w', fk)) && GoodAccount(env, At(w, fk)) && GoodAccount(env, At(w', fk));
      assert ExpectToken(w', rollback, d.feeAccount, true) == Ok(At(w', fk).t);
      assert 0 < f.count;
    }
  }

  /** A slot that the batch touches belongs to the instance. */
  lemma {:induction false} TouchesOwn(w: World, metas: seq<Meta>, tokens: seq<TokenWithdrawals>, s: Place, owner: Key)
    requires BoundBatch(w, metas, tokens, owner) && !(At(w, s.0).Token? && At(w, s.0).t.program == owner)
    ensures BatchTaken(metas, tokens, s) == 0 && BatchFees(metas, tokens, s) == 0
  {
    if tokens != [] {
      assert tokens[0] in tokens;
      TokenTouchesOwn(w, metas, tokens[0].account, tokens[0].withdrawals, s, owner);
      TouchesOwn(w, metas, tokens[1..], s, owner);
    }
  }

  lemma {:induction false} TokenTouchesOwn(w: World, metas: seq<Meta>, account: u8, ds: seq<Withdrawal>, s: Place,
                                           owner: Key)
    requires BoundTo(w, metas, account, owner) && BoundWithdrawals(w, metas, ds, owner)
    requires !(At(w, s.0).Token? && At(w, s.0).t.program == owner)
    ensures TokenTaken(metas, account, ds, s) == 0 && TokenFees(metas, ds, s) == 0
  {
    if ds != [] {
      assert BoundTo(w, metas, ds[0].feeAccount, owner);
      TokenTouchesOwn(w, metas, account, ds[1..], s, owner);
    }
  }

  /** What the step that prepares a batch does to one slot, and what it leaves
      behind for a rollback. */
  lemma PreparedAmounts(env: Env, w0: World, metas: seq<Meta>, b: WithdrawBatch, raw: Bytes, s: Place)
    requires PrepareWithdraw(env, w0, metas, b, raw).Ok? && NothingToReport(env, w0, metas, b)
    requires Amount(w0, s) + BatchFees(metas, b.tokens, s) < U64
    ensures Amount(PrepareWithdraw(env, w0, metas, b, raw).value, s)
         == Amount(w0, s) - BatchTaken(metas, b.tokens, s) + BatchFees(metas, b.tokens, s)
  {
    var p1 := CheckWithdraw(env, w0, metas, b).value;
    CheckWithdrawFrame(env, w0, metas, b);
    var w1 := w0[metas[0].key := Program(p1)];
    DraftWithdrawFrame(env, w0, metas, b, p1);
    var x := DraftWithdraw(env, w1, metas, b, p1).value;
    PrepareAllAmount(env, Draft(w1, NO_PAYOUT), metas, b.tokens, UpToNul(p1.feeAccount), p1.network, s);
    assert At(x.w, metas[1].key) == At(w1, metas[1].key);
  }

  lemma PreparedEntries(env: Env, w0: World, metas: seq<Meta>, b: WithdrawBatch, raw: Bytes)
    requires PrepareWithdraw(env, w0, metas, b, raw).Ok? && NothingToReport(env, w0, metas, b)
    ensures |metas| > 2 && At(w0, metas[0].key).Program? && BoundBatch(w0, metas, b.tokens, metas[0].key)
    ensures At(w0, metas[1].key) == Withdraw(metas[0].key, EMPTY_HASH)
    ensures At(w0, metas[0].key).p.withdrawAccount == metas[1].key
    ensures forall x | x in b.tokens :: AllPayable(env, w0, metas, x, At(w0, metas[0].key).p.network)
    ensures forall x | x in b.tokens :: FeesHome(w0, metas, x.withdrawals, UpToNul(At(w0, metas[0].key).p.feeAccount))
  {
    var p1 := CheckWithdraw(env, w0, metas, b).value;
    CheckWithdrawFrame(env, w0, metas, b);
    var p := At(w0, metas[0].key).p;
    BatchReport(env, w0, metas, b.tokens, p.network, ClearEvents(p));
    DraftWithdrawFrame(env, w0, metas, b, p1);
    DraftedFeesHome(env, w0, metas, b, p1);
  }

  lemma DraftedFeesHome(env: Env, w0: World, metas: seq<Meta>, b: WithdrawBatch, p1: ProgramState)
    requires 0 < |metas| && At(w0, metas[0].key).Program? && BoundBatch(w0, metas, b.tokens, metas[0].key)
    requires PrepareAll(env, Draft(w0[metas[0].key := Program(p1)], NO_PAYOUT), metas, b.tokens,
        UpToNul(p1.feeAccount), p1.network).Ok?
    ensures forall x | x in b.tokens :: FeesHome(w0, metas, x.withdrawals, UpToNul(p1.feeAccount))
  {
    var w1 := w0[metas[0].key := Program(p1)];
    ProgramStepFrame(w0, w1, metas, b.tokens);
    AllPreparedHome(env, Draft(w1, NO_PAYOUT), metas, b.tokens, UpToNul(p1.feeAccount), p1.network, metas[0].key);
    forall x | x in b.tokens ensures FeesHome(w0, metas, x.withdrawals, UpToNul(p1.feeAccount)) {
      assert FeesHome(w1, metas, x.withdrawals, UpToNul(p1.feeAccount));
    }
  }

  // ---------------------------------------------------------------------------
  // The theorem
  // ---------------------------------------------------------------------------

  /** Room for the batch's fees and all that is credited since on top of every balance. */
  ghost predicate Roomy(env: Env, w0: World, w1: World, metas: seq<Meta>, tokens: seq<TokenWithdrawals>, txs: seq<Tx>) {
    forall s: Place :: Amount(w0, s) + BatchFees(metas, tokens, s) + RunCredited(env, w1, txs, s) < U64
  }

  predicate PreparesBatch(env: Env, w: World, tx: Tx) {
    Succeeds(env, w, tx) && IsPrepareWithdraw(tx) && NothingToReport(env, w, tx.metas, InstructionOf(tx).value.batch)
  }

  predicate IsPrepareWithdraw(tx: Tx) {
    InstructionOf(tx).Some? && InstructionOf(tx).value.PrepareBatchWithdraw?
  }

  /** Slot by slot, a state after prepare and a run without withdrawals. */
  lemma AfterPrepare(env: Env, w0: World, prep: Tx, txs: seq<Tx>, s: Place)
    requires Addresses(env) && Good(env, w0)
    requires PreparesBatch(env, w0, prep) && (forall tx | tx in txs :: NoWithdrawal(tx))
    requires Roomy(env, w0, Step(env, w0, prep), prep.metas, InstructionOf(prep).value.batch.tokens, txs)
    ensures var tokens := InstructionOf(prep).value.batch.tokens; var w1 := Step(env, w0, prep);
            Amount(Run(env, w1, txs), s) + RunDebited(env, w1, txs, s)
            == Amount(w0, s) - BatchTaken(prep.metas, tokens, s) + BatchFees(prep.metas, tokens, s)
                + RunCredited(env, w1, txs, s)
  {
    var b, w1 := InstructionOf(prep).value.batch, Step(env, w0, prep);
    assert Amount(w0, s) + BatchFees(prep.metas, b.tokens, s) + RunCredited(env, w1, txs, s) < U64;
    PreparedAmounts(env, w0, prep.metas, b, RawOf(prep), s);
    StepKept(env, w0, prep);
    RunAmount(env, w1, txs, s);
  }

  /** What prepare leaves of the program and withdraw accounts for later. */
  lemma LaterAccounts(env: Env, w0: World, prep: Tx, txs: seq<Tx>)
    requires Addresses(env) && Good(env, w0) && Succeeds(env, w0, prep)
    ensures forall k: Key :: Later(At(w0, k), At(Run(env, Step(env, w0, prep), txs), k))
    ensures Good(env, Run(env, Step(env, w0, prep), txs))
  {
    var w1 := Step(env, w0, prep);
    StepKept(env, w0, prep);
    RunGood(env, w1, txs);
    forall k: Key ensures Later(At(w0, k), At(Run(env, w1, txs), k)) {
      assert MayBecome(k, At(w0, k), At(w1, k), prep.metas[0].key);
      RunLater(env, w1, txs, k);
    }
  }

  /** A balance from before the batch, moved by deposits and settlements since; less
      than nothing if these have spent fees of the batch. */
  function HadAndMoved(env: Env, w0: World, prep: Tx, txs: seq<Tx>, s: Place): int {
    Amount(w0, s) + RunCredited(env, Step(env, w0, prep), txs, s) - RunDebited(env, Step(env, w0, prep), txs, s)
  }

  /** What the later accounts allow: every entry of the batch can be refunded, if
      its fee is there. */
  lemma StillRefundable(env: Env, w0: World, prep: Tx, txs: seq<Tx>, rollback: seq<Meta>)
    requires Addresses(env) && Good(env, w0) && PreparesBatch(env, w0, prep) && RollbackList(prep.metas, rollback)
    ensures At(w0, prep.metas[0].key).Program?
    ensures forall x | x in InstructionOf(prep).value.batch.tokens ::
              TokenRefundable(Run(env, Step(env, w0, prep), txs), rollback, x,
                  UpToNul(At(w0, prep.metas[0].key).p.feeAccount))
  {
    var b := InstructionOf(prep).value.batch;
    var w := Run(env, Step(env, w0, prep), txs);
    PreparedEntries(env, w0, prep.metas, b, RawOf(prep));
    LaterAccounts(env, w0, prep, txs);
    var p := At(w0, prep.metas[0].key).p;
    forall x | x in b.tokens ensures TokenRefundable(w, rollback, x, UpToNul(p.feeAccount)) {
      PayableRefundable(env, w0, w, prep.metas, rollback, x, p.network, UpToNul(p.feeAccount));
    }
  }

  lemma RefundsGoThroughIff(env: Env, w0: World, prep: Tx, txs: seq<Tx>, rollback: seq<Meta>)
    requires Addresses(env) && Good(env, w0) && PreparesBatch(env, w0, prep)
    requires (forall tx | tx in txs :: NoWithdrawal(tx)) && RollbackList(prep.metas, rollback)
    requires Roomy(env, w0, Step(env, w0, prep), prep.metas, InstructionOf(prep).value.batch.tokens, txs)
    ensures At(w0, prep.metas[0].key).Program?
    ensures RefundAll(Run(env, Step(env, w0, prep), txs), rollback, InstructionOf(prep).value.batch.tokens,
                      UpToNul(At(w0, prep.metas[0].key).p.feeAccount)).Ok?
        <==> LaterCovered(rollback, s =>
            HadAndMoved(env, w0, prep, txs, s), Entries(InstructionOf(prep).value.batch.tokens))
  {
    var tokens := InstructionOf(prep).value.batch.tokens;
    var w := Run(env, Step(env, w0, prep), txs);
    StillRefundable(env, w0, prep, txs, rollback);
    var before := (s: Place) => HadAndMoved(env, w0, prep, txs, s);
    var now := (s: Place) => Amount(w, s);
    forall s: Place
      ensures Amount(w, s) + BatchTaken(rollback, tokens, s) < U64
      ensures now(s) + TakenBy(rollback, Entries(tokens), s) == before(s) + FeesOf(rollback, Entries(tokens), s)
    {
      TakenByKey(prep.metas, rollback, tokens, s);
      AfterPrepare(env, w0, prep, txs, s);
      BatchSums(rollback, tokens, s);
      assert Amount(w0, s) + BatchFees(prep.metas, tokens, s) + RunCredited(env, Step(env, w0, prep), txs, s) < U64;
    }
    RefundAllIff(w, rollback, tokens, UpToNul(At(w0, prep.metas[0].key).p.feeAccount));
    ThereIffCovered(rollback, before, now, Entries(tokens));
  }

  lemma RollbackOutcome(w: World, rollback: seq<Meta>, tokens: seq<TokenWithdrawals>)
    requires |rollback| > 1 && rollback[0].signer && !rollback[0].writable && !rollback[1].signer
        && rollback[1].writable
    requires At(w, rollback[0].key).Program? && At(w, rollback[0].key).p.withdrawAccount == rollback[1].key
    requires At(w, rollback[1].key).Withdraw? && At(w, rollback[1].key).program == rollback[0].key
    ensures var r := RefundAll(w, rollback, tokens, UpToNul(At(w, rollback[0].key).p.feeAccount));
            RollbackWithdraw(w, rollback, tokens)
            == if r.Ok? then Ok(r.value[rollback[1].key := Withdraw(rollback[0].key, EMPTY_HASH)]) else Err(r.error)
  {
  }

  /** The accounts that a rollback needs are still what they were. */
  lemma RollbackAccounts(env: Env, w0: World, prep: Tx, txs: seq<Tx>, rollback: seq<Meta>)
    requires Addresses(env) && Good(env, w0) && PreparesBatch(env, w0, prep) && RollbackList(prep.metas, rollback)
    ensures var w := Run(env, Step(env, w0, prep), txs); var tokens := InstructionOf(prep).value.batch.tokens;
            && At(w0, prep.metas[0].key).Program?
            && var r := RefundAll(w, rollback, tokens, UpToNul(At(w0, prep.metas[0].key).p.feeAccount));
               RollbackWithdraw(w, rollback, tokens)
               == if r.Ok? then Ok(r.value[rollback[1].key := Withdraw(rollback[0].key, EMPTY_HASH)]) else Err(r.error)
    ensures At(w0, prep.metas[1].key).Withdraw?
  {
    var owner := prep.metas[0].key;
    var w := Run(env, Step(env, w0, prep), txs);
    PreparedEntries(env, w0, prep.metas, InstructionOf(prep).value.batch, RawOf(prep));
    LaterAccounts(env, w0, prep, txs);
    assert Later(At(w0, owner), At(w, owner)) && Later(At(w0, prep.metas[1].key), At(w, prep.metas[1].key));
    RollbackOutcome(w, rollback, InstructionOf(prep).value.batch.tokens);
  }

  /** Withdrawal rollback inverts prepare.  After a batch was prepared, and after any
      run that neither prepares nor rolls back another one, whenever rolling it back
      with the same accounts succeeds, every slot has its balance from before the
      batch, moved only by the deposits and settlements since. */
  lemma RollbackRestores(env: Env, w0: World, prep: Tx, txs: seq<Tx>, rollback: seq<Meta>, s: Place)
    requires Addresses(env) && Good(env, w0) && PreparesBatch(env, w0, prep)
    requires (forall tx | tx in txs :: NoWithdrawal(tx)) && RollbackList(prep.metas, rollback)
    requires Roomy(env, w0, Step(env, w0, prep), prep.metas, InstructionOf(prep).value.batch.tokens, txs)
    requires At(w0, s.0).Token?
    ensures var w := Run(env, Step(env, w0, prep), txs);
            var r := RollbackWithdraw(w, rollback, InstructionOf(prep).value.batch.tokens);
            r.Ok? ==> Amount(r.value, s) == HadAndMoved(env, w0, prep, txs, s)
  {
    var tokens := InstructionOf(prep).value.batch.tokens;
    var w := Run(env, Step(env, w0, prep), txs);
    RollbackAccounts(env, w0, prep, txs, rollback);
    var feeAddress := UpToNul(At(w0, prep.metas[0].key).p.feeAccount);
    TakenByKey(prep.metas, rollback, tokens, s);
    AfterPrepare(env, w0, prep, txs, s);
    assert Amount(w0, s) + BatchFees(prep.metas, tokens, s) + RunCredited(env, Step(env, w0, prep), txs, s) < U64;
    if RefundAll(w, rollback, tokens, feeAddress).Ok? {
      RefundAllAmount(w, rollback, tokens, feeAddress, s);
    }
  }

  /** Exactly when the rollback goes through: if and only if, at each entry with a
      fee, what the later entries took from the slot that collected it is covered
      by its balance from before the batch, as moved by deposits and settlements
      since, and by the fees of the later entries. */
  lemma RollbackIff(env: Env, w0: World, prep: Tx, txs: seq<Tx>, rollback: seq<Meta>)
    requires Addresses(env) && Good(env, w0) && PreparesBatch(env, w0, prep)
    requires (forall tx | tx in txs :: NoWithdrawal(tx)) && RollbackList(prep.metas, rollback)
    requires Roomy(env, w0, Step(env, w0, prep), prep.metas, InstructionOf(prep).value.batch.tokens, txs)
    ensures RollbackWithdraw(Run(env, Step(env, w0, prep), txs), rollback, InstructionOf(prep).value.batch.tokens).Ok?
        <==> LaterCovered(rollback, s =>
            HadAndMoved(env, w0, prep, txs, s), Entries(InstructionOf(prep).value.batch.tokens))
  {
    RollbackAccounts(env, w0, prep, txs, rollback);
    RefundsGoThroughIff(env, w0, prep, txs, rollback);
  }

  lemma {:induction false} LaterAtMostAll(metas: seq<Meta>, es: seq<Entry>, n: nat, s: Place)
    requires n < |es|
    ensures OwnFee(metas, es[n], s) + TakenBy(metas, es[n + 1..], s) <= TakenBy(metas, es, s)
    ensures Fee(metas, es[n].d, s) <= FeesOf(metas, es, s)
  {
    if n > 0 {
      assert es[1..][n..] == es[n + 1..];
      LaterAtMostAll(metas, es[1..], n - 1, s);
    }
  }

  /** So it does when no slot that collects the batch's fees is withdrawn from by the
      batch, or debited by a settlement since. */
  lemma RollbackSucceeds(env: Env, w0: World, prep: Tx, txs: seq<Tx>, rollback: seq<Meta>)
    requires Addresses(env) && Good(env, w0) && PreparesBatch(env, w0, prep)
    requires (forall tx | tx in txs :: NoWithdrawal(tx)) && RollbackList(prep.metas, rollback)
    requires Roomy(env, w0, Step(env, w0, prep), prep.metas, InstructionOf(prep).value.batch.tokens, txs)
    requires forall s: Place :: BatchFees(prep.metas, InstructionOf(prep).value.batch.tokens, s) > 0
                            ==> BatchTaken(prep.metas, InstructionOf(prep).value.batch.tokens, s) == 0
                                && RunDebited(env, Step(env, w0, prep), txs, s) == 0
    ensures RollbackWithdraw(Run(env, Step(env, w0, prep), txs), rollback, InstructionOf(prep).value.batch.tokens).Ok?
  {
    RollbackIff(env, w0, prep, txs, rollback);
    var tokens := InstructionOf(prep).value.batch.tokens;
    var es, had := Entries(tokens), (s: Place) => HadAndMoved(env, w0, prep, txs, s);
    forall n | 0 <= n < |es| && es[n].d.feeAmount > 0
      ensures var s := FeeSlot(rollback, es[n].d);
              OwnFee(rollback, es[n], s) + TakenBy(rollback, es[n + 1..], s) <= had(s)
                  + FeesOf(rollback, es[n + 1..], s)
    {
      var s := FeeSlot(rollback, es[n].d);
      LaterAtMostAll(rollback, es, n, s);
      BatchSums(rollback, tokens, s);
      TakenByKey(prep.metas, rollback, tokens, s);
    }
  }
}
