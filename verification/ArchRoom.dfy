/** A bound that can be checked before a run starts, under which no credit wraps:
    while the total and whatever the transactions may credit stay below 2^64
    together, money is conserved. */
module ArchRoom {
  import opened Machine
  import opened Wrappers
  import opened ArchTypes
  import opened ArchLedger
  import opened ArchFrames
  import opened ArchReports
  import opened ArchInvariants
  import opened ArchMoney
  import opened ArchSessions
  import opened ArchSubmittable
  import opened ArchWithdrawal
  import opened ArchConservation
  import opened ArchRollback

  /** What the entries of a withdrawal batch may credit, when it is prepared or
      rolled back. */
  function TokenCredits(ds: seq<Withdrawal>): nat {
    if ds == [] then 0 else ds[0].amount + ds[0].feeAmount + TokenCredits(ds[1..])
  }

  function WithdrawalCredits(tokens: seq<TokenWithdrawals>): nat {
    if tokens == [] then 0 else TokenCredits(tokens[0].withdrawals) + WithdrawalCredits(tokens[1..])
  }

  lemma {:induction false} DepositsRoom(w: World, metas: seq<Meta>, ds: seq<TokenDeposits>)
    requires DepositAll(w, metas, ds).Ok? && TotalMoney(w) + DepositSum(ds) < U64
    ensures DepositCarries(w, metas, ds) == 0
    decreases |ds|
  {
    if ds != [] {
      var t := ExpectToken(w, metas, ds[0].account, true).value;
      var t' := Adjust(t, ds[0].deposits, true).value;
      var key := metas[ds[0].account].key;
      StoreMoney(w, key, Token(t'));
      IncrementsRoom(t, ds[0].deposits);
      IncrementsMoney(t, ds[0].deposits);
      DepositsRoom(w[key := Token(t')], metas, ds[1..]);
    }
  }

  lemma ChargeRoom(w: World, metas: seq<Meta>, account: u8, d: Withdrawal, feeAddress: Bytes)
    requires ChargeOne(w, metas, account, d, feeAddress).Ok? && TotalMoney(w) + d.feeAmount < U64
    ensures ChargeCarries(w, metas, account, d) == 0
    ensures TotalMoney(ChargeOne(w, metas, account, d, feeAddress).value) <= TotalMoney(w) + d.feeAmount
  {
    ChargeOneMoney(w, metas, account, d, feeAddress);
    if d.feeAmount > 0 {
      var a, k := metas[account].key, metas[d.feeAccount].key;
      var t := At(w, a).t;
      var t' := Debit(t, d.address.index, d.amount).value;
      var w1 := w[a := Token(t')];
      DebitMoney(t, d.address.index, d.amount);
      StoreMoney(w, a, Token(t'));
      StoreMoney(w1, k, At(w1, k));
      CreditMoney(At(w1, k).t, 0, d.feeAmount);
    }
  }

  lemma {:induction false} ChargeTokenRoom(w: World, metas: seq<Meta>, account: u8, ds: seq<Withdrawal>,
                                           feeAddress: Bytes)
    requires ChargeToken(w, metas, account, ds, feeAddress).Ok? && TotalMoney(w) + TokenCredits(ds) < U64
    ensures TokenChargeCarries(w, metas, account, ds, feeAddress) == 0
    ensures TotalMoney(ChargeToken(w, metas, account, ds, feeAddress).value) <= TotalMoney(w) + TokenCredits(ds)
    decreases |ds|
  {
    if ds != [] {
      ChargeRoom(w, metas, account, ds[0], feeAddress);
      ChargeTokenRoom(ChargeOne(w, metas, account, ds[0], feeAddress).value, metas, account, ds[1..], feeAddress);
    }
  }

  lemma {:induction false} PrepareRoom(env: Env, x: Draft, metas: seq<Meta>, tokens: seq<TokenWithdrawals>,
                                       feeAddress: Bytes, network: Network)
    requires PrepareAll(env, x, metas, tokens, feeAddress, network).Ok?
    requires TotalMoney(x.w) + WithdrawalCredits(tokens) < U64
    ensures BatchChargeCarries(x.w, metas, tokens, feeAddress) == 0
    ensures TotalMoney(PrepareAll(env, x, metas, tokens, feeAddress, network).value.w)
         <= TotalMoney(x.w) + WithdrawalCredits(tokens)
    decreases |tokens|
  {
    if tokens != [] {
      var y := tokens[0];
      PrepareTokenMoney(env, x, metas, y.account, y.withdrawals, feeAddress, network);
      ChargeTokenRoom(x.w, metas, y.account, y.withdrawals, feeAddress);
      var x' := PrepareToken(env, x, metas, y.account, y.withdrawals, feeAddress, network).value;
      PrepareRoom(env, x', metas, tokens[1..], feeAddress, network);
    }
  }

  lemma RefundRoom(w: World, metas: seq<Meta>, account: u8, d: Withdrawal, feeAddress: Bytes)
    requires RefundOne(w, metas, account, d, feeAddress).Ok? && TotalMoney(w) + d.amount + d.feeAmount < U64
    ensures RefundCarries(w, metas, account, d) == 0
    ensures TotalMoney(RefundOne(w, metas, account, d, feeAddress).value) <= TotalMoney(w) + d.amount
  {
    RefundOneMoney(w, metas, account, d, feeAddress);
    var a := metas[account].key;
    StoreMoney(w, a, At(w, a));
    CreditMoney(At(w, a).t, d.address.index, d.amount);
    if OtherFee(metas, account, d) {
      var k := metas[d.feeAccount].key;
      var f := At(w, k).t;
      StoreMoney(w, k, At(w, k));
      DebitMoney(f, 0, d.feeAmount);
      CreditMoney(Debit(f, 0, d.feeAmount).value, d.feeAddress.index, d.feeAmount);
    }
  }

  lemma {:induction false} RefundTokenRoom(w: World, metas: seq<Meta>, account: u8, ds: seq<Withdrawal>,
                                           feeAddress: Bytes)
    requires RefundToken(w, metas, account, ds, feeAddress).Ok? && TotalMoney(w) + TokenCredits(ds) < U64
    ensures TokenRefundCarries(w, metas, account, ds, feeAddress) == 0
    ensures TotalMoney(RefundToken(w, metas, account, ds, feeAddress).value) <= TotalMoney(w) + TokenCredits(ds)
    decreases |ds|
  {
    if ds != [] {
      RefundRoom(w, metas, account, ds[0], feeAddress);
      RefundTokenRoom(RefundOne(w, metas, account, ds[0], feeAddress).value, metas, account, ds[1..], feeAddress);
    }
  }

  lemma {:induction false} RefundAllRoom(w: World, metas: seq<Meta>, tokens: seq<TokenWithdrawals>, feeAddress: Bytes)
    requires RefundAll(w, metas, tokens, feeAddress).Ok? && TotalMoney(w) + WithdrawalCredits(tokens) < U64
    ensures BatchRefundCarries(w, metas, tokens, feeAddress) == 0
    ensures TotalMoney(RefundAll(w, metas, tokens, feeAddress).value) <= TotalMoney(w) + WithdrawalCredits(tokens)
    decreases |tokens|
  {
    if tokens != [] {
      var y := tokens[0];
      RefundTokenRoom(w, metas, y.account, y.withdrawals, feeAddress);
      RefundAllRoom(RefundToken(w, metas, y.account, y.withdrawals, feeAddress).value, metas, tokens[1..], feeAddress);
    }
  }

  // ---------------------------------------------------------------------------
  // Every transaction and every run
  // ---------------------------------------------------------------------------

  /** What an instruction may credit, by its amounts alone. */
  function MayCredit(i: Instruction): nat {
    match i
    case BatchDeposit(ds) => DepositSum(ds)
    case PrepareBatchWithdraw(b) => WithdrawalCredits(b.tokens)
    case SubmitBatchSettlement(ss) => BatchCredits(ss)
    case RollbackBatchWithdraw(tokens) => WithdrawalCredits(tokens)
    case _ => 0
  }

  function MayCreditAll(txs: seq<Tx>): nat {
    if txs == [] then 0 else
    var last := InstructionOf(txs[|txs| - 1]);
    MayCreditAll(txs[..|txs| - 1]) + if last.Some? then MayCredit(last.value) else 0
  }

  lemma PrepareWithdrawRoom(env: Env, w: World, metas: seq<Meta>, b: WithdrawBatch, raw: Bytes)
    requires PrepareWithdraw(env, w, metas, b, raw).Ok? && TotalMoney(w) + WithdrawalCredits(b.tokens) < U64
    ensures AllCarries(env, w, metas, PrepareBatchWithdraw(b)) == 0
    ensures TotalMoney(PrepareWithdraw(env, w, metas, b, raw).value) <= TotalMoney(w) + WithdrawalCredits(b.tokens)
  {
    PrepareWithdrawMoney(env, w, metas, b, raw);
    var p1 := CheckWithdraw(env, w, metas, b).value;
    CheckWithdrawFrame(env, w, metas, b);
    var w1 := w[metas[0].key := Program(p1)];
    StoreMoney(w, metas[0].key, Program(p1));
    if p1.events == [] {
      DraftWithdrawFrame(env, w, metas, b, p1);
      PrepareRoom(env, Draft(w1, NO_PAYOUT), metas, b.tokens, UpToNul(p1.feeAccount), p1.network);
      PrepareAllMoney(env, Draft(w1, NO_PAYOUT), metas, b.tokens, UpToNul(p1.feeAccount), p1.network);
    }
  }

  lemma RollbackWithdrawRoom(env: Env, w: World, metas: seq<Meta>, tokens: seq<TokenWithdrawals>)
    requires RollbackWithdraw(w, metas, tokens).Ok? && TotalMoney(w) + WithdrawalCredits(tokens) < U64
    ensures AllCarries(env, w, metas, RollbackBatchWithdraw(tokens)) == 0
    ensures TotalMoney(RollbackWithdraw(w, metas, tokens).value) <= TotalMoney(w) + WithdrawalCredits(tokens)
  {
    RollbackWithdrawMoney(w, metas, tokens);
    RefundAllRoom(w, metas, tokens, FeeAddressOf(w, metas));
    RefundAllMoney(w, metas, tokens, FeeAddressOf(w, metas));
  }

  lemma PerformRoom(env: Env, w: World, metas: seq<Meta>, programId: Key, i: Instruction, raw: Bytes)
    requires Addresses(env) && Good(env, w) && Perform(env, w, metas, programId, i, raw).Ok?
    requires TotalMoney(w) + MayCredit(i) < U64
    ensures AllCarries(env, w, metas, i) == 0
    ensures TotalMoney(Perform(env, w, metas, programId, i, raw).value) <= TotalMoney(w) + MayCredit(i)
  {
    match i
    case BatchDeposit(ds) =>
      DepositsRoom(w, metas, ds);
      DepositAllMoney(w, metas, ds);
    case PrepareBatchWithdraw(b) => PrepareWithdrawRoom(env, w, metas, b, raw);
    case SubmitBatchSettlement(ss) =>
      SettleAllRoom(w, metas, ss);
      SubmitSettlementMoney(env, w, metas, ss, raw);
    case RollbackBatchWithdraw(tokens) => RollbackWithdrawRoom(env, w, metas, tokens);
    case _ => PerformMoney(env, w, metas, programId, i, raw);
  }

  lemma StepRoom(env: Env, w: World, tx: Tx)
    requires Addresses(env) && Good(env, w)
    requires TotalMoney(w) + (if InstructionOf(tx).Some? then MayCredit(InstructionOf(tx).value) else 0) < U64
    ensures StepCarries(env, w, tx) == 0
    ensures TotalMoney(Step(env, w, tx))
         <= TotalMoney(w) + if InstructionOf(tx).Some? then MayCredit(InstructionOf(tx).value) else 0
  {
    if Succeeds(env, w, tx) {
      PerformRoom(env, w, tx.metas, tx.programId, InstructionOf(tx).value, RawOf(tx));
    }
  }

  /** Over every run whose total, and what its transactions may credit, stay below
      2^64 together, nothing wraps: the total moves by deposits, payouts, refunds and
      settlement surplus alone. */
  lemma {:induction false} RunRoom(env: Env, w: World, txs: seq<Tx>)
    requires Addresses(env) && Good(env, w) && TotalMoney(w) + MayCreditAll(txs) < U64
    ensures RunCarries(env, w, txs) == 0 && TotalMoney(Run(env, w, txs)) == TotalMoney(w) + RunInflow(env, w, txs)
    ensures TotalMoney(Run(env, w, txs)) <= TotalMoney(w) + MayCreditAll(txs)
  {
    if txs != [] {
      var front, last := txs[..|txs| - 1], txs[|txs| - 1];
      RunRoom(env, w, front);
      RunGood(env, w, front);
      StepRoom(env, Run(env, w, front), last);
    }
    RunMoney(env, w, txs);
  }

  // ---------------------------------------------------------------------------
  // Exactly when a rollback creates money
  // ---------------------------------------------------------------------------

  /** Whether or not there was a prepare: a rollback that goes through, with room for
      what it names, leaves the total alone if and only if its entries take nothing
      out together, and creates money if and only if they take out more. */
  lemma RollbackMintsIff(w: World, metas: seq<Meta>, tokens: seq<TokenWithdrawals>)
    requires RollbackWithdraw(w, metas, tokens).Ok? && TotalMoney(w) + WithdrawalCredits(tokens) < U64
    ensures var after := RollbackWithdraw(w, metas, tokens).value;
            && (TotalMoney(after) == TotalMoney(w) <==> BatchOutflow(metas, tokens) == 0)
            && (TotalMoney(after) > TotalMoney(w) <==> BatchOutflow(metas, tokens) > 0)
  {
    RollbackWithdrawMoney(w, metas, tokens);
    RefundAllRoom(w, metas, tokens, FeeAddressOf(w, metas));
  }

  lemma {:induction false} TokenOutflowByKey(metas: seq<Meta>, metas': seq<Meta>, account: u8, ds: seq<Withdrawal>)
    requires |metas'| == |metas| && forall i | 0 <= i < |metas| :: metas'[i].key == metas[i].key
    ensures TokenOutflow(metas', account, ds) == TokenOutflow(metas, account, ds)
  {
    if ds != [] {
      TokenOutflowByKey(metas, metas', account, ds[1..]);
    }
  }

  lemma {:induction false} OutflowByKey(metas: seq<Meta>, metas': seq<Meta>, tokens: seq<TokenWithdrawals>)
    requires |metas'| == |metas| && forall i | 0 <= i < |metas| :: metas'[i].key == metas[i].key
    ensures BatchOutflow(metas', tokens) == BatchOutflow(metas, tokens)
  {
    if tokens != [] {
      TokenOutflowByKey(metas, metas', tokens[0].account, tokens[0].withdrawals);
      OutflowByKey(metas, metas', tokens[1..]);
    }
  }

  lemma PreparedInflow(env: Env, w0: World, prep: Tx)
    requires PreparesBatch(env, w0, prep)
    ensures StepInflow(env, w0, prep) == -BatchOutflow(prep.metas, InstructionOf(prep).value.batch.tokens)
  {
  }

  lemma RolledBackInflow(env: Env, w: World, rollback: Tx, tokens: seq<TokenWithdrawals>)
    requires Succeeds(env, w, rollback) && InstructionOf(rollback) == Some(RollbackBatchWithdraw(tokens))
    ensures StepInflow(env, w, rollback) == BatchOutflow(rollback.metas, tokens)
  {
  }

  lemma PreparedGood(env: Env, w0: World, prep: Tx, txs: seq<Tx>)
    requires Addresses(env) && Good(env, w0)
    ensures Good(env, Step(env, w0, prep)) && Good(env, Run(env, Step(env, w0, prep), txs))
  {
    StepKept(env, w0, prep);
    RunGood(env, Step(env, w0, prep), txs);
  }

  /** A rollback that matches a prepare creates no money: prepare, any run, and the
      rollback together move the total by the run alone, but for credits that wrap. */
  lemma MatchedRollbackConserves(env: Env, w0: World, prep: Tx, txs: seq<Tx>, rollback: Tx)
    requires Addresses(env) && Good(env, w0) && PreparesBatch(env, w0, prep)
    requires RollbackList(prep.metas, rollback.metas)
    requires InstructionOf(rollback) == Some(RollbackBatchWithdraw(InstructionOf(prep).value.batch.tokens))
    requires Succeeds(env, Run(env, Step(env, w0, prep), txs), rollback)
    ensures var w1 := Step(env, w0, prep); var w := Run(env, w1, txs);
            TotalMoney(Step(env, w, rollback))
            == TotalMoney(w0) + RunInflow(env, w1, txs)
               - U64 * (StepCarries(env, w0, prep) + RunCarries(env, w1, txs) + StepCarries(env, w, rollback))
  {
    var w1 := Step(env, w0, prep);
    var tokens := InstructionOf(prep).value.batch.tokens;
    PreparedGood(env, w0, prep, txs);
    StepMoney(env, w0, prep);
    RunMoney(env, w1, txs);
    StepMoney(env, Run(env, w1, txs), rollback);
    PreparedInflow(env, w0, prep);
    RolledBackInflow(env, Run(env, w1, txs), rollback, tokens);
    OutflowByKey(prep.metas, rollback.metas, tokens);
  }
}
