/** Who has to sign an instruction, and what it may write: an instruction goes through
    only if the first account signs it, and changes only accounts that are listed as
    writable. */
module ArchAuthority {
  import opened Machine
  import opened ArchTypes
  import opened ArchLedger
  import opened ArchReports
  import opened ArchInvariants
  import opened ArchSessions

  predicate Writable(metas: seq<Meta>, k: Key) {
    exists i :: 0 <= i < |metas| && metas[i].key == k && metas[i].writable
  }

  /** Only accounts that are listed as writable differ. */
  ghost predicate WritesOnly(w: World, w': World, metas: seq<Meta>) {
    forall k: Key {:trigger At(w', k)} :: At(w', k) == At(w, k) || Writable(metas, k)
  }

  lemma WritesTrans(w: World, w1: World, w2: World, metas: seq<Meta>)
    requires WritesOnly(w, w1, metas) && WritesOnly(w1, w2, metas)
    ensures WritesOnly(w, w2, metas)
  {
    forall k: Key ensures At(w2, k) == At(w, k) || Writable(metas, k) {
      assert At(w1, k) == At(w, k) || Writable(metas, k);
    }
  }

  lemma StoreWrites(w: World, metas: seq<Meta>, i: nat, a: Account)
    requires i < |metas| && metas[i].writable
    ensures WritesOnly(w, w[metas[i].key := a], metas)
  {
    assert Writable(metas, metas[i].key);
  }

  lemma {:induction false} DepositWrites(w: World, metas: seq<Meta>, ds: seq<TokenDeposits>)
    requires DepositAll(w, metas, ds).Ok?
    ensures WritesOnly(w, DepositAll(w, metas, ds).value, metas)
    decreases |ds|
  {
    if ds != [] {
      var t' := Adjust(ExpectToken(w, metas, ds[0].account, true).value, ds[0].deposits, true).value;
      var w1 := w[metas[ds[0].account].key := Token(t')];
      StoreWrites(w, metas, ds[0].account, Token(t'));
      DepositWrites(w1, metas, ds[1..]);
      WritesTrans(w, w1, DepositAll(w, metas, ds).value, metas);
    }
  }

  lemma {:induction false} SetUpWrites(env: Env, original: World, w: World, metas: seq<Meta>, setups: seq<TokenSetup>,
                                       network: Network)
    requires SetUpTokens(env, original, w, metas, setups, network).Ok?
    ensures WritesOnly(w, SetUpTokens(env, original, w, metas, setups, network).value, metas)
    decreases |setups|
  {
    if setups != [] {
      var i := setups[0].account;
      var t' := AddWallets(env, ExpectToken(w, metas, i, true).value, SizeOf(At(original, metas[i].key)),
                           setups[0].wallets, network).value;
      var w1 := w[metas[i].key := Token(t')];
      StoreWrites(w, metas, i, Token(t'));
      SetUpWrites(env, original, w1, metas, setups[1..], network);
      WritesTrans(w, w1, SetUpTokens(env, original, w, metas, setups, network).value, metas);
    }
  }

  lemma {:induction false} SettleWrites(w: World, metas: seq<Meta>, ss: seq<Settlement>)
    requires SettleAll(w, metas, ss).Ok?
    ensures WritesOnly(w, SettleAll(w, metas, ss).value, metas)
    decreases |ss|
  {
    if ss != [] {
      var t' := SettleToken(ExpectToken(w, metas, ss[0].account, true).value, ss[0]).value;
      var w1 := w[metas[ss[0].account].key := Token(t')];
      StoreWrites(w, metas, ss[0].account, Token(t'));
      SettleWrites(w1, metas, ss[1..]);
      WritesTrans(w, w1, SettleAll(w, metas, ss).value, metas);
    }
  }

  predicate ListedWritable(metas: seq<Meta>, i: nat) {
    i < |metas| && metas[i].writable
  }

  lemma ChargeWrites(w: World, metas: seq<Meta>, account: u8, d: Withdrawal, feeAddress: Bytes)
    requires ChargeOne(w, metas, account, d, feeAddress).Ok?
    requires ListedWritable(metas, account) && ListedWritable(metas, d.feeAccount)
    ensures WritesOnly(w, ChargeOne(w, metas, account, d, feeAddress).value, metas)
  {
    var k := metas[account].key;
    var t' := Debit(At(w, k).t, d.address.index, d.amount).value;
    var w1, w2 := w[k := Token(t')], ChargeOne(w, metas, account, d, feeAddress).value;
    StoreWrites(w, metas, account, Token(t'));
    if d.feeAmount > 0 {
      StoreWrites(w1, metas, d.feeAccount, w2[metas[d.feeAccount].key]);
    }
    WritesTrans(w, w1, w2, metas);
  }

  lemma {:induction false} PrepareTokenWrites(env: Env, x: Draft, metas: seq<Meta>, account: u8, ds: seq<Withdrawal>,
                                              feeAddress: Bytes, network: Network)
    requires PrepareToken(env, x, metas, account, ds, feeAddress, network).Ok?
    requires ListedWritable(metas, account) && forall d | d in ds :: ListedWritable(metas, d.feeAccount)
    ensures WritesOnly(x.w, PrepareToken(env, x, metas, account, ds, feeAddress, network).value.w, metas)
    decreases |ds|
  {
    if ds != [] {
      assert ds[0] in ds;
      ChargeWrites(x.w, metas, account, ds[0], feeAddress);
      var x' := PrepareOne(env, x, metas, account, ds[0], feeAddress, network).value;
      PrepareTokenWrites(env, x', metas, account, ds[1..], feeAddress, network);
      WritesTrans(x.w, x'.w, PrepareToken(env, x, metas, account, ds, feeAddress, network).value.w, metas);
    }
  }

  lemma {:induction false} PrepareAllWrites(env: Env, x: Draft, metas: seq<Meta>, tokens: seq<TokenWithdrawals>,
                                            feeAddress: Bytes, network: Network)
    requires PrepareAll(env, x, metas, tokens, feeAddress, network).Ok?
    requires forall y | y in tokens :: ListedWritable(metas, y.account)
               && forall d | d in y.withdrawals :: ListedWritable(metas, d.feeAccount)
    ensures WritesOnly(x.w, PrepareAll(env, x, metas, tokens, feeAddress, network).value.w, metas)
    decreases |tokens|
  {
    if tokens != [] {
      var y := tokens[0];
      assert y in tokens && forall z | z in tokens[1..] :: z in tokens;
      PrepareTokenWrites(env, x, metas, y.account, y.withdrawals, feeAddress, network);
      var x' := PrepareToken(env, x, metas, y.account, y.withdrawals, feeAddress, network).value;
      PrepareAllWrites(env, x', metas, tokens[1..], feeAddress, network);
      WritesTrans(x.w, x'.w, PrepareAll(env, x, metas, tokens, feeAddress, network).value.w, metas);
    }
  }

  lemma RefundWrites(w: World, metas: seq<Meta>, account: u8, d: Withdrawal, feeAddress: Bytes)
    requires RefundOne(w, metas, account, d, feeAddress).Ok? && ListedWritable(metas, account)
    ensures WritesOnly(w, RefundOne(w, metas, account, d, feeAddress).value, metas)
  {
    var k := metas[account].key;
    var t' := Credit(At(w, k).t, d.address.index, d.amount).value;
    var w1, w2 := w[k := Token(t')], RefundOne(w, metas, account, d, feeAddress).value;
    StoreWrites(w, metas, account, Token(t'));
    if d.feeAmount > 0 {
      StoreWrites(w1, metas, d.feeAccount, w2[metas[d.feeAccount].key]);
    }
    WritesTrans(w, w1, w2, metas);
  }

  lemma {:induction false} RefundTokenWrites(w: World, metas: seq<Meta>, account: u8, ds: seq<Withdrawal>,
                                             feeAddress: Bytes)
    requires RefundToken(w, metas, account, ds, feeAddress).Ok? && ListedWritable(metas, account)
    ensures WritesOnly(w, RefundToken(w, metas, account, ds, feeAddress).value, metas)
    decreases |ds|
  {
    if ds != [] {
      RefundWrites(w, metas, account, ds[0], feeAddress);
      var w1 := RefundOne(w, metas, account, ds[0], feeAddress).value;
      RefundTokenWrites(w1, metas, account, ds[1..], feeAddress);
      WritesTrans(w, w1, RefundToken(w, metas, account, ds, feeAddress).value, metas);
    }
  }

  lemma {:induction false} RefundAllWrites(w: World, metas: seq<Meta>, tokens: seq<TokenWithdrawals>, feeAddress: Bytes)
    requires RefundAll(w, metas, tokens, feeAddress).Ok?
    ensures WritesOnly(w, RefundAll(w, metas, tokens, feeAddress).value, metas)
    decreases |tokens|
  {
    if tokens != [] {
      var x := tokens[0];
      RefundTokenWrites(w, metas, x.account, x.withdrawals, feeAddress);
      var w1 := RefundToken(w, metas, x.account, x.withdrawals, feeAddress).value;
      RefundAllWrites(w1, metas, tokens[1..], feeAddress);
      WritesTrans(w, w1, RefundAll(w, metas, tokens, feeAddress).value, metas);
    }
  }

  // ---------------------------------------------------------------------------
  // Every instruction
  // ---------------------------------------------------------------------------

  lemma PrepareWithdrawWrites(env: Env, w: World, metas: seq<Meta>, b: WithdrawBatch, raw: Bytes)
    requires PrepareWithdraw(env, w, metas, b, raw).Ok?
    ensures WritesOnly(w, PrepareWithdraw(env, w, metas, b, raw).value, metas)
  {
    var p1 := CheckWithdraw(env, w, metas, b).value;
    var w1 := w[metas[0].key := Program(p1)];
    StoreWrites(w, metas, 0, Program(p1));
    CheckWithdrawFrame(env, w, metas, b);
    if p1.events == [] {
      var p := At(w, metas[0].key).p;
      BatchReport(env, w, metas, b.tokens, p.network, ClearEvents(p));
      AllPayableListed(env, w, metas, b.tokens, p.network);
      DraftWrites(env, w1, metas, b, p1);
      var x := DraftWithdraw(env, w1, metas, b, p1).value;
      WritesTrans(w, w1, x.w, metas);
      StoreWrites(x.w, metas, 1, Withdraw(metas[0].key, env.sha(raw)));
      WritesTrans(w, x.w, x.w[metas[1].key := Withdraw(metas[0].key, env.sha(raw))], metas);
    }
  }

  lemma AllPayableListed(env: Env, w: World, metas: seq<Meta>, tokens: seq<TokenWithdrawals>, network: Network)
    requires forall x | x in tokens :: AllPayable(env, w, metas, x, network)
    ensures forall y | y in tokens :: ListedWritable(metas, y.account)
               && forall d | d in y.withdrawals :: ListedWritable(metas, d.feeAccount)
  {
  }

  lemma DraftWrites(env: Env, w1: World, metas: seq<Meta>, b: WithdrawBatch, p1: ProgramState)
    requires DraftWithdraw(env, w1, metas, b, p1).Ok?
    requires forall y | y in b.tokens :: ListedWritable(metas, y.account)
               && forall d | d in y.withdrawals :: ListedWritable(metas, d.feeAccount)
    ensures WritesOnly(w1, DraftWithdraw(env, w1, metas, b, p1).value.w, metas)
  {
    PrepareAllWrites(env, Draft(w1, NO_PAYOUT), metas, b.tokens, UpToNul(p1.feeAccount), p1.network);
  }

  lemma SetUpInstructionWrites(env: Env, w: World, metas: seq<Meta>, programId: Key, i: Instruction, raw: Bytes)
    requires i.InitProgramState? || i.InitTokenState? || i.InitRuneReceiverState? || i.SetTokenRuneId?
    requires Perform(env, w, metas, programId, i, raw).Ok?
    ensures WritesOnly(w, Perform(env, w, metas, programId, i, raw).value, metas)
  {
    assert ListedWritable(metas, 1) && Writable(metas, metas[1].key);
    assert ListedWritable(metas, 0) ==> Writable(metas, metas[0].key);
  }

  lemma SubmitSettlementWrites(env: Env, w: World, metas: seq<Meta>, ss: seq<Settlement>, raw: Bytes)
    requires SubmitSettlement(env, w, metas, ss, raw).Ok?
    ensures WritesOnly(w, SubmitSettlement(env, w, metas, ss, raw).value, metas)
  {
    var w1, w2 := SettleAll(w, metas, ss).value, SubmitSettlement(env, w, metas, ss, raw).value;
    SettleWrites(w, metas, ss);
    StoreWrites(w1, metas, 0, w2[metas[0].key]);
    WritesTrans(w, w1, w2, metas);
  }

  lemma RollbackWithdrawWrites(w: World, metas: seq<Meta>, tokens: seq<TokenWithdrawals>)
    requires RollbackWithdraw(w, metas, tokens).Ok?
    ensures WritesOnly(w, RollbackWithdraw(w, metas, tokens).value, metas)
  {
    var fee := UpToNul(At(w, metas[0].key).p.feeAccount);
    var w1 := RefundAll(w, metas, tokens, fee).value;
    RefundAllWrites(w, metas, tokens, fee);
    StoreWrites(w1, metas, 1, Withdraw(metas[0].key, EMPTY_HASH));
    WritesTrans(w, w1, RollbackWithdraw(w, metas, tokens).value, metas);
  }

  /** Whatever instruction goes through was signed by the first account, and changes no
      account that is not listed as writable. */
  lemma OnlyWritable(env: Env, w: World, metas: seq<Meta>, programId: Key, i: Instruction, raw: Bytes)
    requires Perform(env, w, metas, programId, i, raw).Ok?
    ensures 0 < |metas| && metas[0].signer
    ensures WritesOnly(w, Perform(env, w, metas, programId, i, raw).value, metas)
  {
    match i
    case InitWalletBalances(setups) => SetUpWrites(env, w, w, metas, setups, At(w, metas[0].key).p.network);
    case BatchDeposit(ds) => DepositWrites(w, metas, ds);
    case PrepareBatchWithdraw(b) => PrepareWithdrawWrites(env, w, metas, b, raw);
    case PrepareBatchSettlement(ss) =>
      StoreWrites(w, metas, 0, At(PrepareSettlement(env, w, metas, ss, raw).value, metas[0].key));
    case SubmitBatchSettlement(ss) => SubmitSettlementWrites(env, w, metas, ss, raw);
    case RollbackBatchSettlement => StoreWrites(w, metas, 0, At(RollbackSettlement(w, metas).value, metas[0].key));
    case RollbackBatchWithdraw(tokens) => RollbackWithdrawWrites(w, metas, tokens);
    case SubmitBatchWithdraw(b) => StoreWrites(w, metas, 1, Withdraw(metas[0].key, EMPTY_HASH));
    case UpdateWithdrawStateUtxo(_, _) =>
    case _ => SetUpInstructionWrites(env, w, metas, programId, i, raw);
  }

  /** Over a transaction: no account that it does not list as writable changes. */
  lemma TransactionWrites(env: Env, w: World, tx: Tx)
    ensures WritesOnly(w, Step(env, w, tx), tx.metas)
    ensures Succeeds(env, w, tx) ==> 0 < |tx.metas| && tx.metas[0].signer
  {
    if Succeeds(env, w, tx) {
      OnlyWritable(env, w, tx.metas, tx.programId, InstructionOf(tx).value, RawOf(tx));
    }
  }
}
