/** Where money comes from and goes to, over every run: each transaction moves the
    total over all token accounts by what its instruction says, less 2^64 for each
    credit that wraps. */
module ArchConservation {
  import opened Machine
  import opened Wrappers
  import opened ArchTypes
  import opened ArchLedger
  import opened ArchFrames
  import opened ArchReports
  import opened ArchInvariants
  import opened ArchMoney
  import opened ArchSessions
  import opened ArchSubmittable
  import opened ArchWithdrawal

  // ---------------------------------------------------------------------------
  // Deposits
  // ---------------------------------------------------------------------------

  function DepositCarries(w: World, metas: seq<Meta>, ds: seq<TokenDeposits>): nat
    decreases |ds|
  {
    if ds == [] then 0 else
    match ExpectToken(w, metas, ds[0].account, true)
    case Err(_) => 0
    case Ok(t) =>
      match Adjust(t, ds[0].deposits, true)
      case Err(_) => 0
      case Ok(t') =>
        Carries(t, ds[0].deposits) + DepositCarries(w[metas[ds[0].account].key := Token(t')], metas, ds[1..])
  }

  lemma {:induction false} DepositAllMoney(w: World, metas: seq<Meta>, ds: seq<TokenDeposits>)
    requires DepositAll(w, metas, ds).Ok?
    ensures TotalMoney(DepositAll(w, metas, ds).value)
        == TotalMoney(w) + DepositSum(ds) - U64 * DepositCarries(w, metas, ds)
    decreases |ds|
  {
    if ds != [] {
      var t := ExpectToken(w, metas, ds[0].account, true).value;
      var t' := Adjust(t, ds[0].deposits, true).value;
      var key := metas[ds[0].account].key;
      IncrementsMoney(t, ds[0].deposits);
      StoreMoney(w, key, Token(t'));
      DepositAllMoney(w[key := Token(t')], metas, ds[1..]);
    }
  }

  // ---------------------------------------------------------------------------
  // Withdrawals and their rollback
  // ---------------------------------------------------------------------------

  /** What one withdrawal takes out of all accounts together: its amount, less a
      fee from the same account, which comes back to slot 0.  A fee from another
      account stays inside that account. */
  function Outflow(metas: seq<Meta>, account: u8, d: Withdrawal): int {
    d.amount - if OtherFee(metas, account, d) then 0 else d.feeAmount
  }

  function TokenOutflow(metas: seq<Meta>, account: u8, ds: seq<Withdrawal>): int {
    if ds == [] then 0 else Outflow(metas, account, ds[0]) + TokenOutflow(metas, account, ds[1..])
  }

  function BatchOutflow(metas: seq<Meta>, tokens: seq<TokenWithdrawals>): int {
    if tokens == [] then 0 else
    TokenOutflow(metas, tokens[0].account, tokens[0].withdrawals) + BatchOutflow(metas, tokens[1..])
  }

  function SlotWraps(w: World, k: Key, i: nat, amount: u64): nat {
    if At(w, k).Token? then Wraps(At(w, k).t, i, amount) else 0
  }

  /** The wraps in charging one withdrawal: only its fee is credited. */
  function ChargeCarries(w: World, metas: seq<Meta>, account: u8, d: Withdrawal): nat {
    if d.feeAmount == 0 then 0 else
    match TokenAt(w, metas, account)
    case Err(_) => 0
    case Ok(t) =>
      match Debit(t, d.address.index, d.amount)
      case Err(_) => 0
      case Ok(t') => SlotWraps(w[metas[account].key := Token(t')], KeyAt(metas, d.feeAccount), 0, d.feeAmount)
  }

  lemma ChargeOneMoney(w: World, metas: seq<Meta>, account: u8, d: Withdrawal, feeAddress: Bytes)
    requires ChargeOne(w, metas, account, d, feeAddress).Ok?
    ensures TotalMoney(ChargeOne(w, metas, account, d, feeAddress).value)
         == TotalMoney(w) - Outflow(metas, account, d) - U64 * ChargeCarries(w, metas, account, d)
  {
    var a := metas[account].key;
    var t := At(w, a).t;
    var t' := Debit(t, d.address.index, d.amount).value;
    var w1 := w[a := Token(t')];
    DebitMoney(t, d.address.index, d.amount);
    StoreMoney(w, a, Token(t'));
    if d.feeAmount > 0 {
      var k := metas[d.feeAccount].key;
      var f := At(w1, k).t;
      var f1 := Credit(f, 0, d.feeAmount).value;
      CreditMoney(f, 0, d.feeAmount);
      if k != a {
        DebitMoney(f1, d.feeAddress.index, d.feeAmount);
        StoreMoney(w1, k, Token(Debit(f1, d.feeAddress.index, d.feeAmount).value));
      } else {
        StoreMoney(w1, k, Token(f1));
      }
    }
  }

  function TokenChargeCarries(w: World, metas: seq<Meta>, account: u8, ds: seq<Withdrawal>, feeAddress: Bytes): nat
    decreases |ds|
  {
    if ds == [] then 0 else
    match ChargeOne(w, metas, account, ds[0], feeAddress)
    case Err(_) => 0
    case Ok(w') => ChargeCarries(w, metas, account, ds[0]) + TokenChargeCarries(w', metas, account, ds[1..], feeAddress)
  }

  /** Charging all withdrawals of one account, in order. */
  function ChargeToken(w: World, metas: seq<Meta>, account: u8, ds: seq<Withdrawal>, feeAddress: Bytes): Result<World>
    decreases |ds|
  {
    if ds == [] then Ok(w) else
    var w' :- ChargeOne(w, metas, account, ds[0], feeAddress);
    ChargeToken(w', metas, account, ds[1..], feeAddress)
  }

  function BatchChargeCarries(w: World, metas: seq<Meta>, tokens: seq<TokenWithdrawals>, feeAddress: Bytes): nat
    decreases |tokens|
  {
    if tokens == [] then 0 else
    match ChargeToken(w, metas, tokens[0].account, tokens[0].withdrawals, feeAddress)
    case Err(_) => 0
    case Ok(w') =>
      TokenChargeCarries(w, metas, tokens[0].account, tokens[0].withdrawals, feeAddress)
      + BatchChargeCarries(w', metas, tokens[1..], feeAddress)
  }

  lemma {:induction false} PrepareTokenMoney(env: Env, x: Draft, metas: seq<Meta>, account: u8, ds: seq<Withdrawal>,
                                             feeAddress: Bytes, network: Network)
    requires PrepareToken(env, x, metas, account, ds, feeAddress, network).Ok?
    ensures ChargeToken(x.w, metas, account, ds, feeAddress)
         == Ok(PrepareToken(env, x, metas, account, ds, feeAddress, network).value.w)
    ensures TotalMoney(PrepareToken(env, x, metas, account, ds, feeAddress, network).value.w)
         == TotalMoney(x.w) - TokenOutflow(metas, account, ds)
             - U64 * TokenChargeCarries(x.w, metas, account, ds, feeAddress)
    decreases |ds|
  {
    if ds != [] {
      ChargeOneMoney(x.w, metas, account, ds[0], feeAddress);
      var x' := PrepareOne(env, x, metas, account, ds[0], feeAddress, network).value;
      PrepareTokenMoney(env, x', metas, account, ds[1..], feeAddress, network);
    }
  }

  lemma {:induction false} PrepareAllMoney(env: Env, x: Draft, metas: seq<Meta>, tokens: seq<TokenWithdrawals>,
                                           feeAddress: Bytes, network: Network)
    requires PrepareAll(env, x, metas, tokens, feeAddress, network).Ok?
    ensures TotalMoney(PrepareAll(env, x, metas, tokens, feeAddress, network).value.w)
         == TotalMoney(x.w) - BatchOutflow(metas, tokens) - U64 * BatchChargeCarries(x.w, metas, tokens, feeAddress)
    decreases |tokens|
  {
    if tokens != [] {
      var y := tokens[0];
      PrepareTokenMoney(env, x, metas, y.account, y.withdrawals, feeAddress, network);
      var x' := PrepareToken(env, x, metas, y.account, y.withdrawals, feeAddress, network).value;
      PrepareAllMoney(env, x', metas, tokens[1..], feeAddress, network);
    }
  }

  /** The wraps in refunding one withdrawal: the amount, and a fee that goes back
      to another account. */
  function RefundCarries(w: World, metas: seq<Meta>, account: u8, d: Withdrawal): nat {
    match TokenAt(w, metas, account)
    case Err(_) => 0
    case Ok(t) =>
      Wraps(t, d.address.index, d.amount)
      + if !OtherFee(metas, account, d) then 0 else
        match TokenAt(w, metas, d.feeAccount)
        case Err(_) => 0
        case Ok(f) =>
          match Debit(f, 0, d.feeAmount)
          case Err(_) => 0
          case Ok(f1) => Wraps(f1, d.feeAddress.index, d.feeAmount)
  }

  lemma RefundOneMoney(w: World, metas: seq<Meta>, account: u8, d: Withdrawal, feeAddress: Bytes)
    requires RefundOne(w, metas, account, d, feeAddress).Ok?
    ensures TotalMoney(RefundOne(w, metas, account, d, feeAddress).value)
         == TotalMoney(w) + Outflow(metas, account, d) - U64 * RefundCarries(w, metas, account, d)
  {
    var a := metas[account].key;
    var t := At(w, a).t;
    var t' := Credit(t, d.address.index, d.amount).value;
    var w1 := w[a := Token(t')];
    CreditMoney(t, d.address.index, d.amount);
    StoreMoney(w, a, Token(t'));
    if d.feeAmount > 0 {
      var k := metas[d.feeAccount].key;
      var f := At(w1, k).t;
      var f1 := Debit(f, 0, d.feeAmount).value;
      DebitMoney(f, 0, d.feeAmount);
      if k != a {
        CreditMoney(f1, d.feeAddress.index, d.feeAmount);
        StoreMoney(w1, k, Token(Credit(f1, d.feeAddress.index, d.feeAmount).value));
      } else {
        StoreMoney(w1, k, Token(f1));
      }
    }
  }

  function TokenRefundCarries(w: World, metas: seq<Meta>, account: u8, ds: seq<Withdrawal>, feeAddress: Bytes): nat
    decreases |ds|
  {
    if ds == [] then 0 else
    match RefundOne(w, metas, account, ds[0], feeAddress)
    case Err(_) => 0
    case Ok(w') => RefundCarries(w, metas, account, ds[0]) + TokenRefundCarries(w', metas, account, ds[1..], feeAddress)
  }

  function BatchRefundCarries(w: World, metas: seq<Meta>, tokens: seq<TokenWithdrawals>, feeAddress: Bytes): nat
    decreases |tokens|
  {
    if tokens == [] then 0 else
    match RefundToken(w, metas, tokens[0].account, tokens[0].withdrawals, feeAddress)
    case Err(_) => 0
    case Ok(w') =>
      TokenRefundCarries(w, metas, tokens[0].account, tokens[0].withdrawals, feeAddress)
      + BatchRefundCarries(w', metas, tokens[1..], feeAddress)
  }

  lemma {:induction false} RefundTokenMoney(w: World, metas: seq<Meta>, account: u8, ds: seq<Withdrawal>,
                                            feeAddress: Bytes)
    requires RefundToken(w, metas, account, ds, feeAddress).Ok?
    ensures TotalMoney(RefundToken(w, metas, account, ds, feeAddress).value)
         == TotalMoney(w)
             + TokenOutflow(metas, account, ds) - U64 * TokenRefundCarries(w, metas, account, ds, feeAddress)
    decreases |ds|
  {
    if ds != [] {
      RefundOneMoney(w, metas, account, ds[0], feeAddress);
      RefundTokenMoney(RefundOne(w, metas, account, ds[0], feeAddress).value, metas, account, ds[1..], feeAddress);
    }
  }

  lemma {:induction false} RefundAllMoney(w: World, metas: seq<Meta>, tokens: seq<TokenWithdrawals>, feeAddress: Bytes)
    requires RefundAll(w, metas, tokens, feeAddress).Ok?
    ensures TotalMoney(RefundAll(w, metas, tokens, feeAddress).value)
         == TotalMoney(w) + BatchOutflow(metas, tokens) - U64 * BatchRefundCarries(w, metas, tokens, feeAddress)
    decreases |tokens|
  {
    if tokens != [] {
      var y := tokens[0];
      RefundTokenMoney(w, metas, y.account, y.withdrawals, feeAddress);
      var w1 := RefundToken(w, metas, y.account, y.withdrawals, feeAddress).value;
      RefundAllMoney(w1, metas, tokens[1..], feeAddress);
    }
  }

  // ---------------------------------------------------------------------------
  // Setting up
  // ---------------------------------------------------------------------------

  lemma AddWalletsMoney(env: Env, t: TokenState, original: nat, wallets: seq<Bytes>, network: Network)
    requires Sized(t) && original % 10240 == 0 && original <= MAX_PERMITTED_DATA_LENGTH
    requires t.size == original || t.size == original + MAX_PERMITTED_DATA_INCREASE
    requires AddWallets(env, t, original, wallets, network).Ok?
    ensures Money(AddWallets(env, t, original, wallets, network).value) == Money(t)
  {
    AddWalletsShape(env, t, original, wallets, network);
    var t' := AddWallets(env, t, original, wallets, network).value;
    forall j | 0 <= j < |t'.slots| ensures t'.slots[j].amount == if j < |t.slots| then t.slots[j].amount else 0 {
      AddWalletsSlot(env, t, original, wallets, network, j);
    }
    SameAmountsSameSum(t.slots, t'.slots);
  }

  lemma SetUpOneMoney(env: Env, original: World, w: World, metas: seq<Meta>, setup: TokenSetup, network: Network,
                      t': TokenState)
    requires Good(env, original) && SettingUp(env, original, w) && ExpectToken(w, metas, setup.account, true).Ok?
    requires var key := metas[setup.account].key;
             AddWallets(env, At(w, key).t, SizeOf(At(original, key)), setup.wallets, network) == Ok(t')
    ensures TotalMoney(w[metas[setup.account].key := Token(t')]) == TotalMoney(w)
  {
    var key := metas[setup.account].key;
    assert GoodAccount(env, At(w, key)) && GoodAccount(env, At(original, key));
    assert SizeOf(At(w, key)) == At(w, key).t.size;
    AddWalletsMoney(env, At(w, key).t, SizeOf(At(original, key)), setup.wallets, network);
    StoreMoney(w, key, Token(t'));
  }

  lemma {:induction false} SetUpMoney(env: Env, original: World, w: World, metas: seq<Meta>,
                                      setups: seq<TokenSetup>, network: Network)
    requires Addresses(env) && Good(env, original) && SettingUp(env, original, w)
    requires 0 < |metas| && SetUpTokens(env, original, w, metas, setups, network).Ok?
    ensures TotalMoney(SetUpTokens(env, original, w, metas, setups, network).value) == TotalMoney(w)
    decreases |setups|
  {
    if setups != [] {
      var key := metas[setups[0].account].key;
      var t' := AddWallets(env, At(w, key).t, SizeOf(At(original, key)), setups[0].wallets, network).value;
      SetUpOneKept(env, original, w, metas, setups[0], network, t');
      SetUpOneMoney(env, original, w, metas, setups[0], network, t');
      SetUpMoney(env, original, w[key := Token(t')], metas, setups[1..], network);
    }
  }

  lemma InitTokenMoney(env: Env, w: World, metas: seq<Meta>, id: Bytes)
    requires InitToken(env, w, metas, id).Ok?
    ensures TotalMoney(InitToken(env, w, metas, id).value) == TotalMoney(w)
  {
    var w' := InitToken(env, w, metas, id).value;
    NoMoney(SlotsIn(MAX_PERMITTED_DATA_INCREASE));
    if env.rune(id).None? {
      SlotSumSet(NoSlots(SlotsIn(MAX_PERMITTED_DATA_INCREASE)), 0, w'[metas[1].key].t.slots[0]);
    }
    StoreMoney(w, metas[1].key, w'[metas[1].key]);
  }

  lemma InitProgramMoney(env: Env, w: World, metas: seq<Meta>, fee: Bytes, change: Bytes, network: Network)
    requires InitProgram(env, w, metas, fee, change, network).Ok?
    ensures TotalMoney(InitProgram(env, w, metas, fee, change, network).value) == TotalMoney(w)
  {
    var p := NewProgram(metas[1].key, fee, change, network);
    var w1 := w[metas[0].key := Program(p)];
    StoreMoney(w, metas[0].key, Program(p));
    if |metas| == 3 {
      AddReceiverMoney(w1, metas, p);
    } else {
      StoreMoney(w1, metas[1].key, Withdraw(metas[0].key, EMPTY_HASH));
    }
  }

  lemma AddReceiverMoney(w: World, metas: seq<Meta>, p: ProgramState)
    requires |metas| > 1 && !At(w, metas[0].key).Token? && !At(w, metas[1].key).Token?
    ensures TotalMoney(AddReceiver(w, metas, p)) == TotalMoney(w)
  {
    var w1 := w[metas[1].key := RuneReceiver(metas[0].key)];
    StoreMoney(w, metas[1].key, RuneReceiver(metas[0].key));
    if p.runeReceiver.None? {
      StoreMoney(w1, metas[0].key, Program(p.(runeReceiver := Some(metas[1].key))));
    }
  }

  // ---------------------------------------------------------------------------
  // Every transaction and every run
  // ---------------------------------------------------------------------------

  /** What an instruction that goes through adds to the total. */
  function Inflow(env: Env, w: World, metas: seq<Meta>, i: Instruction): int {
    match i
    case BatchDeposit(ds) => DepositSum(ds)
    case PrepareBatchWithdraw(b) => if NothingToReport(env, w, metas, b) then -BatchOutflow(metas, b.tokens) else 0
    case SubmitBatchSettlement(ss) => BatchCredits(ss) - BatchDebits(ss)
    case RollbackBatchWithdraw(tokens) => BatchOutflow(metas, tokens)
    case _ => 0
  }

  function FeeAddressOf(w: World, metas: seq<Meta>): Bytes {
    var a := At(w, KeyAt(metas, 0));
    if a.Program? then UpToNul(a.p.feeAccount) else []
  }

  /** The credits of an instruction that wrap. */
  function AllCarries(env: Env, w: World, metas: seq<Meta>, i: Instruction): nat {
    match i
    case BatchDeposit(ds) => DepositCarries(w, metas, ds)
    case PrepareBatchWithdraw(b) =>
      if NothingToReport(env, w, metas, b)
          then BatchChargeCarries(Reported(env, w, metas, b), metas, b.tokens, FeeAddressOf(w, metas)) else 0
    case SubmitBatchSettlement(ss) => BatchCarries(w, metas, ss)
    case RollbackBatchWithdraw(tokens) => BatchRefundCarries(w, metas, tokens, FeeAddressOf(w, metas))
    case _ => 0
  }

  /** The accounts once the report is written, on which the batch then acts. */
  function Reported(env: Env, w: World, metas: seq<Meta>, b: WithdrawBatch): World {
    match CheckWithdraw(env, w, metas, b)
    case Err(_) => w
    case Ok(p) => w[KeyAt(metas, 0) := Program(p)]
  }

  lemma PrepareWithdrawMoney(env: Env, w: World, metas: seq<Meta>, b: WithdrawBatch, raw: Bytes)
    requires PrepareWithdraw(env, w, metas, b, raw).Ok?
    ensures TotalMoney(PrepareWithdraw(env, w, metas, b, raw).value)
         == TotalMoney(w) + Inflow(env, w, metas, PrepareBatchWithdraw(b))
             - U64 * AllCarries(env, w, metas, PrepareBatchWithdraw(b))
  {
    var p1 := CheckWithdraw(env, w, metas, b).value;
    CheckWithdrawFrame(env, w, metas, b);
    var w1 := w[metas[0].key := Program(p1)];
    StoreMoney(w, metas[0].key, Program(p1));
    if p1.events == [] {
      DraftWithdrawFrame(env, w, metas, b, p1);
      DraftMoney(env, w1, metas, b, p1, Withdraw(metas[0].key, env.sha(raw)));
    }
  }

  lemma DraftMoney(env: Env, w1: World, metas: seq<Meta>, b: WithdrawBatch, p1: ProgramState, done: Account)
    requires DraftWithdraw(env, w1, metas, b, p1).Ok? && |metas| > 1 && done.Withdraw? && At(w1, metas[1].key).Withdraw?
    requires var w2 := DraftWithdraw(env, w1, metas, b, p1).value.w; At(w2, metas[1].key) == At(w1, metas[1].key)
    ensures TotalMoney(DraftWithdraw(env, w1, metas, b, p1).value.w[metas[1].key := done])
         == TotalMoney(w1) - BatchOutflow(metas, b.tokens)
             - U64 * BatchChargeCarries(w1, metas, b.tokens, UpToNul(p1.feeAccount))
  {
    PrepareAllMoney(env, Draft(w1, NO_PAYOUT), metas, b.tokens, UpToNul(p1.feeAccount), p1.network);
    StoreMoney(DraftWithdraw(env, w1, metas, b, p1).value.w, metas[1].key, done);
  }

  lemma SubmitSettlementMoney(env: Env, w: World, metas: seq<Meta>, ss: seq<Settlement>, raw: Bytes)
    requires SubmitSettlement(env, w, metas, ss, raw).Ok?
    ensures TotalMoney(SubmitSettlement(env, w, metas, ss, raw).value)
         == TotalMoney(w) + BatchCredits(ss) - BatchDebits(ss) - U64 * BatchCarries(w, metas, ss)
  {
    var w1 := SettleAll(w, metas, ss).value;
    SettleAllMoney(w, metas, ss);
    SettleAllFrame(w, metas, ss);
    assert At(w1, metas[0].key) == At(w, metas[0].key);
    StoreMoney(w1, metas[0].key, At(SubmitSettlement(env, w, metas, ss, raw).value, metas[0].key));
  }

  lemma RollbackWithdrawMoney(w: World, metas: seq<Meta>, tokens: seq<TokenWithdrawals>)
    requires RollbackWithdraw(w, metas, tokens).Ok?
    ensures TotalMoney(RollbackWithdraw(w, metas, tokens).value)
         == TotalMoney(w)
             + BatchOutflow(metas, tokens) - U64 * BatchRefundCarries(w, metas, tokens, FeeAddressOf(w, metas))
  {
    var feeAddress := FeeAddressOf(w, metas);
    var w1 := RefundAll(w, metas, tokens, feeAddress).value;
    RefundAllMoney(w, metas, tokens, feeAddress);
    RefundAllFrame(w, metas, tokens, feeAddress);
    assert At(w1, metas[1].key) == At(w, metas[1].key);
    StoreMoney(w1, metas[1].key, Withdraw(metas[0].key, EMPTY_HASH));
  }

  lemma SettingUpMoney(env: Env, w: World, metas: seq<Meta>, programId: Key, i: Instruction, raw: Bytes)
    requires Addresses(env) && Good(env, w) && Perform(env, w, metas, programId, i, raw).Ok?
    requires i.InitProgramState? || i.InitTokenState? || i.InitWalletBalances? || i.InitRuneReceiverState?
        || i.SetTokenRuneId?
    ensures TotalMoney(Perform(env, w, metas, programId, i, raw).value) == TotalMoney(w)
  {
    match i
    case InitProgramState(fee, change, network) => InitProgramMoney(env, w, metas, fee, change, network);
    case InitTokenState(id) => InitTokenMoney(env, w, metas, id);
    case InitWalletBalances(setups) => SetUpMoney(env, w, w, metas, setups, At(w, metas[0].key).p.network);
    case InitRuneReceiverState => AddReceiverMoney(w, metas, At(w, metas[0].key).p);
    case SetTokenRuneId(id) => StoreMoney(w, metas[1].key, At(SetRuneId(env, w, metas, id).value, metas[1].key));
  }

  lemma SessionMoney(env: Env, w: World, metas: seq<Meta>, programId: Key, i: Instruction, raw: Bytes)
    requires Perform(env, w, metas, programId, i, raw).Ok?
    requires i.PrepareBatchSettlement? || i.RollbackBatchSettlement? || i.SubmitBatchWithdraw?
        || i.UpdateWithdrawStateUtxo?
    ensures TotalMoney(Perform(env, w, metas, programId, i, raw).value) == TotalMoney(w)
  {
    var w' := Perform(env, w, metas, programId, i, raw).value;
    match i
    case PrepareBatchSettlement(ss) => StoreMoney(w, metas[0].key, At(w', metas[0].key));
    case RollbackBatchSettlement => StoreMoney(w, metas[0].key, At(w', metas[0].key));
    case SubmitBatchWithdraw(b) => StoreMoney(w, metas[1].key, Withdraw(metas[0].key, EMPTY_HASH));
    case UpdateWithdrawStateUtxo(_, _) =>
  }

  lemma PerformMoney(env: Env, w: World, metas: seq<Meta>, programId: Key, i: Instruction, raw: Bytes)
    requires Addresses(env) && Good(env, w) && Perform(env, w, metas, programId, i, raw).Ok?
    ensures TotalMoney(Perform(env, w, metas, programId, i, raw).value)
         == TotalMoney(w) + Inflow(env, w, metas, i) - U64 * AllCarries(env, w, metas, i)
  {
    match i
    case BatchDeposit(ds) => DepositAllMoney(w, metas, ds);
    case PrepareBatchWithdraw(b) => PrepareWithdrawMoney(env, w, metas, b, raw);
    case SubmitBatchSettlement(ss) => SubmitSettlementMoney(env, w, metas, ss, raw);
    case RollbackBatchWithdraw(tokens) => RollbackWithdrawMoney(w, metas, tokens);
    case _ =>
      if i.PrepareBatchSettlement? || i.RollbackBatchSettlement? || i.SubmitBatchWithdraw?
          || i.UpdateWithdrawStateUtxo? {
        SessionMoney(env, w, metas, programId, i, raw);
      } else {
        SettingUpMoney(env, w, metas, programId, i, raw);
      }
  }

  function StepInflow(env: Env, w: World, tx: Tx): int {
    if Succeeds(env, w, tx) then Inflow(env, w, tx.metas, InstructionOf(tx).value) else 0
  }

  function StepCarries(env: Env, w: World, tx: Tx): nat {
    if Succeeds(env, w, tx) then AllCarries(env, w, tx.metas, InstructionOf(tx).value) else 0
  }

  lemma StepMoney(env: Env, w: World, tx: Tx)
    requires Addresses(env) && Good(env, w)
    ensures TotalMoney(Step(env, w, tx)) == TotalMoney(w) + StepInflow(env, w, tx) - U64 * StepCarries(env, w, tx)
  {
    if Succeeds(env, w, tx) {
      PerformMoney(env, w, tx.metas, tx.programId, InstructionOf(tx).value, RawOf(tx));
    }
  }

  function RunInflow(env: Env, w: World, txs: seq<Tx>): int {
    if txs == [] then 0 else
    var front := txs[..|txs| - 1];
    RunInflow(env, w, front) + StepInflow(env, Run(env, w, front), txs[|txs| - 1])
  }

  function RunCarries(env: Env, w: World, txs: seq<Tx>): nat {
    if txs == [] then 0 else
    var front := txs[..|txs| - 1];
    RunCarries(env, w, front) + StepCarries(env, Run(env, w, front), txs[|txs| - 1])
  }

  /** Conservation over every run: the total over all token accounts moves by the
      deposits, less what prepared withdrawals take out, plus what rollbacks give
      back, plus what settlements credit beyond what they debit, less 2^64 for each
      credit that wraps; and by nothing else. */
  lemma {:induction false} RunMoney(env: Env, w: World, txs: seq<Tx>)
    requires Addresses(env) && Good(env, w)
    ensures TotalMoney(Run(env, w, txs)) == TotalMoney(w) + RunInflow(env, w, txs) - U64 * RunCarries(env, w, txs)
  {
    if txs != [] {
      var front, last := txs[..|txs| - 1], txs[|txs| - 1];
      RunMoney(env, w, front);
      RunGood(env, w, front);
      StepMoney(env, Run(env, w, front), last);
    }
  }
}
