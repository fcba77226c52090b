/** Runs without withdrawals, slot by slot: deposits and settlements credit and debit
    exactly the slots that they name, and everything else leaves amounts alone. */
module ArchAmounts {
  import opened Machine
  import opened Wrappers
  import opened ArchTypes
  import opened ArchLedger
  import opened ArchFrames
  import opened ArchChecks
  import opened ArchReports
  import opened ArchInvariants
  import opened ArchMoney
  import opened ArchSessions
  import opened ArchWithdrawal

  // ---------------------------------------------------------------------------
  // Deposits
  // ---------------------------------------------------------------------------

  /** What a list of adjustments says about slot `i`. */
  function AdjustedAt(adjs: seq<Adjustment>, i: nat): nat {
    if adjs == [] then 0 else (if adjs[0].address.index == i then adjs[0].amount else 0) + AdjustedAt(adjs[1..], i)
  }

  lemma {:induction false} AdjustAmount(t: TokenState, adjs: seq<Adjustment>, increment: bool, i: nat)
    requires Adjust(t, adjs, increment).Ok? && (increment ==> SlotAmount(t, i) + AdjustedAt(adjs, i) < U64)
    ensures var after := SlotAmount(Adjust(t, adjs, increment).value, i);
            if increment then after == SlotAmount(t, i) + AdjustedAt(adjs, i)
            else after + AdjustedAt(adjs, i) == SlotAmount(t, i)
    decreases |adjs|
  {
    if adjs != [] {
      AdjustAmount(AdjustOne(t, adjs[0], increment).value, adjs[1..], increment, i);
    }
  }

  function DepositedTo(metas: seq<Meta>, ds: seq<TokenDeposits>, s: Place): nat {
    if ds == [] then 0 else
    (if KeyAt(metas, ds[0].account) == s.0 then AdjustedAt(ds[0].deposits, s.1) else 0) + DepositedTo(metas, ds[1..], s)
  }

  lemma {:induction false} DepositAmount(w: World, metas: seq<Meta>, ds: seq<TokenDeposits>, s: Place)
    requires DepositAll(w, metas, ds).Ok? && Amount(w, s) + DepositedTo(metas, ds, s) < U64
    ensures Amount(DepositAll(w, metas, ds).value, s) == Amount(w, s) + DepositedTo(metas, ds, s)
    decreases |ds|
  {
    if ds != [] {
      var t := ExpectToken(w, metas, ds[0].account, true).value;
      var key := metas[ds[0].account].key;
      if key == s.0 {
        AdjustAmount(t, ds[0].deposits, true, s.1);
      }
      DepositAmount(w[key := Token(Adjust(t, ds[0].deposits, true).value)], metas, ds[1..], s);
    }
  }

  // ---------------------------------------------------------------------------
  // Settlements
  // ---------------------------------------------------------------------------

  function SettleCredits(s: Settlement, i: nat): nat {
    (if i == 0 then s.feeAmount else 0) + AdjustedAt(s.increments, i)
  }

  function SettledCredits(metas: seq<Meta>, ss: seq<Settlement>, s: Place): nat {
    if ss == [] then 0 else
    (if KeyAt(metas, ss[0].account) == s.0 then SettleCredits(ss[0], s.1) else 0) + SettledCredits(metas, ss[1..], s)
  }

  function SettledDebits(metas: seq<Meta>, ss: seq<Settlement>, s: Place): nat {
    if ss == [] then 0 else
    (if KeyAt(metas, ss[0].account) == s.0 then AdjustedAt(ss[0].decrements, s.1) else 0)
    + SettledDebits(metas, ss[1..], s)
  }

  lemma SettleAmount(t: TokenState, s: Settlement, i: nat)
    requires SettleToken(t, s).Ok? && SlotAmount(t, i) + SettleCredits(s, i) < U64
    ensures SlotAmount(SettleToken(t, s).value, i) + AdjustedAt(s.decrements, i)
         == SlotAmount(t, i) + SettleCredits(s, i)
  {
    var t1 := CreditFee(t, s.feeAmount).value;
    FeeMoney(t, s.feeAmount);
    var t2 := Adjust(t1, s.increments, true).value;
    AdjustAmount(t1, s.increments, true, i);
    AdjustAmount(t2, s.decrements, false, i);
  }

  lemma {:induction false} SettleAllAmount(w: World, metas: seq<Meta>, ss: seq<Settlement>, s: Place)
    requires SettleAll(w, metas, ss).Ok? && Amount(w, s) + SettledCredits(metas, ss, s) < U64
    ensures Amount(SettleAll(w, metas, ss).value, s) + SettledDebits(metas, ss, s)
         == Amount(w, s) + SettledCredits(metas, ss, s)
    decreases |ss|
  {
    if ss != [] {
      var t := ExpectToken(w, metas, ss[0].account, true).value;
      var key := metas[ss[0].account].key;
      if key == s.0 {
        SettleAmount(t, ss[0], s.1);
      }
      SettleAllAmount(w[key := Token(SettleToken(t, ss[0]).value)], metas, ss[1..], s);
    }
  }

  lemma SubmitSettlementAmount(env: Env, w: World, metas: seq<Meta>, ss: seq<Settlement>, raw: Bytes, s: Place)
    requires SubmitSettlement(env, w, metas, ss, raw).Ok? && Amount(w, s) + SettledCredits(metas, ss, s) < U64
    ensures Amount(SubmitSettlement(env, w, metas, ss, raw).value, s) + SettledDebits(metas, ss, s)
         == Amount(w, s) + SettledCredits(metas, ss, s)
  {
    SettleAllAmount(w, metas, ss, s);
    SettleAllFrame(w, metas, ss);
    assert At(SettleAll(w, metas, ss).value, metas[0].key) == At(w, metas[0].key);
  }

  // ---------------------------------------------------------------------------
  // Everything else
  // ---------------------------------------------------------------------------

  lemma SetUpOneAmount(env: Env, original: World, w: World, metas: seq<Meta>, setup: TokenSetup, network: Network,
                       t': TokenState, i: nat)
    requires Good(env, original) && SettingUp(env, original, w) && ExpectToken(w, metas, setup.account, true).Ok?
    requires var key := metas[setup.account].key;
             AddWallets(env, At(w, key).t, SizeOf(At(original, key)), setup.wallets, network) == Ok(t')
    ensures forall k: Key :: Amount(w[metas[setup.account].key := Token(t')], (k, i)) == Amount(w, (k, i))
  {
    var key := metas[setup.account].key;
    var t := At(w, key).t;
    assert GoodAccount(env, At(w, key)) && GoodAccount(env, At(original, key));
    AddWalletsShape(env, t, SizeOf(At(original, key)), setup.wallets, network);
    if i < |t'.slots| {
      AddWalletsSlot(env, t, SizeOf(At(original, key)), setup.wallets, network, i);
    }
  }

  /** New wallets start with what their slots held, which is nothing in new slots. */
  lemma {:induction false} SetUpAmount(env: Env, original: World, w: World, metas: seq<Meta>, setups: seq<TokenSetup>,
                                       network: Network, s: Place)
    requires Addresses(env) && Good(env, original) && SettingUp(env, original, w)
    requires 0 < |metas| && SetUpTokens(env, original, w, metas, setups, network).Ok?
    ensures Amount(SetUpTokens(env, original, w, metas, setups, network).value, s) == Amount(w, s)
    decreases |setups|
  {
    if setups != [] {
      var key := metas[setups[0].account].key;
      var t' := AddWallets(env, At(w, key).t, SizeOf(At(original, key)), setups[0].wallets, network).value;
      SetUpOneKept(env, original, w, metas, setups[0], network, t');
      SetUpOneAmount(env, original, w, metas, setups[0], network, t', s.1);
      SetUpAmount(env, original, w[key := Token(t')], metas, setups[1..], network, s);
    }
  }

  lemma InitAmount(env: Env, w: World, metas: seq<Meta>, programId: Key, i: Instruction, raw: Bytes, s: Place)
    requires i.InitProgramState? || i.InitTokenState? || i.InitRuneReceiverState? || i.SetTokenRuneId?
    requires Perform(env, w, metas, programId, i, raw).Ok?
    ensures Amount(Perform(env, w, metas, programId, i, raw).value, s) == Amount(w, s)
  {
  }

  lemma SessionAmount(env: Env, w: World, metas: seq<Meta>, programId: Key, i: Instruction, raw: Bytes, s: Place)
    requires i.PrepareBatchSettlement? || i.RollbackBatchSettlement? || i.SubmitBatchWithdraw?
        || i.UpdateWithdrawStateUtxo?
    requires Perform(env, w, metas, programId, i, raw).Ok?
    ensures Amount(Perform(env, w, metas, programId, i, raw).value, s) == Amount(w, s)
  {
    if i.PrepareBatchSettlement? {
      PrepareSettlementReport(env, w, metas, i.settlements, raw);
    }
  }

  // ---------------------------------------------------------------------------
  // Runs
  // ---------------------------------------------------------------------------

  /** Neither prepares a withdrawal nor rolls one back. */
  predicate NoWithdrawal(tx: Tx) {
    InstructionOf(tx).Some? ==>
      !InstructionOf(tx).value.PrepareBatchWithdraw? && !InstructionOf(tx).value.RollbackBatchWithdraw?
  }

  /** What a transaction that goes through credits to a slot. */
  function CreditedBy(env: Env, w: World, tx: Tx, s: Place): nat {
    if !Succeeds(env, w, tx) then 0 else
    match InstructionOf(tx).value
    case BatchDeposit(ds) => DepositedTo(tx.metas, ds, s)
    case SubmitBatchSettlement(ss) => SettledCredits(tx.metas, ss, s)
    case _ => 0
  }

  /** What a settlement that goes through debits from a slot. */
  function DebitedBy(env: Env, w: World, tx: Tx, s: Place): nat {
    if Succeeds(env, w, tx) && InstructionOf(tx).value.SubmitBatchSettlement?
    then SettledDebits(tx.metas, InstructionOf(tx).value.settlements, s) else 0
  }

  function RunCredited(env: Env, w: World, txs: seq<Tx>, s: Place): nat {
    if txs == [] then 0 else
    var front := txs[..|txs| - 1];
    RunCredited(env, w, front, s) + CreditedBy(env, Run(env, w, front), txs[|txs| - 1], s)
  }

  function RunDebited(env: Env, w: World, txs: seq<Tx>, s: Place): nat {
    if txs == [] then 0 else
    var front := txs[..|txs| - 1];
    RunDebited(env, w, front, s) + DebitedBy(env, Run(env, w, front), txs[|txs| - 1], s)
  }

  lemma StepAmount(env: Env, w: World, tx: Tx, s: Place)
    requires Addresses(env) && Good(env, w) && NoWithdrawal(tx) && Amount(w, s) + CreditedBy(env, w, tx, s) < U64
    ensures Amount(Step(env, w, tx), s) + DebitedBy(env, w, tx, s) == Amount(w, s) + CreditedBy(env, w, tx, s)
  {
    if Succeeds(env, w, tx) {
      var i := InstructionOf(tx).value;
      match i
      case BatchDeposit(ds) => DepositAmount(w, tx.metas, ds, s);
      case SubmitBatchSettlement(ss) => SubmitSettlementAmount(env, w, tx.metas, ss, RawOf(tx), s);
      case InitWalletBalances(setups) =>
        SetUpAmount(env, w, w, tx.metas, setups, At(w, tx.metas[0].key).p.network, s);
      case PrepareBatchSettlement(_) => SessionAmount(env, w, tx.metas, tx.programId, i, RawOf(tx), s);
      case RollbackBatchSettlement => SessionAmount(env, w, tx.metas, tx.programId, i, RawOf(tx), s);
      case SubmitBatchWithdraw(_) => SessionAmount(env, w, tx.metas, tx.programId, i, RawOf(tx), s);
      case UpdateWithdrawStateUtxo(_, _) => SessionAmount(env, w, tx.metas, tx.programId, i, RawOf(tx), s);
      case _ => InitAmount(env, w, tx.metas, tx.programId, i, RawOf(tx), s);
    }
  }

  /** Over a run without withdrawals, and with room for what it credits, a slot moves
      by exactly what deposits and settlements credit it and settlements debit it. */
  lemma {:induction false} RunAmount(env: Env, w: World, txs: seq<Tx>, s: Place)
    requires Addresses(env) && Good(env, w) && forall tx | tx in txs :: NoWithdrawal(tx)
    requires Amount(w, s) + RunCredited(env, w, txs, s) < U64
    ensures Amount(Run(env, w, txs), s) + RunDebited(env, w, txs, s) == Amount(w, s) + RunCredited(env, w, txs, s)
  {
    if txs != [] {
      var front, last := txs[..|txs| - 1], txs[|txs| - 1];
      assert last in txs && forall tx | tx in front :: tx in txs;
      RunAmount(env, w, front, s);
      RunGood(env, w, front);
      StepAmount(env, Run(env, w, front), last, s);
    }
  }
}
