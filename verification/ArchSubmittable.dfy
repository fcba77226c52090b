/** A prepared settlement stays submittable: nothing but a rollback or another
    submit of its own instance can take the covered balances away. */
module ArchSubmittable {
  import opened Machine
  import opened Wrappers
  import opened Sums
  import opened ArchTypes
  import opened ArchLedger
  import opened ArchFrames
  import opened ArchChecks
  import opened ArchReports
  import opened ArchInvariants
  import opened ArchMoney
  import opened ArchSessions
  import opened ArchSettlement

  /** No amount in a token account of `owner` goes down. */
  ghost predicate NoneDrops(w: World, w': World, owner: Key) {
    forall k: Key {:trigger At(w', k)} :: At(w, k).Token? && At(w, k).t.program == owner ==>
      && At(w', k).Token? && At(w', k).t.program == owner && |At(w, k).t.slots| <= |At(w', k).t.slots|
      && forall i | 0 <= i < |At(w, k).t.slots| :: At(w, k).t.slots[i].amount <= At(w', k).t.slots[i].amount
  }

  /** No amount drops, and no account of `owner` gains money. */
  ghost predicate Steady(w: World, w': World, owner: Key) {
    && NoneDrops(w, w', owner)
    && forall k: Key {:trigger At(w', k)} :: OwnMoneyIn(owner)(k, At(w', k)) <= OwnMoneyIn(owner)(k, At(w, k))
  }

  lemma NoneDropsTrans(w: World, w1: World, w2: World, owner: Key)
    requires NoneDrops(w, w1, owner) && NoneDrops(w1, w2, owner)
    ensures NoneDrops(w, w2, owner)
  {
    forall k: Key | At(w, k).Token? && At(w, k).t.program == owner
      ensures At(w2, k).Token? && At(w2, k).t.program == owner && |At(w, k).t.slots| <= |At(w2, k).t.slots|
      ensures forall i | 0 <= i < |At(w, k).t.slots| :: At(w, k).t.slots[i].amount <= At(w2, k).t.slots[i].amount
    {
      var a := At(w1, k);
      assert a.Token? && a.t.program == owner;
    }
  }

  lemma SteadyTrans(w: World, w1: World, w2: World, owner: Key)
    requires Steady(w, w1, owner) && Steady(w1, w2, owner)
    ensures Steady(w, w2, owner)
  {
    NoneDropsTrans(w, w1, w2, owner);
    forall k: Key ensures OwnMoneyIn(owner)(k, At(w2, k)) <= OwnMoneyIn(owner)(k, At(w, k)) {
      assert OwnMoneyIn(owner)(k, At(w1, k)) <= OwnMoneyIn(owner)(k, At(w, k));
    }
  }

  lemma SteadyMoney(w: World, w': World, owner: Key)
    requires Steady(w, w', owner)
    ensures OwnMoney(w', owner) <= OwnMoney(w, owner)
  {
    forall k: Key ensures Share(w', OwnMoneyIn(owner), k) <= Share(w, OwnMoneyIn(owner), k) {
      assert OwnMoneyIn(owner)(k, At(w', k)) <= OwnMoneyIn(owner)(k, At(w, k));
    }
    TotalMonotone(w', w, OwnMoneyIn(owner));
  }

  /** Slots may be added, but hold nothing; the others keep their amounts. */
  ghost predicate SameMoney(t: TokenState, t': TokenState) {
    && t'.program == t.program && |t.slots| <= |t'.slots|
    && forall j | 0 <= j < |t'.slots| :: t'.slots[j].amount == if j < |t.slots| then t.slots[j].amount else 0
  }

  /** Replacing a token account by one with the same money, slot by slot. */
  lemma StoreSteady(w: World, w': World, k: Key, a: Account, owner: Key)
    requires w' == w[k := a]
    requires At(w, k).Token? ==> a.Token? && SameMoney(At(w, k).t, a.t)
    requires !At(w, k).Token? && a.Token? ==> Money(a.t) == 0
    ensures Steady(w, w', owner)
  {
    if At(w, k).Token? {
      SameAmountsSameSum(At(w, k).t.slots, a.t.slots);
    }
  }

  lemma {:induction false} NoMoney(n: nat)
    ensures SlotSum(seq(n, _ => NO_SLOT)) == 0
  {
    if n > 0 {
      assert seq(n, _ => NO_SLOT)[1..] == seq(n - 1, _ => NO_SLOT);
      NoMoney(n - 1);
    }
  }

  // ---------------------------------------------------------------------------
  // Steps that leave the money of the instance alone
  // ---------------------------------------------------------------------------

  /** Another instance's instruction. */
  lemma ForeignSteady(w: World, w': World, other: Key, owner: Key)
    requires Permitted(w, w', other) && other != owner
    ensures Steady(w, w', owner)
  {
    forall k: Key
      ensures OwnMoneyIn(owner)(k, At(w', k)) <= OwnMoneyIn(owner)(k, At(w, k))
      ensures At(w, k).Token? && At(w, k).t.program == owner ==> At(w', k) == At(w, k)
    {
      assert MayBecome(k, At(w, k), At(w', k), other);
    }
  }

  lemma InitTokenSteady(env: Env, w: World, metas: seq<Meta>, id: Bytes, owner: Key)
    requires InitToken(env, w, metas, id).Ok?
    ensures Steady(w, InitToken(env, w, metas, id).value, owner)
  {
    var w' := InitToken(env, w, metas, id).value;
    NoMoney(SlotsIn(MAX_PERMITTED_DATA_INCREASE));
    var t' := w'[metas[1].key].t;
    if env.rune(id).None? {
      var blank := NoSlots(SlotsIn(MAX_PERMITTED_DATA_INCREASE));
      SlotSumSet(blank, 0, t'.slots[0]);
    }
    StoreSteady(w, w', metas[1].key, w'[metas[1].key], owner);
  }

  lemma {:induction false} SetUpSteady(env: Env, original: World, w: World, metas: seq<Meta>,
                                       setups: seq<TokenSetup>, network: Network, owner: Key)
    requires Addresses(env) && Good(env, original) && GoodAccounts(env, w) && OneStep(original, w)
    requires forall k: Key :: At(w, k).Token? ==> At(original, k).Token?
    requires 0 < |metas| && SetUpTokens(env, original, w, metas, setups, network).Ok?
    ensures Steady(w, SetUpTokens(env, original, w, metas, setups, network).value, owner)
    decreases |setups|
  {
    if setups != [] {
      var t := ExpectToken(w, metas, setups[0].account, true).value;
      var key := metas[setups[0].account].key;
      assert GoodAccount(env, At(w, key)) && GoodAccount(env, At(original, key));
      var size := SizeOf(At(original, key));
      assert size <= MAX_PERMITTED_DATA_LENGTH && SizeOf(At(w, key)) == t.size;
      AddWalletsShape(env, t, size, setups[0].wallets, network);
      AddWalletsFrame(env, t, size, setups[0].wallets, network);
      var t' := AddWallets(env, t, size, setups[0].wallets, network).value;
      forall j | 0 <= j < |t'.slots| ensures t'.slots[j].amount == if j < |t.slots| then t.slots[j].amount else 0 {
        AddWalletsSlot(env, t, size, setups[0].wallets, network, j);
      }
      var w1 := w[key := Token(t')];
      StoreSteady(w, w1, key, Token(t'), owner);
      StoreKept(env, w, key, w1[key], metas[0].key);
      SetUpSteady(env, original, w1, metas, setups[1..], network, owner);
      SteadyTrans(w, w1, SetUpTokens(env, original, w, metas, setups, network).value, owner);
    }
  }

  // ---------------------------------------------------------------------------
  // Deposits
  // ---------------------------------------------------------------------------

  function DepositSum(ds: seq<TokenDeposits>): nat {
    if ds == [] then 0 else Amounts(ds[0].deposits) + DepositSum(ds[1..])
  }

  /** With room for them, deposits add up and no balance wraps. */
  lemma {:induction false} DepositsRise(w: World, metas: seq<Meta>, ds: seq<TokenDeposits>)
    requires 0 < |metas| && DepositAll(w, metas, ds).Ok? && OwnMoney(w, metas[0].key) + DepositSum(ds) < U64
    ensures NoneDrops(w, DepositAll(w, metas, ds).value, metas[0].key)
    ensures OwnMoney(DepositAll(w, metas, ds).value, metas[0].key) == OwnMoney(w, metas[0].key) + DepositSum(ds)
    decreases |ds|
  {
    if ds != [] {
      var owner := metas[0].key;
      var t := ExpectToken(w, metas, ds[0].account, true).value;
      var key := metas[ds[0].account].key;
      var t' := Adjust(t, ds[0].deposits, true).value;
      var w1 := w[key := Token(t')];
      StoreOwnMoney(w, w1, key, Token(t'), owner);
      IncrementsMoney(t, ds[0].deposits);
      IncrementsRoom(t, ds[0].deposits);
      AdjustFrame(t, ds[0].deposits, true);
      assert NoneDrops(w, w1, owner);
      DepositsRise(w1, metas, ds[1..]);
      NoneDropsTrans(w, w1, DepositAll(w, metas, ds).value, owner);
    }
  }

  // ---------------------------------------------------------------------------
  // Runs while a settlement is prepared
  // ---------------------------------------------------------------------------

  /** Not a rollback or a settlement submit of this instance. */
  predicate LeavesPrepared(tx: Tx, owner: Key) {
    0 < |tx.metas| && tx.metas[0].key == owner && InstructionOf(tx).Some? ==>
      var i := InstructionOf(tx).value;
      !i.RollbackBatchWithdraw? && !i.RollbackBatchSettlement? && !i.SubmitBatchSettlement?
  }

  /** What a transaction may deposit into the instance. */
  function DepositedBy(tx: Tx, owner: Key): nat {
    if 0 < |tx.metas| && tx.metas[0].key == owner && InstructionOf(tx).Some? && InstructionOf(tx).value.BatchDeposit?
    then DepositSum(InstructionOf(tx).value.deposits) else 0
  }

  function Deposited(txs: seq<Tx>, owner: Key): nat {
    if txs == [] then 0 else Deposited(txs[..|txs| - 1], owner) + DepositedBy(txs[|txs| - 1], owner)
  }

  lemma SetRuneIdSteady(env: Env, w: World, metas: seq<Meta>, id: Bytes, owner: Key)
    requires SetRuneId(env, w, metas, id).Ok?
    ensures Steady(w, SetRuneId(env, w, metas, id).value, owner)
  {
    var w' := SetRuneId(env, w, metas, id).value;
    StoreSteady(w, w', metas[1].key, w'[metas[1].key], owner);
  }

  lemma SubmitWithdrawSteady(env: Env, w: World, metas: seq<Meta>, programId: Key, b: WithdrawBatch, raw: Bytes,
                             owner: Key)
    requires SubmitWithdraw(env, w, metas, programId, b, raw).Ok?
    ensures Steady(w, SubmitWithdraw(env, w, metas, programId, b, raw).value.w, owner)
  {
    StoreSteady(w, w[metas[1].key := Withdraw(metas[0].key, EMPTY_HASH)], metas[1].key,
        Withdraw(metas[0].key, EMPTY_HASH), owner);
  }

  lemma InitReceiverSteady(w: World, metas: seq<Meta>, owner: Key)
    requires InitRuneReceiver(w, metas).Ok?
    ensures Steady(w, InitRuneReceiver(w, metas).value, owner)
  {
  }

  /** Instructions of the instance that neither move money nor change the session. */
  lemma QuietSteady(env: Env, w: World, metas: seq<Meta>, programId: Key, i: Instruction, raw: Bytes)
    requires Addresses(env) && Good(env, w) && Perform(env, w, metas, programId, i, raw).Ok? && 0 < |metas|
    requires i.InitTokenState? || i.InitWalletBalances? || i.SubmitBatchWithdraw? || i.UpdateWithdrawStateUtxo?
          || i.InitRuneReceiverState? || i.SetTokenRuneId?
    ensures Steady(w, Perform(env, w, metas, programId, i, raw).value, metas[0].key)
  {
    match i
    case InitTokenState(id) => InitTokenSteady(env, w, metas, id, metas[0].key);
    case InitWalletBalances(setups) =>
        SetUpSteady(env, w, w, metas, setups, At(w, metas[0].key).p.network, metas[0].key);
    case SubmitBatchWithdraw(batch) => SubmitWithdrawSteady(env, w, metas, programId, batch, raw, metas[0].key);
    case SetTokenRuneId(id) => SetRuneIdSteady(env, w, metas, id, metas[0].key);
    case InitRuneReceiverState => InitReceiverSteady(w, metas, metas[0].key);
    case UpdateWithdrawStateUtxo(_, _) =>
  }

  /** While its settlement is prepared, an instance can neither be set up again nor
      prepare anything else. */
  lemma PreparedRefuses(env: Env, w: World, metas: seq<Meta>, programId: Key, i: Instruction, raw: Bytes)
    requires Perform(env, w, metas, programId, i, raw).Ok? && 0 < |metas|
        && SettlementWord(w, metas[0].key) != EMPTY_HASH
    ensures !i.InitProgramState? && !i.PrepareBatchWithdraw? && !i.PrepareBatchSettlement?
  {
    PreparesFromIdle(env, w, metas, programId, i, raw);
  }

  lemma PreparedStep(env: Env, w: World, tx: Tx, owner: Key)
    requires Addresses(env) && DigestsNonEmpty(env) && Good(env, w)
    requires SettlementWord(w, owner) != EMPTY_HASH && LeavesPrepared(tx, owner)
    requires OwnMoney(w, owner) + DepositedBy(tx, owner) < U64
    ensures SettlementWord(Step(env, w, tx), owner) == SettlementWord(w, owner)
    ensures NoneDrops(w, Step(env, w, tx), owner)
    ensures OwnMoney(Step(env, w, tx), owner) <= OwnMoney(w, owner) + DepositedBy(tx, owner)
  {
    if Succeeds(env, w, tx) {
      var i, w' := InstructionOf(tx).value, Step(env, w, tx);
      StepKept(env, w, tx);
      PerformWords(env, w, tx.metas, tx.programId, i, RawOf(tx));
      if tx.metas[0].key != owner {
        ForeignSteady(w, w', tx.metas[0].key, owner);
        SteadyMoney(w, w', owner);
      } else {
        PreparedRefuses(env, w, tx.metas, tx.programId, i, RawOf(tx));
        if i.BatchDeposit? {
          DepositsRise(w, tx.metas, i.deposits);
        } else {
          QuietSteady(env, w, tx.metas, tx.programId, i, RawOf(tx));
          SteadyMoney(w, w', owner);
        }
      }
    }
  }

  lemma {:induction false} PreparedRun(env: Env, w: World, txs: seq<Tx>, owner: Key)
    requires Addresses(env) && DigestsNonEmpty(env) && Good(env, w) && SettlementWord(w, owner) != EMPTY_HASH
    requires (forall tx | tx in txs :: LeavesPrepared(tx, owner)) && OwnMoney(w, owner) + Deposited(txs, owner) < U64
    ensures SettlementWord(Run(env, w, txs), owner) == SettlementWord(w, owner)
    ensures NoneDrops(w, Run(env, w, txs), owner)
    ensures OwnMoney(Run(env, w, txs), owner) <= OwnMoney(w, owner) + Deposited(txs, owner)
  {
    if txs != [] {
      var front, last := txs[..|txs| - 1], txs[|txs| - 1];
      assert last in txs && forall tx | tx in front :: tx in txs;
      PreparedRun(env, w, front, owner);
      RunGood(env, w, front);
      PreparedStep(env, Run(env, w, front), last, owner);
      NoneDropsTrans(w, Run(env, w, front), Run(env, w, txs), owner);
    }
  }

  // ---------------------------------------------------------------------------
  // The prepared batch is covered
  // ---------------------------------------------------------------------------

  lemma {:induction false} CoveredByDecrements(w: World, key: Key, adjs: seq<Adjustment>)
    requires At(w, key).Token? && IndexesValid(At(w, key).t, adjs)
    requires forall a | a in adjs ::
        a.amount <= SlotAmount(At(w, key).t, a.address.index)
    ensures CoversAll(w, TargetsOf(key, adjs))
  {
    if adjs != [] {
      assert adjs[0] in adjs;
      CoveredByDecrements(w, key, adjs[1..]);
      assert Covers(w, Target(key, adjs[0].address.index, adjs[0].amount));
    }
  }

  lemma {:induction false} IncrementsNamed(t: TokenState, adjs: seq<Adjustment>, total: u64)
    requires VerifyIncrements(t, adjs, total).Ok?
    ensures IndexesValid(t, adjs)
    decreases |adjs|
  {
    if adjs != [] {
      IncrementsNamed(t, adjs[1..], WrapAdd(total, adjs[0].amount));
    }
  }

  /** The accounts that a batch names are tokens of the instance, and the wallets
      that it names are theirs. */
  ghost predicate Named(w: World, metas: seq<Meta>, ss: seq<Settlement>) {
    && 0 < |metas|
    && forall s | s in ss :: BoundTo(w, metas, s.account, metas[0].key) && SettleNames(At(w, metas[s.account].key).t, s)
  }

  lemma {:induction false} VerifiedCovers(w: World, metas: seq<Meta>, ss: seq<Settlement>, n: Netting)
    requires 0 < |metas| && VerifySettlements(w, metas, ss, n).Ok? && Uncovered(w, metas, ss) == []
    ensures CoversAll(w, Targets(metas, ss)) && Named(w, metas, ss)
    decreases |ss|
  {
    if ss != [] {
      var s := ss[0];
      var t := ExpectToken(w, metas, s.account, false).value;
      DecrementReport(t, s.account, s.decrements, Tally(0, n.p));
      IncrementsNamed(t, s.increments, 0);
      CoveredByDecrements(w, metas[s.account].key, s.decrements);
      VerifiedCovers(w, metas, ss[1..], VerifySettlement(t, s, n).value);
    }
  }

  // ---------------------------------------------------------------------------
  // The theorem
  // ---------------------------------------------------------------------------

  /** Same accounts, listed with the flags that submit asks for. */
  ghost predicate SubmitList(prepare: seq<Meta>, submit: seq<Meta>, ss: seq<Settlement>) {
    && |submit| == |prepare| > 0 && (forall i | 0 <= i < |prepare| :: submit[i].key == prepare[i].key)
    && submit[0].signer && submit[0].writable
    && forall s | s in ss && s.account as nat < |submit| :: !submit[s.account].signer && submit[s.account].writable
  }

  lemma {:induction false} TargetsByKey(prepare: seq<Meta>, submit: seq<Meta>, ss: seq<Settlement>)
    requires |submit| == |prepare| && forall i | 0 <= i < |prepare| :: submit[i].key == prepare[i].key
    ensures Targets(submit, ss) == Targets(prepare, ss)
  {
    if ss != [] {
      TargetsByKey(prepare, submit, ss[1..]);
    }
  }

  lemma NamedLater(env: Env, w: World, w': World, prepare: seq<Meta>, submit: seq<Meta>, ss: seq<Settlement>)
    requires GoodAccounts(env, w') && Named(w, prepare, ss) && SubmitList(prepare, submit, ss)
    requires forall k: Key :: Later(At(w, k), At(w', k))
    ensures Settleable(w', submit, ss)
  {
    forall s | s in ss
      ensures ExpectToken(w', submit, s.account, true).Ok?
        && GoodToken(ExpectToken(w', submit, s.account, true).value)
        && SettleNames(ExpectToken(w', submit, s.account, true).value, s)
    {
      var k := prepare[s.account].key;
      assert BoundTo(w, prepare, s.account, prepare[0].key) && Later(At(w, k), At(w', k))
          && GoodAccount(env, At(w', k));
      assert ExpectToken(w', submit, s.account, true) == Ok(At(w', k).t);
      IndexesLater(At(w, k).t, At(w', k).t, s.increments);
      IndexesLater(At(w, k).t, At(w', k).t, s.decrements);
    }
  }

  lemma IndexesLater(t: TokenState, t': TokenState, adjs: seq<Adjustment>)
    requires Grows(t, t') && IndexesValid(t, adjs)
    ensures IndexesValid(t', adjs)
  {
    forall a | a in adjs ensures Names(t', a.address) {
      assert Names(t, a.address);
    }
  }

  lemma CoversLater(w: World, w': World, ts: seq<Target>, owner: Key)
    requires NoneDrops(w, w', owner) && CoversAll(w, ts)
    requires forall x | x in ts :: At(w, x.key).Token? && At(w, x.key).t.program == owner
    ensures CoversAll(w', ts)
  {
    forall x | x in ts ensures Covers(w', x) {
      assert Covers(w, x);
      var a := At(w', x.key);
      assert a.Token?;
    }
  }

  lemma {:induction false} TargetsOwned(w: World, metas: seq<Meta>, ss: seq<Settlement>)
    requires Named(w, metas, ss)
    ensures forall x | x in Targets(metas, ss) :: At(w, x.key).Token? && At(w, x.key).t.program == metas[0].key
  {
    if ss != [] {
      assert ss[0] in ss && BoundTo(w, metas, ss[0].account, metas[0].key);
      TargetsShareKey(metas[ss[0].account].key, ss[0].decrements);
      assert forall s | s in ss[1..] :: s in ss;
      TargetsOwned(w, metas, ss[1..]);
    }
  }

  /** What the step that prepares a settlement leaves for its submit. */
  lemma PrepareStepLeaves(env: Env, w0: World, prep: Tx, owner: Key, raw: Bytes)
    requires PreparesSettlement(env, w0, prep, owner, raw) && DigestsNonEmpty(env)
    ensures var w := Step(env, w0, prep); var ss := InstructionOf(prep).value.settlements;
            && SettlementWord(w, owner) == env.sha(raw) && SettlementWord(w, owner) != EMPTY_HASH
            && Named(w, prep.metas, ss) && CoversAll(w, Targets(prep.metas, ss))
            && OwnMoney(w, owner) == OwnMoney(w0, owner)
  {
    var ss := InstructionOf(prep).value.settlements;
    var w := Step(env, w0, prep);
    PrepareSettlementReport(env, w0, prep.metas, ss, raw);
    VerifiedCovers(w0, prep.metas, ss, Netting(0, ClearEvents(At(w0, owner).p)));
    StoreOwnMoney(w0, w, owner, At(w, owner), owner);
    forall k: Key | At(w0, k).Token? ensures At(w, k) == At(w0, k) {}
    forall x | x in Targets(prep.metas, ss) ensures Covers(w, x) {
      assert Covers(w0, x);
    }
  }

  lemma SubmitOutcome(env: Env, w: World, metas: seq<Meta>, ss: seq<Settlement>, raw: Bytes)
    requires 0 < |metas| && metas[0].signer && metas[0].writable && At(w, metas[0].key).Program?
    requires SettlementWord(w, metas[0].key) == env.sha(raw) != EMPTY_HASH
    ensures SubmitSettlement(env, w, metas, ss, raw).Ok? <==> SettleAll(w, metas, ss).Ok?
    ensures SubmitSettlement(env, w, metas, ss, raw).Err?
        ==> SubmitSettlement(env, w, metas, ss, raw) == Err(SettleAll(w, metas, ss).error)
  {
  }

  /** A prepared settlement stays submittable.  If the batch takes from pairwise
      distinct slots, then after any run of transactions of any instances without
      a rollback or a settlement submit of its own, and while the money of the
      instance, the deposits and the batch's credits stay below 2^64, submitting
      the same bytes with the same accounts never fails for want of balance; it
      goes through if and only if every fee has a wallet in slot 0 to go to. */
  lemma PreparedStaysSubmittable(env: Env, w0: World, prep: Tx, txs: seq<Tx>, submit: seq<Meta>, owner: Key, raw: Bytes)
    requires Addresses(env) && DigestsNonEmpty(env) && Good(env, w0)
    requires PreparesSettlement(env, w0, prep, owner, raw)
    requires SubmitList(prep.metas, submit, InstructionOf(prep).value.settlements)
    requires Distinct(Targets(prep.metas, InstructionOf(prep).value.settlements))
    requires forall tx | tx in txs :: LeavesPrepared(tx, owner)
    requires OwnMoney(w0, owner) + Deposited(txs, owner) + BatchCredits(InstructionOf(prep).value.settlements) < U64
    ensures var ss := InstructionOf(prep).value.settlements; var w := Run(env, Step(env, w0, prep), txs);
            && SubmitSettlement(env, w, submit, ss, raw) != Err(Custom(ERROR_INSUFFICIENT_BALANCE))
            && (SubmitSettlement(env, w, submit, ss, raw).Ok? <==> FeesHaveHomes(w, submit, ss))
  {
    var ss := InstructionOf(prep).value.settlements;
    var w1 := Step(env, w0, prep);
    PrepareStepLeaves(env, w0, prep, owner, raw);
    StepKept(env, w0, prep);
    PreparedRun(env, w1, txs, owner);
    RunGood(env, w1, txs);
    var w := Run(env, w1, txs);
    forall k: Key ensures Later(At(w1, k), At(w, k)) {
      RunLater(env, w1, txs, k);
    }
    NamedLater(env, w1, w, prep.metas, submit, ss);
    TargetsByKey(prep.metas, submit, ss);
    TargetsOwned(w1, prep.metas, ss);
    CoversLater(w1, w, Targets(submit, ss), owner);
    SettleAllOutcome(w, submit, ss);
    SubmitOutcome(env, w, submit, ss, raw);
  }
}
