/** Every instruction keeps accounts well formed, touches only accounts bound to
    its own program account, and never reassigns a slot; so does every run. */
module ArchInvariants {
  import opened Machine
  import opened Wrappers
  import opened ArchTypes
  import opened ArchCodec
  import opened ArchLedger
  import opened ArchFrames
  import opened ArchReports
  import Sessions

  /** What one instruction leaves behind. */
  ghost predicate Kept(env: Env, w: World, w': World, owner: Key) {
    Permitted(w, w', owner) && GoodAccounts(env, w')
  }

  // ---------------------------------------------------------------------------
  // Growth
  // ---------------------------------------------------------------------------

  lemma {:induction false} SetAddressesFrame(env: Env, t: TokenState, i: nat, wallets: seq<Bytes>, network: Network)
    requires SetAddresses(env, t, i, wallets, network).Ok?
    ensures var t' := SetAddresses(env, t, i, wallets, network).value;
            t' == t.(slots := t'.slots) && |t'.slots| == |t.slots|
    ensures wallets != [] ==> i + |wallets| <= |t.slots|
    decreases |wallets|
  {
    if wallets != [] {
      SetAddressesFrame(env, SetAddress(t, i, wallets[0]).value, i + 1, wallets[1..], network);
    }
  }

  lemma {:induction false} SetAddressesSlot(env: Env, t: TokenState, i: nat, wallets: seq<Bytes>, network: Network,
                                            j: nat)
    requires SetAddresses(env, t, i, wallets, network).Ok? && j < |t.slots|
    ensures |SetAddresses(env, t, i, wallets, network).value.slots| == |t.slots|
    ensures SetAddresses(env, t, i, wallets, network).value.slots[j]
         == if i <= j < i + |wallets| then Slot(wallets[j - i], t.slots[j].amount) else t.slots[j]
    decreases |wallets|
  {
    SetAddressesFrame(env, t, i, wallets, network);
    if wallets != [] {
      SetAddressesSlot(env, SetAddress(t, i, wallets[0]).value, i + 1, wallets[1..], network, j);
    }
  }

  lemma {:induction false} SetAddressesValid(env: Env, t: TokenState, i: nat, wallets: seq<Bytes>, network: Network)
    requires Addresses(env) && SetAddresses(env, t, i, wallets, network).Ok?
    ensures forall a | a in wallets :: 4 <= |a| < MAX_ADDRESS_SIZE && UpToNul(a) == a
    decreases |wallets|
  {
    if wallets != [] {
      SetAddressesValid(env, SetAddress(t, i, wallets[0]).value, i + 1, wallets[1..], network);
      UpToNulWhole(wallets[0]);
      assert forall a | a in wallets :: a == wallets[0] || a in wallets[1..];
    }
  }

  lemma GrowFrame(t: TokenState, original: nat, additional: nat)
    requires Sized(t) && original % 10240 == 0
    requires t.size == original || t.size == original + MAX_PERMITTED_DATA_INCREASE
    ensures var t' := Grow(t, original, additional);
            && t' == t.(slots := t'.slots, size := t'.size) && Sized(t')
            && |t.slots| <= |t'.slots|
            && (forall j | 0 <= j < |t'.slots| :: t'.slots[j] == if j < |t.slots| then t.slots[j] else NO_SLOT)
            && (t'.size == original || t'.size == original + MAX_PERMITTED_DATA_INCREASE)
            && (SlotOffset(t.count + additional) <= original || t'.size == original + MAX_PERMITTED_DATA_INCREASE)
  {
    var t' := Grow(t, original, additional);
    if t'.size != t.size {
      MoreSlots(original);
      OneStepMore(original);
      assert |NoSlots(SlotsIn(original + 10240) - |t.slots|)| == SlotsIn(original + 10240) - |t.slots|;
    }
  }

  lemma OneStepMore(size: nat)
    requires size % 10240 == 0
    ensures (size + 10240) % 10240 == 0
  {
  }

  lemma MoreSlots(size: nat)
    ensures SlotsIn(size) <= SlotsIn(size + 10240)
  {
  }

  lemma AddWalletsShape(env: Env, t: TokenState, original: nat, wallets: seq<Bytes>, network: Network)
    requires Sized(t) && original % 10240 == 0 && original <= MAX_PERMITTED_DATA_LENGTH
    requires t.size == original || t.size == original + MAX_PERMITTED_DATA_INCREASE
    requires AddWallets(env, t, original, wallets, network).Ok?
    ensures var t' := AddWallets(env, t, original, wallets, network).value;
            && t' == t.(slots := t'.slots, size := t'.size, count := t.count + |wallets|)
            && (t'.size == original || t'.size == original + MAX_PERMITTED_DATA_INCREASE)
            && Sized(t') && |t.slots| <= |t'.slots|
  {
    GrowFrame(t, original, |wallets|);
    var g := Grow(t, original, |wallets|);
    SetAddressesFrame(env, g, t.count, wallets, network);
    FewSlots(g.size);
    Uncut(t.count + |wallets|);
    StaysSized(g, AddWallets(env, t, original, wallets, network).value);
  }

  lemma Uncut(n: nat)
    requires n < U32
    ensures n % U32 == n
  {
  }

  lemma StaysSized(t: TokenState, t': TokenState)
    requires Sized(t) && t'.size == t.size && |t'.slots| == |t.slots| && t'.count <= |t'.slots|
    ensures Sized(t')
  {
  }

  lemma FewSlots(size: nat)
    requires size <= 20_000_000
    ensures SlotsIn(size) < U32
  {
  }

  /** The amounts in an account do not move when wallets are added, and room that
      was added holds nothing. */
  lemma AddWalletsSlot(env: Env, t: TokenState, original: nat, wallets: seq<Bytes>, network: Network, j: nat)
    requires Sized(t) && original % 10240 == 0
    requires t.size == original || t.size == original + MAX_PERMITTED_DATA_INCREASE
    requires AddWallets(env, t, original, wallets, network).Ok?
    requires j < |AddWallets(env, t, original, wallets, network).value.slots|
    ensures var t' := AddWallets(env, t, original, wallets, network).value;
            var was := if j < |t.slots| then t.slots[j] else NO_SLOT;
            |t.slots| <= |t'.slots| && t'.slots[j] == if t.count <= j < t.count + |wallets|
                then Slot(wallets[j - t.count], was.amount) else was
  {
    GrowFrame(t, original, |wallets|);
    var g := Grow(t, original, |wallets|);
    SetAddressesFrame(env, g, t.count, wallets, network);
    SetAddressesSlot(env, g, t.count, wallets, network, j);
  }

  /** Adding wallets to an account, for any number of setups in one instruction. */
  lemma AddWalletsFrame(env: Env, t: TokenState, original: nat, wallets: seq<Bytes>, network: Network)
    requires Addresses(env) && GoodToken(t)
    requires original % 10240 == 0 && original <= MAX_PERMITTED_DATA_LENGTH
    requires t.size == original || t.size == original + MAX_PERMITTED_DATA_INCREASE
    requires AddWallets(env, t, original, wallets, network).Ok?
    ensures GoodToken(AddWallets(env, t, original, wallets, network).value)
    ensures Grows(t, AddWallets(env, t, original, wallets, network).value)
  {
    AddWalletsShape(env, t, original, wallets, network);
    SetAddressesValid(env, Grow(t, original, |wallets|), t.count, wallets, network);
    var t' := AddWallets(env, t, original, wallets, network).value;
    forall j | 0 <= j < |t'.slots|
      ensures |t'.slots[j].address| < MAX_ADDRESS_SIZE
      ensures j < t'.count ==> |UpToNul(t'.slots[j].address)| >= 4
      ensures j < t.count ==> t'.slots[j].address == t.slots[j].address
    {
      AddWalletsSlot(env, t, original, wallets, network, j);
      if t.count <= j < t.count + |wallets| {
        assert wallets[j - t.count] in wallets;
      }
    }
  }

  /** Room: an account that had room for its wallets when the instruction began
      takes up to 102 more, however they are spread over setups. */
  lemma {:induction false} RoomForWallets(env: Env, t: TokenState, i: nat, wallets: seq<Bytes>, network: Network)
    requires i + |wallets| <= |t.slots|
    ensures SetAddresses(env, t, i, wallets, network) != Err(Panic)
    decreases |wallets|
  {
    if wallets != [] && ValidAddress(env, wallets[0], network, false).Ok? && SetAddress(t, i, wallets[0]).Ok? {
      RoomForWallets(env, SetAddress(t, i, wallets[0]).value, i + 1, wallets[1..], network);
    }
  }

  lemma AddWalletsInBounds(env: Env, t: TokenState, original: nat, before: nat, wallets: seq<Bytes>, network: Network)
    requires Sized(t) && original > 0 && original % 10240 == 0
    requires t.size == original || t.size == original + MAX_PERMITTED_DATA_INCREASE
    requires SlotOffset(before) <= original && t.count + |wallets| <= before + 102
    ensures AddWallets(env, t, original, wallets, network) != Err(Panic)
  {
    GrowFrame(t, original, |wallets|);
    RoomForWallets(env, Grow(t, original, |wallets|), t.count, wallets, network);
  }

  // ---------------------------------------------------------------------------
  // Each instruction
  // ---------------------------------------------------------------------------

  lemma PermittedTrans(w: World, w1: World, w2: World, owner: Key)
    requires Permitted(w, w1, owner) && Permitted(w1, w2, owner)
    ensures Permitted(w, w2, owner)
  {
    forall k: Key ensures MayBecome(k, At(w, k), At(w2, k), owner) {
      assert MayBecome(k, At(w, k), At(w1, k), owner) && MayBecome(k, At(w1, k), At(w2, k), owner);
    }
  }

  /** Storing one permitted, well-formed account. */
  lemma StoreKept(env: Env, w: World, k: Key, a: Account, owner: Key)
    requires GoodAccounts(env, w) && GoodAccount(env, a) && MayBecome(k, At(w, k), a, owner)
    ensures Kept(env, w, w[k := a], owner)
  {
    var w' := w[k := a];
    forall j: Key ensures GoodAccount(env, At(w', j)) {
      assert GoodAccount(env, At(w, j));
    }
  }

  lemma KeptTrans(env: Env, w: World, w1: World, w2: World, owner: Key)
    requires Kept(env, w, w1, owner) && Kept(env, w1, w2, owner)
    ensures Kept(env, w, w2, owner)
  {
    PermittedTrans(w, w1, w2, owner);
  }

  lemma InitTokenKept(env: Env, w: World, metas: seq<Meta>, id: Bytes)
    requires Addresses(env) && GoodAccounts(env, w) && InitToken(env, w, metas, id).Ok?
    ensures Kept(env, w, InitToken(env, w, metas, id).value, metas[0].key)
  {
    var p := At(w, metas[0].key).p;
    assert GoodAccount(env, At(w, metas[0].key));
    UpToNulWhole(p.feeAccount);
    StoreKept(env, w, metas[1].key, At(InitToken(env, w, metas, id).value, metas[1].key), metas[0].key);
  }

  lemma SetTokenRuneIdKept(env: Env, w: World, metas: seq<Meta>, id: Bytes)
    requires GoodAccounts(env, w) && SetRuneId(env, w, metas, id).Ok?
    ensures Kept(env, w, SetRuneId(env, w, metas, id).value, metas[0].key)
  {
    assert GoodAccount(env, At(w, metas[1].key));
    StoreKept(env, w, metas[1].key, At(SetRuneId(env, w, metas, id).value, metas[1].key), metas[0].key);
  }

  /** Within one instruction, no account is more than one step larger than when it began. */
  ghost predicate OneStep(original: World, w: World) {
    forall k: Key :: At(original, k).Token? ==>
      SizeOf(At(w, k)) == SizeOf(At(original, k))
          || SizeOf(At(w, k)) == SizeOf(At(original, k)) + MAX_PERMITTED_DATA_INCREASE
  }

  /** What setting up wallets keeps, from the world in which the instruction began. */
  ghost predicate SettingUp(env: Env, original: World, w: World) {
    GoodAccounts(env, w) && OneStep(original, w) && forall k: Key :: At(w, k).Token? ==> At(original, k).Token?
  }

  lemma SetUpOneKept(env: Env, original: World, w: World, metas: seq<Meta>, setup: TokenSetup, network: Network,
                     t': TokenState)
    requires Addresses(env) && Good(env, original) && SettingUp(env, original, w)
    requires ExpectToken(w, metas, setup.account, true).Ok?
    requires var key := metas[setup.account].key;
             AddWallets(env, At(w, key).t, SizeOf(At(original, key)), setup.wallets, network) == Ok(t')
    ensures t'.count == At(w, metas[setup.account].key).t.count + |setup.wallets|
    ensures SettingUp(env, original, w[metas[setup.account].key := Token(t')])
  {
    var key := metas[setup.account].key;
    assert GoodAccount(env, At(w, key)) && GoodAccount(env, At(original, key));
    AddWalletsShape(env, At(w, key).t, SizeOf(At(original, key)), setup.wallets, network);
    AddWalletsFrame(env, At(w, key).t, SizeOf(At(original, key)), setup.wallets, network);
    StoreKept(env, w, key, Token(t'), metas[0].key);
  }

  lemma {:induction false} SetUpTokensKept(env: Env, original: World, w: World, metas: seq<Meta>,
                                           setups: seq<TokenSetup>, network: Network)
    requires Addresses(env) && Good(env, original) && GoodAccounts(env, w) && OneStep(original, w)
    requires forall k: Key :: At(w, k).Token? ==> At(original, k).Token?
    requires 0 < |metas| && SetUpTokens(env, original, w, metas, setups, network).Ok?
    ensures Kept(env, w, SetUpTokens(env, original, w, metas, setups, network).value, metas[0].key)
    decreases |setups|
  {
    if setups == [] {
      assert Permitted(w, w, metas[0].key);
    } else {
      var t := ExpectToken(w, metas, setups[0].account, true).value;
      var key := metas[setups[0].account].key;
      assert GoodAccount(env, At(w, key)) && GoodAccount(env, At(original, key));
      var size := SizeOf(At(original, key));
      assert size <= MAX_PERMITTED_DATA_LENGTH && SizeOf(At(w, key)) == t.size;
      AddWalletsShape(env, t, size, setups[0].wallets, network);
      AddWalletsFrame(env, t, size, setups[0].wallets, network);
      var w1 := w[key := Token(AddWallets(env, t, size, setups[0].wallets, network).value)];
      StoreKept(env, w, key, w1[key], metas[0].key);
      SetUpTokensKept(env, original, w1, metas, setups[1..], network);
      KeptTrans(env, w, w1, SetUpTokens(env, original, w, metas, setups, network).value, metas[0].key);
    }
  }

  lemma InitProgramKept(env: Env, w: World, metas: seq<Meta>, fee: Bytes, change: Bytes, network: Network)
    requires Addresses(env) && GoodAccounts(env, w) && InitProgram(env, w, metas, fee, change, network).Ok?
    ensures Kept(env, w, InitProgram(env, w, metas, fee, change, network).value, metas[0].key)
  {
    var w' := InitProgram(env, w, metas, fee, change, network).value;
    var owner, second := metas[0].key, metas[1].key;
    assert GoodProgram(env, NewProgram(second, fee, change, network));
    forall k: Key ensures GoodAccount(env, At(w', k)) && MayBecome(k, At(w, k), At(w', k), owner) {
      assert GoodAccount(env, At(w, k));
      assert k != owner && k != second ==> At(w', k) == At(w, k);
    }
  }

  lemma InitReceiverKept(env: Env, w: World, metas: seq<Meta>)
    requires GoodAccounts(env, w) && InitRuneReceiver(w, metas).Ok?
    ensures Kept(env, w, InitRuneReceiver(w, metas).value, metas[0].key)
  {
    var w' := InitRuneReceiver(w, metas).value;
    forall k: Key ensures GoodAccount(env, At(w', k)) && MayBecome(k, At(w, k), At(w', k), metas[0].key) {
      assert GoodAccount(env, At(w, k));
    }
  }

  lemma AmountsKept(env: Env, w: World, w': World, owner: Key)
    requires GoodAccounts(env, w) && AmountsOnly(w, w', owner)
    ensures Kept(env, w, w', owner)
  {
    AmountsOnlyPermitted(env, w, w', owner);
  }

  lemma PrepareSettlementKept(env: Env, w: World, metas: seq<Meta>, ss: seq<Settlement>, raw: Bytes)
    requires GoodAccounts(env, w) && PrepareSettlement(env, w, metas, ss, raw).Ok?
    ensures Kept(env, w, PrepareSettlement(env, w, metas, ss, raw).value, metas[0].key)
  {
    var w' := PrepareSettlement(env, w, metas, ss, raw).value;
    PrepareSettlementReport(env, w, metas, ss, raw);
    assert GoodAccount(env, At(w, metas[0].key));
    SettlementReport(w, metas, ss, Netting(0, ClearEvents(At(w, metas[0].key).p)));
    StoreKept(env, w, metas[0].key, At(w', metas[0].key), metas[0].key);
  }

  lemma SubmitSettlementKept(env: Env, w: World, metas: seq<Meta>, ss: seq<Settlement>, raw: Bytes)
    requires GoodAccounts(env, w) && SubmitSettlement(env, w, metas, ss, raw).Ok?
    ensures Kept(env, w, SubmitSettlement(env, w, metas, ss, raw).value, metas[0].key)
  {
    var w' := SubmitSettlement(env, w, metas, ss, raw).value;
    var w1 := SettleAll(w, metas, ss).value;
    SettleAllFrame(w, metas, ss);
    AmountsKept(env, w, w1, metas[0].key);
    assert At(w1, metas[0].key) == At(w, metas[0].key) && GoodAccount(env, At(w1, metas[0].key));
    StoreKept(env, w1, metas[0].key, w'[metas[0].key], metas[0].key);
    KeptTrans(env, w, w1, w', metas[0].key);
  }

  lemma RollbackSettlementKept(env: Env, w: World, metas: seq<Meta>)
    requires GoodAccounts(env, w) && RollbackSettlement(w, metas).Ok?
    ensures Kept(env, w, RollbackSettlement(w, metas).value, metas[0].key)
  {
    assert GoodAccount(env, At(w, metas[0].key));
    StoreKept(env, w, metas[0].key, At(RollbackSettlement(w, metas).value, metas[0].key), metas[0].key);
  }

  lemma PrepareWithdrawKept(env: Env, w: World, metas: seq<Meta>, b: WithdrawBatch, raw: Bytes)
    requires GoodAccounts(env, w) && PrepareWithdraw(env, w, metas, b, raw).Ok?
    ensures Kept(env, w, PrepareWithdraw(env, w, metas, b, raw).value, metas[0].key)
  {
    var owner := metas[0].key;
    var p1 := CheckWithdraw(env, w, metas, b).value;
    CheckWithdrawFrame(env, w, metas, b);
    assert GoodAccount(env, At(w, owner));
    var w1 := w[owner := Program(p1)];
    StoreKept(env, w, owner, Program(p1), owner);
    if p1.events == [] {
      var x := DraftWithdraw(env, w1, metas, b, p1).value;
      DraftWithdrawFrame(env, w, metas, b, p1);
      AmountsKept(env, w1, x.w, owner);
      KeptTrans(env, w, w1, x.w, owner);
      assert At(x.w, metas[1].key) == At(w1, metas[1].key);
      StoreKept(env, x.w, metas[1].key, Withdraw(owner, env.sha(raw)), owner);
      KeptTrans(env, w, x.w, x.w[metas[1].key := Withdraw(owner, env.sha(raw))], owner);
    }
  }

  lemma RollbackWithdrawKept(env: Env, w: World, metas: seq<Meta>, tokens: seq<TokenWithdrawals>)
    requires GoodAccounts(env, w) && RollbackWithdraw(w, metas, tokens).Ok?
    ensures Kept(env, w, RollbackWithdraw(w, metas, tokens).value, metas[0].key)
  {
    var p := At(w, metas[0].key).p;
    var w' := RollbackWithdraw(w, metas, tokens).value;
    var w1 := RefundAll(w, metas, tokens, UpToNul(p.feeAccount)).value;
    RefundAllFrame(w, metas, tokens, UpToNul(p.feeAccount));
    AmountsKept(env, w, w1, metas[0].key);
    assert At(w1, metas[1].key) == At(w, metas[1].key);
    StoreKept(env, w1, metas[1].key, w'[metas[1].key], metas[0].key);
    KeptTrans(env, w, w1, w', metas[0].key);
  }

  lemma SubmitWithdrawKept(env: Env, w: World, metas: seq<Meta>, programId: Key, b: WithdrawBatch, raw: Bytes)
    requires GoodAccounts(env, w) && SubmitWithdraw(env, w, metas, programId, b, raw).Ok?
    ensures Kept(env, w, SubmitWithdraw(env, w, metas, programId, b, raw).value.w, metas[0].key)
  {
    var w' := SubmitWithdraw(env, w, metas, programId, b, raw).value.w;
    StoreKept(env, w, metas[1].key, w'[metas[1].key], metas[0].key);
  }

  /** Instance isolation and append-only slots: a successful instruction whose
      first account is P changes no token, program or withdraw account of another
      instance, never the address of an assigned slot, and lowers no count. */
  lemma PerformKept(env: Env, w: World, metas: seq<Meta>, programId: Key, i: Instruction, raw: Bytes)
    requires Addresses(env) && Good(env, w) && Perform(env, w, metas, programId, i, raw).Ok?
    ensures 0 < |metas| && Kept(env, w, Perform(env, w, metas, programId, i, raw).value, metas[0].key)
  {
    match i
    case InitProgramState(fee, change, network) => InitProgramKept(env, w, metas, fee, change, network);
    case InitTokenState(id) => InitTokenKept(env, w, metas, id);
    case InitWalletBalances(setups) => SetUpTokensKept(env, w, w, metas, setups, At(w, metas[0].key).p.network);
    case BatchDeposit(deposits) =>
      DepositFrame(w, metas, deposits);
      AmountsKept(env, w, DepositAll(w, metas, deposits).value, metas[0].key);
    case PrepareBatchWithdraw(batch) => PrepareWithdrawKept(env, w, metas, batch, raw);
    case PrepareBatchSettlement(settlements) => PrepareSettlementKept(env, w, metas, settlements, raw);
    case SubmitBatchSettlement(settlements) => SubmitSettlementKept(env, w, metas, settlements, raw);
    case RollbackBatchSettlement => RollbackSettlementKept(env, w, metas);
    case RollbackBatchWithdraw(tokens) => RollbackWithdrawKept(env, w, metas, tokens);
    case SubmitBatchWithdraw(batch) => SubmitWithdrawKept(env, w, metas, programId, batch, raw);
    case UpdateWithdrawStateUtxo(_, _) => AmountsKept(env, w, w, metas[0].key);
    case InitRuneReceiverState => InitReceiverKept(env, w, metas);
    case SetTokenRuneId(id) => SetTokenRuneIdKept(env, w, metas, id);
  }

  // ---------------------------------------------------------------------------
  // Runs
  // ---------------------------------------------------------------------------

  function Stepper(env: Env): (World, Tx) -> World {
    (w, tx) => Step(env, w, tx)
  }

  function Run(env: Env, w: World, txs: seq<Tx>): World {
    Sessions.RunOf(Stepper(env), w, txs)
  }

  /** The instruction in a transaction, if it decodes. */
  function InstructionOf(tx: Tx): Option<Instruction> {
    match Read(tx.data) case Bad => None case Got(i, _) => Some(i)
  }

  /** The transaction went through and its effect was stored. */
  predicate Succeeds(env: Env, w: World, tx: Tx) {
    var r := Process(env, w, tx.metas, tx.programId, tx.data);
    r.Ok? && Storable(r.value)
  }

  lemma StepKept(env: Env, w: World, tx: Tx)
    requires Addresses(env) && Good(env, w)
    ensures Good(env, Step(env, w, tx))
    ensures Succeeds(env, w, tx) ==> 0 < |tx.metas| && Permitted(w, Step(env, w, tx), tx.metas[0].key)
    ensures !Succeeds(env, w, tx) ==> Step(env, w, tx) == w
  {
    if Succeeds(env, w, tx) {
      PerformKept(env, w, tx.metas, tx.programId, InstructionOf(tx).value, tx.data[1..]);
    }
  }

  /** Accounts stay well formed over every run. */
  lemma {:induction false} RunGood(env: Env, w: World, txs: seq<Tx>)
    requires Addresses(env) && Good(env, w)
    ensures Good(env, Run(env, w, txs))
  {
    if txs != [] {
      var front := txs[..|txs| - 1];
      RunGood(env, w, front);
      StepKept(env, Run(env, w, front), txs[|txs| - 1]);
    }
  }

  lemma EmptyWorldGood(env: Env)
    ensures Good(env, map[])
  {
  }

  /** What a run of transactions of any instances can do to one account of
      program `owner`: the same as one permitted instruction. */
  ghost predicate Later(a: Account, a': Account) {
    match a
    case Empty => true
    case Token(t) => a'.Token? && Grows(t, a'.t)
    case Program(p) => a'.Program? && SameConfig(p, a'.p)
    case Withdraw(program, _) => a'.Withdraw? && a'.program == program
    case RuneReceiver(_) => a' == a
  }

  lemma {:induction false} RunLater(env: Env, w: World, txs: seq<Tx>, k: Key)
    requires Addresses(env) && Good(env, w)
    ensures Later(At(w, k), At(Run(env, w, txs), k))
  {
    if txs != [] {
      var front, last := txs[..|txs| - 1], txs[|txs| - 1];
      RunLater(env, w, front, k);
      RunGood(env, w, front);
      var w1 := Run(env, w, front);
      StepKept(env, w1, last);
      if Succeeds(env, w1, last) {
        assert MayBecome(k, At(w1, k), At(Step(env, w1, last), k), last.metas[0].key);
      }
    }
  }
}
