/** Growth of token accounts: new wallets start at zero as long as nothing was
    ever written behind the assigned slots, which only a rollback can do. */
module ArchGrowth {
  import opened Machine
  import opened Wrappers
  import opened ArchTypes
  import opened ArchLedger
  import opened ArchFrames
  import opened ArchReports
  import opened ArchInvariants
  import opened ArchSessions
  import opened ArchWithdrawal
  import opened ArchRollback

  /** All bytes behind the last assigned slot are zero. */
  ghost predicate CleanTail(t: TokenState) {
    forall i | t.count <= i < |t.slots| :: t.slots[i] == NO_SLOT
  }

  ghost predicate Clean(w: World) {
    forall k: Key :: At(w, k).Token? ==> CleanTail(At(w, k).t)
  }

  /** Unassigned slots stay as they are. */
  ghost predicate TailKept(t: TokenState, t': TokenState) {
    t'.count == t.count && |t'.slots| == |t.slots| && forall i | t.count <= i < |t.slots| :: t'.slots[i] == t.slots[i]
  }

  ghost predicate TailsKept(w: World, w': World) {
    forall k: Key {:trigger At(w', k)} ::
      (At(w', k).Token? <==> At(w, k).Token?) && (At(w, k).Token? ==> TailKept(At(w, k).t, At(w', k).t))
  }

  lemma TailsKeptTrans(w: World, w1: World, w2: World)
    requires TailsKept(w, w1) && TailsKept(w1, w2)
    ensures TailsKept(w, w2)
  {
    forall k: Key
      ensures At(w2, k).Token? <==> At(w, k).Token?
      ensures At(w, k).Token? ==> TailKept(At(w, k).t, At(w2, k).t)
    {
      var a := At(w1, k);
      assert a.Token? <==> At(w, k).Token?;
    }
  }

  lemma TailsKeptClean(w: World, w': World)
    requires TailsKept(w, w') && Clean(w)
    ensures Clean(w')
  {
    forall k: Key | At(w', k).Token? ensures CleanTail(At(w', k).t) {
      assert At(w, k).Token? && CleanTail(At(w, k).t);
    }
  }

  /** Storing an account that is no token, or a token with the same tail. */
  lemma StoreTail(w: World, w': World, k: Key, a: Account)
    requires w' == w[k := a] && (a.Token? <==> At(w, k).Token?) && (a.Token? ==> TailKept(At(w, k).t, a.t))
    ensures TailsKept(w, w')
  {
  }

  // ---------------------------------------------------------------------------
  // Instructions that write assigned slots only
  // ---------------------------------------------------------------------------

  lemma {:induction false} AdjustTail(t: TokenState, adjs: seq<Adjustment>, increment: bool)
    requires Adjust(t, adjs, increment).Ok?
    ensures TailKept(t, Adjust(t, adjs, increment).value)
    decreases |adjs|
  {
    if adjs != [] {
      AdjustTail(AdjustOne(t, adjs[0], increment).value, adjs[1..], increment);
    }
  }

  lemma SettleTail(t: TokenState, s: Settlement)
    requires SettleToken(t, s).Ok?
    ensures TailKept(t, SettleToken(t, s).value)
  {
    var t1 := CreditFee(t, s.feeAmount).value;
    if s.feeAmount > 0 {
      AdjustTail(t, [Adjustment(AddressIndex(0, Last4(t.slots[0].address).value), s.feeAmount)], true);
    }
    AdjustTail(t1, s.increments, true);
    AdjustTail(Adjust(t1, s.increments, true).value, s.decrements, false);
  }

  lemma {:induction false} DepositTails(w: World, metas: seq<Meta>, ds: seq<TokenDeposits>)
    requires DepositAll(w, metas, ds).Ok?
    ensures TailsKept(w, DepositAll(w, metas, ds).value)
    decreases |ds|
  {
    if ds != [] {
      var t := ExpectToken(w, metas, ds[0].account, true).value;
      AdjustTail(t, ds[0].deposits, true);
      var key := metas[ds[0].account].key;
      var w1 := w[key := Token(Adjust(t, ds[0].deposits, true).value)];
      StoreTail(w, w1, key, w1[key]);
      DepositTails(w1, metas, ds[1..]);
      TailsKeptTrans(w, w1, DepositAll(w, metas, ds).value);
    }
  }

  lemma {:induction false} SettleTails(w: World, metas: seq<Meta>, ss: seq<Settlement>)
    requires SettleAll(w, metas, ss).Ok?
    ensures TailsKept(w, SettleAll(w, metas, ss).value)
    decreases |ss|
  {
    if ss != [] {
      var t := ExpectToken(w, metas, ss[0].account, true).value;
      SettleTail(t, ss[0]);
      var key := metas[ss[0].account].key;
      var w1 := w[key := Token(SettleToken(t, ss[0]).value)];
      StoreTail(w, w1, key, w1[key]);
      SettleTails(w1, metas, ss[1..]);
      TailsKeptTrans(w, w1, SettleAll(w, metas, ss).value);
    }
  }

  /** A withdrawal names assigned slots, for the wallet and for the fee. */
  predicate EntryAssigned(w: World, metas: seq<Meta>, account: u8, d: Withdrawal) {
    && At(w, KeyAt(metas, account)).Token? && d.address.index < At(w, KeyAt(metas, account)).t.count
    && At(w, KeyAt(metas, d.feeAccount)).Token? && d.feeAddress.index < At(w, KeyAt(metas, d.feeAccount)).t.count
  }

  lemma EntryStaysAssigned(w: World, w': World, metas: seq<Meta>, account: u8, d: Withdrawal)
    requires TailsKept(w, w') && EntryAssigned(w, metas, account, d)
    ensures EntryAssigned(w', metas, account, d)
  {
    var a, f := At(w', KeyAt(metas, account)), At(w', KeyAt(metas, d.feeAccount));
    assert a.Token? && f.Token?;
  }

  lemma ChargeTails(w: World, metas: seq<Meta>, account: u8, d: Withdrawal, feeAddress: Bytes)
    requires EntryAssigned(w, metas, account, d) && ChargeOne(w, metas, account, d, feeAddress).Ok?
    ensures TailsKept(w, ChargeOne(w, metas, account, d, feeAddress).value)
  {
    var k := metas[account].key;
    var w1 := w[k := Token(Debit(At(w, k).t, d.address.index, d.amount).value)];
    StoreTail(w, w1, k, w1[k]);
    var w2 := ChargeOne(w, metas, account, d, feeAddress).value;
    if d.feeAmount > 0 {
      var f := metas[d.feeAccount].key;
      StoreTail(w1, w2, f, w2[f]);
    }
    TailsKeptTrans(w, w1, w2);
  }

  lemma {:induction false} PrepareTokenTails(env: Env, x: Draft, metas: seq<Meta>, account: u8, ds: seq<Withdrawal>,
                                             feeAddress: Bytes, network: Network)
    requires PrepareToken(env, x, metas, account, ds, feeAddress, network).Ok?
    requires forall d | d in ds :: EntryAssigned(x.w, metas, account, d)
    ensures TailsKept(x.w, PrepareToken(env, x, metas, account, ds, feeAddress, network).value.w)
    decreases |ds|
  {
    if ds != [] {
      assert ds[0] in ds;
      ChargeTails(x.w, metas, account, ds[0], feeAddress);
      var x' := PrepareOne(env, x, metas, account, ds[0], feeAddress, network).value;
      forall d | d in ds[1..] ensures EntryAssigned(x'.w, metas, account, d) {
        EntryStaysAssigned(x.w, x'.w, metas, account, d);
      }
      PrepareTokenTails(env, x', metas, account, ds[1..], feeAddress, network);
      TailsKeptTrans(x.w, x'.w, PrepareToken(env, x, metas, account, ds, feeAddress, network).value.w);
    }
  }

  predicate AllAssigned(w: World, metas: seq<Meta>, tokens: seq<TokenWithdrawals>) {
    forall x | x in tokens :: forall d | d in x.withdrawals :: EntryAssigned(w, metas, x.account, d)
  }

  lemma {:induction false} PrepareAllTails(env: Env, x: Draft, metas: seq<Meta>, tokens: seq<TokenWithdrawals>,
                                           feeAddress: Bytes, network: Network)
    requires PrepareAll(env, x, metas, tokens, feeAddress, network).Ok? && AllAssigned(x.w, metas, tokens)
    ensures TailsKept(x.w, PrepareAll(env, x, metas, tokens, feeAddress, network).value.w)
    decreases |tokens|
  {
    if tokens != [] {
      var y := tokens[0];
      assert y in tokens;
      PrepareTokenTails(env, x, metas, y.account, y.withdrawals, feeAddress, network);
      var x' := PrepareToken(env, x, metas, y.account, y.withdrawals, feeAddress, network).value;
      forall z, d | z in tokens[1..] && d in z.withdrawals ensures EntryAssigned(x'.w, metas, z.account, d) {
        EntryStaysAssigned(x.w, x'.w, metas, z.account, d);
      }
      PrepareAllTails(env, x', metas, tokens[1..], feeAddress, network);
      TailsKeptTrans(x.w, x'.w, PrepareAll(env, x, metas, tokens, feeAddress, network).value.w);
    }
  }

  lemma PayableIsAssigned(env: Env, w: World, metas: seq<Meta>, tokens: seq<TokenWithdrawals>, network: Network)
    requires forall x | x in tokens :: AllPayable(env, w, metas, x, network)
    ensures AllAssigned(w, metas, tokens)
  {
    forall x, d | x in tokens && d in x.withdrawals ensures EntryAssigned(w, metas, x.account, d) {
      assert AllPayable(env, w, metas, x, network);
      assert Payable(env, ExpectToken(w, metas, x.account, true).value,
          ExpectToken(w, metas, d.feeAccount, true).value, d, network);
    }
  }

  lemma CheckedIsAssigned(env: Env, w: World, metas: seq<Meta>, b: WithdrawBatch)
    requires CheckWithdraw(env, w, metas, b).Ok? && CheckWithdraw(env, w, metas, b).value.events == []
    ensures AllAssigned(w, metas, b.tokens)
  {
    CheckWithdrawFrame(env, w, metas, b);
    var p := At(w, metas[0].key).p;
    BatchReport(env, w, metas, b.tokens, p.network, ClearEvents(p));
    PayableIsAssigned(env, w, metas, b.tokens, p.network);
  }

  lemma AllStayAssigned(w: World, w': World, metas: seq<Meta>, tokens: seq<TokenWithdrawals>)
    requires TailsKept(w, w') && AllAssigned(w, metas, tokens)
    ensures AllAssigned(w', metas, tokens)
  {
    forall x, d | x in tokens && d in x.withdrawals ensures EntryAssigned(w', metas, x.account, d) {
      EntryStaysAssigned(w, w', metas, x.account, d);
    }
  }

  lemma PrepareWithdrawTails(env: Env, w: World, metas: seq<Meta>, b: WithdrawBatch, raw: Bytes)
    requires PrepareWithdraw(env, w, metas, b, raw).Ok?
    ensures TailsKept(w, PrepareWithdraw(env, w, metas, b, raw).value)
  {
    var p1 := CheckWithdraw(env, w, metas, b).value;
    CheckWithdrawFrame(env, w, metas, b);
    var w1 := w[metas[0].key := Program(p1)];
    StoreTail(w, w1, metas[0].key, Program(p1));
    if p1.events == [] {
      CheckedIsAssigned(env, w, metas, b);
      AllStayAssigned(w, w1, metas, b.tokens);
      DraftWithdrawFrame(env, w, metas, b, p1);
      AcceptedTails(env, w, w1, metas, b, p1, Withdraw(metas[0].key, env.sha(raw)));
    }
  }

  lemma AcceptedTails(env: Env, w: World, w1: World, metas: seq<Meta>, b: WithdrawBatch, p1: ProgramState,
                      done: Account)
    requires DraftWithdraw(env, w1, metas, b, p1).Ok? && AllAssigned(w1, metas, b.tokens) && TailsKept(w, w1)
        && |metas| > 1
    requires var w2 := DraftWithdraw(env, w1, metas, b, p1).value.w; At(w2, metas[1].key) == At(w1, metas[1].key)
    requires !At(w1, metas[1].key).Token? && !done.Token?
    ensures TailsKept(w, DraftWithdraw(env, w1, metas, b, p1).value.w[metas[1].key := done])
  {
    PrepareAllTails(env, Draft(w1, NO_PAYOUT), metas, b.tokens, UpToNul(p1.feeAccount), p1.network);
    var w2 := DraftWithdraw(env, w1, metas, b, p1).value.w;
    TailsKeptTrans(w, w1, w2);
    StoreTail(w2, w2[metas[1].key := done], metas[1].key, done);
    TailsKeptTrans(w, w2, w2[metas[1].key := done]);
  }

  lemma SubmitSettlementTails(env: Env, w: World, metas: seq<Meta>, ss: seq<Settlement>, raw: Bytes)
    requires SubmitSettlement(env, w, metas, ss, raw).Ok?
    ensures TailsKept(w, SubmitSettlement(env, w, metas, ss, raw).value)
  {
    var w1, w2 := SettleAll(w, metas, ss).value, SubmitSettlement(env, w, metas, ss, raw).value;
    SettleTails(w, metas, ss);
    SettleAllFrame(w, metas, ss);
    assert At(w1, metas[0].key) == At(w, metas[0].key);
    StoreTail(w1, w2, metas[0].key, w2[metas[0].key]);
    TailsKeptTrans(w, w1, w2);
  }

  // ---------------------------------------------------------------------------
  // New wallets
  // ---------------------------------------------------------------------------

  /** New wallets start at zero, and the room behind them is zero. */
  lemma NewWalletsStartAtZero(env: Env, t: TokenState, original: nat, wallets: seq<Bytes>, network: Network)
    requires GoodToken(t) && original % 10240 == 0 && original <= MAX_PERMITTED_DATA_LENGTH && CleanTail(t)
    requires t.size == original || t.size == original + MAX_PERMITTED_DATA_INCREASE
    requires AddWallets(env, t, original, wallets, network).Ok?
    ensures var t' := AddWallets(env, t, original, wallets, network).value;
            && t'.count == t.count + |wallets| <= |t'.slots| && CleanTail(t')
            && forall i | 0 <= i < |wallets| :: t'.slots[t.count + i] == Slot(wallets[i], 0)
  {
    AddWalletsShape(env, t, original, wallets, network);
    var t' := AddWallets(env, t, original, wallets, network).value;
    forall j | t.count <= j < |t'.slots|
      ensures t'.slots[j] == if j < t.count + |wallets| then Slot(wallets[j - t.count], 0) else NO_SLOT
    {
      AddWalletsSlot(env, t, original, wallets, network, j);
    }
  }

  lemma {:induction false} SetUpClean(env: Env, original: World, w: World, metas: seq<Meta>,
                                      setups: seq<TokenSetup>, network: Network)
    requires Addresses(env) && Good(env, original) && GoodAccounts(env, w) && OneStep(original, w) && Clean(w)
    requires forall k: Key :: At(w, k).Token? ==> At(original, k).Token?
    requires 0 < |metas| && SetUpTokens(env, original, w, metas, setups, network).Ok?
    ensures Clean(SetUpTokens(env, original, w, metas, setups, network).value)
    decreases |setups|
  {
    if setups != [] {
      var t := ExpectToken(w, metas, setups[0].account, true).value;
      var key := metas[setups[0].account].key;
      assert GoodAccount(env, At(w, key)) && GoodAccount(env, At(original, key)) && CleanTail(At(w, key).t);
      var size := SizeOf(At(original, key));
      assert size <= MAX_PERMITTED_DATA_LENGTH && SizeOf(At(w, key)) == t.size;
      AddWalletsShape(env, t, size, setups[0].wallets, network);
      AddWalletsFrame(env, t, size, setups[0].wallets, network);
      NewWalletsStartAtZero(env, t, size, setups[0].wallets, network);
      var w1 := w[key := Token(AddWallets(env, t, size, setups[0].wallets, network).value)];
      StoreKept(env, w, key, w1[key], metas[0].key);
      forall k: Key | At(w1, k).Token? ensures CleanTail(At(w1, k).t) {
        assert k != key ==> CleanTail(At(w, k).t);
      }
      SetUpClean(env, original, w1, metas, setups[1..], network);
    }
  }

  /** How many wallets the setups add to one account. */
  function WalletsFor(metas: seq<Meta>, setups: seq<TokenSetup>, k: Key): nat {
    if setups == [] then 0 else
    (if KeyAt(metas, setups[0].account) == k then |setups[0].wallets| else 0) + WalletsFor(metas, setups[1..], k)
  }

  function CountOf(a: Account): nat {
    if a.Token? then a.t.count else 0
  }

  /** The wallets set up so far and those still to come are at most 102 per account. */
  ghost predicate AtMost102(original: World, w: World, metas: seq<Meta>, setups: seq<TokenSetup>) {
    forall k: Key {:trigger At(w, k)} ::
      At(w, k).Token? ==> CountOf(At(w, k)) + WalletsFor(metas, setups, k) <= CountOf(At(original, k)) + 102
  }

  ghost predicate NoneEmpty(w: World, metas: seq<Meta>, setups: seq<TokenSetup>) {
    forall x | x in setups && x.account as nat < |metas| :: !At(w, metas[x.account].key).Empty?
  }

  lemma SetUpOneInBounds(env: Env, original: World, w: World, metas: seq<Meta>, setups: seq<TokenSetup>,
                         network: Network)
    requires Good(env, original) && SettingUp(env, original, w) && AtMost102(original, w, metas, setups)
    requires setups != [] && ExpectToken(w, metas, setups[0].account, true).Ok?
    ensures var key := metas[setups[0].account].key;
            AddWallets(env, At(w, key).t, SizeOf(At(original, key)), setups[0].wallets, network) != Err(Panic)
  {
    var key := metas[setups[0].account].key;
    assert GoodAccount(env, At(w, key)) && GoodAccount(env, At(original, key));
    FitsAsItBegan(At(original, key).t);
    AddWalletsInBounds(env, At(w, key).t, SizeOf(At(original, key)), CountOf(At(original, key)), setups[0].wallets,
        network);
  }

  lemma AtMost102Later(original: World, w: World, metas: seq<Meta>, setups: seq<TokenSetup>, key: Key, t': TokenState)
    requires AtMost102(original, w, metas, setups) && setups != [] && key == KeyAt(metas, setups[0].account)
        && At(w, key).Token?
    requires t'.count == CountOf(At(w, key)) + |setups[0].wallets|
    ensures AtMost102(original, w[key := Token(t')], metas, setups[1..])
  {
    var w1 := w[key := Token(t')];
    forall k: Key | At(w1, k).Token?
      ensures CountOf(At(w1, k)) + WalletsFor(metas, setups[1..], k) <= CountOf(At(original, k)) + 102
    {
      var a := At(w, k);
      assert a.Token?;
    }
  }

  /** Growth is safe: setting up at most 102 wallets per account in one
      instruction, over any number of setups, never runs out of bounds. */
  lemma {:induction false} SetUpInBounds(env: Env, original: World, w: World, metas: seq<Meta>,
                                         setups: seq<TokenSetup>, network: Network)
    requires Addresses(env) && Good(env, original) && SettingUp(env, original, w) && 0 < |metas|
    requires AtMost102(original, w, metas, setups) && NoneEmpty(w, metas, setups)
    ensures SetUpTokens(env, original, w, metas, setups, network) != Err(Panic)
    decreases |setups|
  {
    if setups != [] && ExpectToken(w, metas, setups[0].account, true).Ok? {
      var key := metas[setups[0].account].key;
      SetUpOneInBounds(env, original, w, metas, setups, network);
      var r := AddWallets(env, At(w, key).t, SizeOf(At(original, key)), setups[0].wallets, network);
      if r.Ok? {
        SetUpOneKept(env, original, w, metas, setups[0], network, r.value);
        AtMost102Later(original, w, metas, setups, key, r.value);
        SetUpInBounds(env, original, w[key := Token(r.value)], metas, setups[1..], network);
      }
    }
  }

  /** One instruction that sets up at most 102 wallets for each account, with
      existing accounts only, does not run out of bounds. */
  lemma InitWalletsInBounds(env: Env, w: World, metas: seq<Meta>, setups: seq<TokenSetup>)
    requires Addresses(env) && Good(env, w) && 0 < |metas| && !At(w, metas[0].key).Empty? && NoneEmpty(w, metas, setups)
    requires forall k: Key :: WalletsFor(metas, setups, k) <= 102
    ensures InitWallets(env, w, metas, setups) != Err(Panic)
  {
    if ExpectProgram(w, metas, false, None).Ok? {
      SetUpInBounds(env, w, w, metas, setups, At(w, metas[0].key).p.network);
    }
  }

  lemma FitsAsItBegan(t: TokenState)
    requires Sized(t)
    ensures SlotOffset(t.count) <= t.size
  {
  }

  // ---------------------------------------------------------------------------
  // Rollback
  // ---------------------------------------------------------------------------

  /** Every fee that goes back to another account goes to an assigned slot. */
  ghost predicate RefundsAssigned(w: World, metas: seq<Meta>, tokens: seq<TokenWithdrawals>) {
    forall x | x in tokens :: forall d | d in x.withdrawals && OtherFee(metas, x.account, d) ::
      d.feeAddress.index < CountOf(At(w, KeyAt(metas, d.feeAccount)))
  }

  /** The indexes of a refund that went through: the wallet is assigned, the slot
      that gets the fee back is inside the data, and slot 0 is assigned. */
  predicate RefundIndexes(w: World, metas: seq<Meta>, account: u8, d: Withdrawal) {
    && d.address.index < CountOf(At(w, KeyAt(metas, account)))
    && (d.feeAmount > 0 ==> 0 < CountOf(At(w, KeyAt(metas, d.feeAccount))))
    && (OtherFee(metas, account, d) ==>
          At(w, KeyAt(metas, d.feeAccount)).Token? && d.feeAddress.index < |At(w, KeyAt(metas, d.feeAccount)).t.slots|)
  }

  /** Counts, sizes and addresses, which amounts do not affect. */
  ghost predicate SameShape(w: World, w': World) {
    forall k: Key {:trigger At(w', k)} ::
        (At(w', k).Token? <==> At(w, k).Token?) && (At(w, k).Token? ==> SameButAmounts(At(w, k).t, At(w', k).t))
  }

  lemma AmountsOnlySameShape(w: World, w': World, owner: Key)
    requires AmountsOnly(w, w', owner)
    ensures SameShape(w, w')
  {
  }

  lemma SameShapeTrans(w: World, w1: World, w2: World)
    requires SameShape(w, w1) && SameShape(w1, w2)
    ensures SameShape(w, w2)
  {
    forall k: Key
      ensures At(w2, k).Token? <==> At(w, k).Token?
      ensures At(w, k).Token? ==> SameButAmounts(At(w, k).t, At(w2, k).t)
    {
      var a := At(w1, k);
      assert a.Token? <==> At(w, k).Token?;
    }
  }

  lemma RefundOneIndexes(w0: World, w: World, metas: seq<Meta>, account: u8, d: Withdrawal, feeAddress: Bytes)
    requires Clean(w0) && SameShape(w0, w) && feeAddress != []
    requires RefundOne(w, metas, account, d, feeAddress).Ok?
    ensures RefundIndexes(w0, metas, account, d)
  {
    var a := metas[account].key;
    assert At(w, a).Token? && SameButAmounts(At(w0, a).t, At(w, a).t);
    if d.feeAmount > 0 {
      var k := metas[d.feeAccount].key;
      var f := At(w, k);
      assert f.Token? && SameButAmounts(At(w0, k).t, f.t) && CleanTail(At(w0, k).t);
    }
  }

  lemma {:induction false} RefundTokenIndexes(w0: World, w: World, metas: seq<Meta>, account: u8,
                                              ds: seq<Withdrawal>, feeAddress: Bytes)
    requires Clean(w0) && SameShape(w0, w) && feeAddress != [] && 0 < |metas|
        && BoundTo(w, metas, account, metas[0].key)
    requires RefundToken(w, metas, account, ds, feeAddress).Ok?
    ensures forall d | d in ds :: RefundIndexes(w0, metas, account, d)
    decreases |ds|
  {
    if ds != [] {
      RefundOneIndexes(w0, w, metas, account, ds[0], feeAddress);
      RefundFrame(w, metas, account, ds[0], feeAddress);
      var w1 := RefundOne(w, metas, account, ds[0], feeAddress).value;
      StaysBound(w, w1, metas, account, metas[0].key);
      AmountsOnlySameShape(w, w1, metas[0].key);
      SameShapeTrans(w0, w, w1);
      RefundTokenIndexes(w0, w1, metas, account, ds[1..], feeAddress);
    }
  }

  lemma {:induction false} RefundAllIndexes(w0: World, w: World, metas: seq<Meta>, tokens: seq<TokenWithdrawals>,
                                            feeAddress: Bytes)
    requires Clean(w0) && SameShape(w0, w) && feeAddress != [] && 0 < |metas|
    requires RefundAll(w, metas, tokens, feeAddress).Ok?
    ensures forall x | x in tokens :: forall d | d in x.withdrawals :: RefundIndexes(w0, metas, x.account, d)
    decreases |tokens|
  {
    if tokens != [] {
      var x := tokens[0];
      RefundTokenIndexes(w0, w, metas, x.account, x.withdrawals, feeAddress);
      RefundTokenFrame(w, metas, x.account, x.withdrawals, feeAddress);
      var w1 := RefundToken(w, metas, x.account, x.withdrawals, feeAddress).value;
      AmountsOnlySameShape(w, w1, metas[0].key);
      SameShapeTrans(w0, w, w1);
      RefundAllIndexes(w0, w1, metas, tokens[1..], feeAddress);
    }
  }

  /** Of the slots behind the assigned ones, a batch touches exactly those that
      some fee goes back to. */
  lemma {:induction false} TokenTakenBehind(w: World, metas: seq<Meta>, account: u8, ds: seq<Withdrawal>, s: Place)
    requires CountOf(At(w, s.0)) <= s.1 && forall d | d in ds :: RefundIndexes(w, metas, account, d)
    ensures TokenFees(metas, ds, s) == 0
    ensures TokenTaken(metas, account, ds, s) == 0
        <==> forall d | d in ds && OtherFee(metas, account, d) ::
            s != (KeyAt(metas, d.feeAccount), d.feeAddress.index as nat)
  {
    if ds != [] {
      assert ds[0] in ds;
      assert forall d | d in ds :: d == ds[0] || d in ds[1..];
      TokenTakenBehind(w, metas, account, ds[1..], s);
    }
  }

  lemma {:induction false} TakenBehind(w: World, metas: seq<Meta>, tokens: seq<TokenWithdrawals>, s: Place)
    requires CountOf(At(w, s.0)) <= s.1
    requires forall x | x in tokens :: forall d | d in x.withdrawals :: RefundIndexes(w, metas, x.account, d)
    ensures BatchFees(metas, tokens, s) == 0
    ensures BatchTaken(metas, tokens, s) == 0 <==>
      forall x | x in tokens :: forall d | d in x.withdrawals && OtherFee(metas, x.account, d) ::
        s != (KeyAt(metas, d.feeAccount), d.feeAddress.index as nat)
  {
    if tokens != [] {
      assert tokens[0] in tokens;
      assert forall x | x in tokens :: x == tokens[0] || x in tokens[1..];
      TokenTakenBehind(w, metas, tokens[0].account, tokens[0].withdrawals, s);
      TakenBehind(w, metas, tokens[1..], s);
    }
  }

  lemma CleanAfterRefund(w: World, w': World, metas: seq<Meta>, tokens: seq<TokenWithdrawals>)
    requires Clean(w) && SameShape(w, w')
    requires forall x | x in tokens :: forall d | d in x.withdrawals :: RefundIndexes(w, metas, x.account, d)
    requires forall s: Place ::
        Amount(w', s) == Amount(w, s) + BatchTaken(metas, tokens, s) - BatchFees(metas, tokens, s)
    ensures Clean(w') <==> RefundsAssigned(w, metas, tokens)
  {
    if RefundsAssigned(w, metas, tokens) {
      forall k: Key, i | At(w', k).Token? && At(w', k).t.count <= i < |At(w', k).t.slots|
        ensures At(w', k).t.slots[i] == NO_SLOT
      {
        assert At(w, k).Token? && SameButAmounts(At(w, k).t, At(w', k).t) && CleanTail(At(w, k).t);
        TakenBehind(w, metas, tokens, (k, i));
        assert Amount(w', (k, i))
            == Amount(w, (k, i)) + BatchTaken(metas, tokens, (k, i)) - BatchFees(metas, tokens, (k, i));
      }
    } else {
      var x :|
        x in tokens
        && exists d ::
          d in x.withdrawals && OtherFee(metas, x.account, d)
          && d.feeAddress.index >= CountOf(At(w, KeyAt(metas, d.feeAccount)));
      var d :| d in x.withdrawals && OtherFee(metas, x.account, d)
          && d.feeAddress.index >= CountOf(At(w, KeyAt(metas, d.feeAccount)));
      var s := (KeyAt(metas, d.feeAccount), d.feeAddress.index as nat);
      TakenBehind(w, metas, tokens, s);
      assert RefundIndexes(w, metas, x.account, d);
      assert SameButAmounts(At(w, s.0).t, At(w', s.0).t) && CleanTail(At(w, s.0).t);
      assert Amount(w', s) == Amount(w, s) + BatchTaken(metas, tokens, s) - BatchFees(metas, tokens, s);
      assert At(w', s.0).t.slots[s.1] != NO_SLOT;
    }
  }

  /** A rollback that goes through leaves zeros behind the assigned slots if and
      only if every fee it gives back to another account goes to an assigned slot:
      the code does not check that index. */
  lemma RollbackCleanIff(env: Env, w: World, metas: seq<Meta>, tokens: seq<TokenWithdrawals>)
    requires Addresses(env) && GoodAccounts(env, w) && Clean(w) && RollbackWithdraw(w, metas, tokens).Ok?
    requires forall s: Place :: Amount(w, s) + BatchTaken(metas, tokens, s) < U64
    ensures Clean(RollbackWithdraw(w, metas, tokens).value) <==> RefundsAssigned(w, metas, tokens)
  {
    var p := At(w, metas[0].key).p;
    assert GoodAccount(env, At(w, metas[0].key));
    UpToNulWhole(p.feeAccount);
    var w1 := RefundAll(w, metas, tokens, p.feeAccount).value;
    assert SameShape(w, w);
    RefundAllIndexes(w, w, metas, tokens, p.feeAccount);
    RefundAllFrame(w, metas, tokens, p.feeAccount);
    AmountsOnlySameShape(w, w1, metas[0].key);
    forall s: Place ensures Amount(w1, s) == Amount(w, s) + BatchTaken(metas, tokens, s) - BatchFees(metas, tokens, s) {
      RefundAllAmount(w, metas, tokens, p.feeAccount, s);
    }
    CleanAfterRefund(w, w1, metas, tokens);
    assert At(w1, metas[1].key) == At(w, metas[1].key);
    NotATokenClean(w1, metas[1].key, Withdraw(metas[0].key, EMPTY_HASH));
  }

  /** A refund that names assigned slots only. */
  predicate RefundInside(w: World, metas: seq<Meta>, account: u8, d: Withdrawal) {
    && d.address.index < CountOf(At(w, KeyAt(metas, account)))
    && (d.feeAmount > 0 ==> 0 < CountOf(At(w, KeyAt(metas, d.feeAccount))))
    && (OtherFee(metas, account, d) ==> d.feeAddress.index < CountOf(At(w, KeyAt(metas, d.feeAccount))))
  }

  lemma StaysInside(w: World, w': World, metas: seq<Meta>, account: u8, d: Withdrawal)
    requires TailsKept(w, w') && RefundInside(w, metas, account, d)
    ensures RefundInside(w', metas, account, d)
  {
    var a, f := At(w', KeyAt(metas, account)), At(w', KeyAt(metas, d.feeAccount));
    assert CountOf(a) == CountOf(At(w, KeyAt(metas, account)))
        && CountOf(f) == CountOf(At(w, KeyAt(metas, d.feeAccount)));
  }

  lemma RefundTails(w: World, metas: seq<Meta>, account: u8, d: Withdrawal, feeAddress: Bytes)
    requires RefundInside(w, metas, account, d) && RefundOne(w, metas, account, d, feeAddress).Ok?
    ensures TailsKept(w, RefundOne(w, metas, account, d, feeAddress).value)
  {
    var k := metas[account].key;
    var w1 := w[k := Token(Credit(At(w, k).t, d.address.index, d.amount).value)];
    StoreTail(w, w1, k, w1[k]);
    var w2 := RefundOne(w, metas, account, d, feeAddress).value;
    if d.feeAmount > 0 {
      var f := metas[d.feeAccount].key;
      StoreTail(w1, w2, f, w2[f]);
    }
    TailsKeptTrans(w, w1, w2);
  }

  lemma {:induction false} RefundTokenTails(w: World, metas: seq<Meta>, account: u8, ds: seq<Withdrawal>,
                                            feeAddress: Bytes)
    requires (forall d | d in ds :: RefundInside(w, metas, account, d))
        && RefundToken(w, metas, account, ds, feeAddress).Ok?
    ensures TailsKept(w, RefundToken(w, metas, account, ds, feeAddress).value)
    decreases |ds|
  {
    if ds != [] {
      assert ds[0] in ds;
      RefundTails(w, metas, account, ds[0], feeAddress);
      var w1 := RefundOne(w, metas, account, ds[0], feeAddress).value;
      forall d | d in ds[1..] ensures RefundInside(w1, metas, account, d) {
        StaysInside(w, w1, metas, account, d);
      }
      RefundTokenTails(w1, metas, account, ds[1..], feeAddress);
      TailsKeptTrans(w, w1, RefundToken(w, metas, account, ds, feeAddress).value);
    }
  }

  ghost predicate AllInside(w: World, metas: seq<Meta>, tokens: seq<TokenWithdrawals>) {
    forall x | x in tokens :: forall d | d in x.withdrawals :: RefundInside(w, metas, x.account, d)
  }

  lemma {:induction false} RefundAllTails(w: World, metas: seq<Meta>, tokens: seq<TokenWithdrawals>, feeAddress: Bytes)
    requires AllInside(w, metas, tokens) && RefundAll(w, metas, tokens, feeAddress).Ok?
    ensures TailsKept(w, RefundAll(w, metas, tokens, feeAddress).value)
    decreases |tokens|
  {
    if tokens != [] {
      var x := tokens[0];
      assert x in tokens;
      RefundTokenTails(w, metas, x.account, x.withdrawals, feeAddress);
      var w1 := RefundToken(w, metas, x.account, x.withdrawals, feeAddress).value;
      forall y, d | y in tokens[1..] && d in y.withdrawals ensures RefundInside(w1, metas, y.account, d) {
        StaysInside(w, w1, metas, y.account, d);
      }
      RefundAllTails(w1, metas, tokens[1..], feeAddress);
      TailsKeptTrans(w, w1, RefundAll(w, metas, tokens, feeAddress).value);
    }
  }

  /** One half of it needs no bound on the balances. */
  lemma AssignedRollbackClean(env: Env, w: World, metas: seq<Meta>, tokens: seq<TokenWithdrawals>)
    requires Addresses(env) && GoodAccounts(env, w) && Clean(w) && RollbackWithdraw(w, metas, tokens).Ok?
    requires RefundsAssigned(w, metas, tokens)
    ensures Clean(RollbackWithdraw(w, metas, tokens).value)
  {
    var p := At(w, metas[0].key).p;
    assert GoodAccount(env, At(w, metas[0].key));
    UpToNulWhole(p.feeAccount);
    var w1 := RefundAll(w, metas, tokens, p.feeAccount).value;
    assert SameShape(w, w);
    RefundAllIndexes(w, w, metas, tokens, p.feeAccount);
    forall x, d | x in tokens && d in x.withdrawals ensures RefundInside(w, metas, x.account, d) {
      assert RefundIndexes(w, metas, x.account, d);
    }
    RefundAllTails(w, metas, tokens, p.feeAccount);
    TailsKeptClean(w, w1);
    RefundAllFrame(w, metas, tokens, p.feeAccount);
    assert At(w1, metas[1].key) == At(w, metas[1].key);
    NotATokenClean(w1, metas[1].key, Withdraw(metas[0].key, EMPTY_HASH));
  }

  /** A rollback of a prepared batch, with the same accounts and whenever it comes,
      gives fees back to assigned slots only. */
  lemma MatchedRollbackAssigned(env: Env, w0: World, prep: Tx, txs: seq<Tx>, rollback: seq<Meta>)
    requires Addresses(env) && Good(env, w0) && PreparesBatch(env, w0, prep) && RollbackList(prep.metas, rollback)
    ensures RefundsAssigned(Run(env, Step(env, w0, prep), txs), rollback, InstructionOf(prep).value.batch.tokens)
  {
    var b, w := InstructionOf(prep).value.batch, Run(env, Step(env, w0, prep), txs);
    PreparedEntries(env, w0, prep.metas, b, RawOf(prep));
    PayableIsAssigned(env, w0, prep.metas, b.tokens, At(w0, prep.metas[0].key).p.network);
    LaterAccounts(env, w0, prep, txs);
    forall x, d | x in b.tokens && d in x.withdrawals && OtherFee(rollback, x.account, d)
      ensures d.feeAddress.index < CountOf(At(w, KeyAt(rollback, d.feeAccount)))
    {
      assert EntryAssigned(w0, prep.metas, x.account, d);
      var k := KeyAt(prep.metas, d.feeAccount);
      assert Later(At(w0, k), At(w, k));
    }
  }

  lemma NotATokenClean(w: World, k: Key, a: Account)
    requires !At(w, k).Token? && !a.Token?
    ensures Clean(w[k := a]) <==> Clean(w)
  {
    var w' := w[k := a];
    assert forall j: Key :: At(w', j).Token? <==> At(w, j).Token?;
    assert forall j: Key :: At(w, j).Token? ==> At(w', j) == At(w, j);
  }

  // ---------------------------------------------------------------------------
  // Every instruction and every run
  // ---------------------------------------------------------------------------

  lemma InitTokenClean(env: Env, w: World, metas: seq<Meta>, id: Bytes)
    requires Clean(w) && InitToken(env, w, metas, id).Ok?
    ensures Clean(InitToken(env, w, metas, id).value)
  {
    var w' := InitToken(env, w, metas, id).value;
    forall k: Key | At(w', k).Token? ensures CleanTail(At(w', k).t) {
      assert k != metas[1].key ==> CleanTail(At(w, k).t);
    }
  }

  lemma SetRuneIdClean(env: Env, w: World, metas: seq<Meta>, id: Bytes)
    requires Clean(w) && SetRuneId(env, w, metas, id).Ok?
    ensures Clean(SetRuneId(env, w, metas, id).value)
  {
    var w' := SetRuneId(env, w, metas, id).value;
    forall k: Key | At(w', k).Token? ensures CleanTail(At(w', k).t) {
      assert CleanTail(At(w, k).t);
    }
  }

  lemma InitProgramClean(env: Env, w: World, metas: seq<Meta>, fee: Bytes, change: Bytes, network: Network)
    requires Clean(w) && InitProgram(env, w, metas, fee, change, network).Ok?
    ensures Clean(InitProgram(env, w, metas, fee, change, network).value)
  {
    var w' := InitProgram(env, w, metas, fee, change, network).value;
    forall k: Key | At(w', k).Token? ensures CleanTail(At(w', k).t) {
      assert CleanTail(At(w, k).t);
    }
  }

  lemma InitReceiverClean(w: World, metas: seq<Meta>)
    requires Clean(w) && InitRuneReceiver(w, metas).Ok?
    ensures Clean(InitRuneReceiver(w, metas).value)
  {
    var w' := InitRuneReceiver(w, metas).value;
    forall k: Key | At(w', k).Token? ensures CleanTail(At(w', k).t) {
      assert CleanTail(At(w, k).t);
    }
  }

  lemma ProgramStoreClean(w: World, k: Key, a: Account)
    requires Clean(w) && !a.Token?
    ensures Clean(w[k := a])
  {
    var w' := w[k := a];
    forall j: Key | At(w', j).Token? ensures CleanTail(At(w', j).t) {
      assert CleanTail(At(w, j).t);
    }
  }

  /** Every instruction other than a withdrawal rollback leaves zeros behind the
      assigned slots. */
  lemma PerformClean(env: Env, w: World, metas: seq<Meta>, programId: Key, i: Instruction, raw: Bytes)
    requires Addresses(env) && Good(env, w) && Clean(w)
    requires Perform(env, w, metas, programId, i, raw).Ok? && !i.RollbackBatchWithdraw?
    ensures Clean(Perform(env, w, metas, programId, i, raw).value)
  {
    var w' := Perform(env, w, metas, programId, i, raw).value;
    match i
    case InitProgramState(fee, change, network) => InitProgramClean(env, w, metas, fee, change, network);
    case InitTokenState(id) => InitTokenClean(env, w, metas, id);
    case InitWalletBalances(setups) => SetUpClean(env, w, w, metas, setups, At(w, metas[0].key).p.network);
    case BatchDeposit(deposits) =>
      DepositTails(w, metas, deposits);
      TailsKeptClean(w, w');
    case PrepareBatchWithdraw(batch) =>
      PrepareWithdrawTails(env, w, metas, batch, raw);
      TailsKeptClean(w, w');
    case PrepareBatchSettlement(settlements) =>
      PrepareSettlementReport(env, w, metas, settlements, raw);
      ProgramStoreClean(w, metas[0].key, At(w', metas[0].key));
    case SubmitBatchSettlement(settlements) =>
      SubmitSettlementTails(env, w, metas, settlements, raw);
      TailsKeptClean(w, w');
    case RollbackBatchSettlement => ProgramStoreClean(w, metas[0].key, At(w', metas[0].key));
    case SubmitBatchWithdraw(batch) => ProgramStoreClean(w, metas[1].key, Withdraw(metas[0].key, EMPTY_HASH));
    case UpdateWithdrawStateUtxo(_, _) =>
    case InitRuneReceiverState => InitReceiverClean(w, metas);
    case SetTokenRuneId(id) => SetRuneIdClean(env, w, metas, id);
  }

  /** A rollback in this transaction gives fees back to assigned slots only. */
  ghost predicate RollbackAssigned(w: World, tx: Tx) {
    InstructionOf(tx).Some? && InstructionOf(tx).value.RollbackBatchWithdraw? ==>
      RefundsAssigned(w, tx.metas, InstructionOf(tx).value.tokens)
  }

  lemma TransactionClean(env: Env, w: World, tx: Tx)
    requires Addresses(env) && Good(env, w) && Clean(w) && RollbackAssigned(w, tx) && Succeeds(env, w, tx)
    ensures Clean(Step(env, w, tx))
  {
    var i := InstructionOf(tx).value;
    if i.RollbackBatchWithdraw? {
      AssignedRollbackClean(env, w, tx.metas, i.tokens);
    } else {
      PerformClean(env, w, tx.metas, tx.programId, i, RawOf(tx));
    }
  }

  /** Over every run whose rollbacks do so, unassigned slots stay zero, so that
      every new wallet starts at zero. */
  lemma {:induction false} RunClean(env: Env, w: World, txs: seq<Tx>)
    requires Addresses(env) && Good(env, w) && Clean(w)
    requires forall n | 0 <= n < |txs| :: RollbackAssigned(Run(env, w, txs[..n]), txs[n])
    ensures Clean(Run(env, w, txs))
  {
    if txs != [] {
      var front, last := txs[..|txs| - 1], txs[|txs| - 1];
      assert forall n | 0 <= n < |front| :: front[..n] == txs[..n];
      assert RollbackAssigned(Run(env, w, front), last);
      RunClean(env, w, front);
      RunGood(env, w, front);
      if Succeeds(env, Run(env, w, front), last) {
        TransactionClean(env, Run(env, w, front), last);
      }
    }
  }
}
