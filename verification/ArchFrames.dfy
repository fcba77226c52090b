/** What an instruction may change: only accounts bound to its own program
    account, never the address of an assigned slot, never a balance count
    downwards; and the shape of accounts that every run keeps. */
module ArchFrames {
  import opened Machine
  import opened ArchTypes
  import opened ArchLedger

  // ---------------------------------------------------------------------------
  // Well-formed accounts
  // ---------------------------------------------------------------------------

  /** Only strings of at least four characters without NUL are addresses. */
  ghost predicate Addresses(env: Env) {
    forall a: Bytes :: env.parses(a) ==> 4 <= |a| && 0 !in a
  }

  /** Data grows in whole steps, and the slots are all that it has room for. */
  predicate Sized(t: TokenState) {
    t.size > 0 && t.size % 10240 == 0 && |t.slots| == SlotsIn(t.size) && t.count <= |t.slots|
  }

  /** Assigned slots hold addresses. */
  ghost predicate GoodToken(t: TokenState) {
    && Sized(t)
    && |t.tokenId| < MAX_TOKEN_ID_SIZE
    && (forall i | 0 <= i < |t.slots| :: |t.slots[i].address| < MAX_ADDRESS_SIZE)
    && (forall i | 0 <= i < t.count :: |UpToNul(t.slots[i].address)| >= 4)
  }

  ghost predicate GoodProgram(env: Env, p: ProgramState) {
    && |p.feeAccount| <= MAX_ADDRESS_SIZE && |p.changeAddress| <= MAX_ADDRESS_SIZE
    && env.parses(p.feeAccount)
    && EVENT_SIZE * |p.events| + |p.stale| == EVENT_SIZE * MAX_EVENTS
  }

  ghost predicate GoodAccount(env: Env, a: Account) {
    match a
    case Token(t) => GoodToken(t)
    case Program(p) => GoodProgram(env, p)
    case _ => true
  }

  ghost predicate GoodAccounts(env: Env, w: World) {
    forall k: Key :: GoodAccount(env, At(w, k))
  }

  ghost predicate Good(env: Env, w: World) {
    GoodAccounts(env, w) && forall k: Key :: SizeOf(At(w, k)) <= MAX_PERMITTED_DATA_LENGTH
  }

  // ---------------------------------------------------------------------------
  // What may change
  // ---------------------------------------------------------------------------

  /** Amounts change and nothing else. */
  ghost predicate SameButAmounts(t: TokenState, t': TokenState) {
    && t' == t.(slots := t'.slots) && |t'.slots| == |t.slots|
    && forall i | 0 <= i < |t.slots| :: t'.slots[i].address == t.slots[i].address
  }

  /** Slots are only ever added, and assigned slots keep their address. */
  predicate Grows(t: TokenState, t': TokenState) {
    && t'.program == t.program && t.count <= t'.count && |t.slots| <= |t'.slots|
    && forall i | 0 <= i < t.count && i < |t.slots| :: t'.slots[i].address == t.slots[i].address
  }

  ghost predicate SameConfig(p: ProgramState, p': ProgramState) {
    && p'.withdrawAccount == p.withdrawAccount && p'.feeAccount == p.feeAccount
    && p'.changeAddress == p.changeAddress && p'.network == p.network
  }

  /** An account that an instruction under `owner` has created. */
  predicate CreatedBy(k: Key, a: Account, owner: Key) {
    match a
    case Empty => true
    case Token(t) => t.program == owner
    case Program(_) => k == owner
    case Withdraw(program, _) => program == owner
    case RuneReceiver(program) => program == owner
  }

  /** What an instruction under program account `owner` may do to one account. */
  ghost predicate MayBecome(k: Key, a: Account, a': Account, owner: Key) {
    match a
    case Empty => CreatedBy(k, a', owner)
    case Token(t) => a'.Token? && Grows(t, a'.t) && (t.program != owner ==> a' == a)
    case Program(p) => a'.Program? && SameConfig(p, a'.p) && (k != owner ==> a' == a)
    case Withdraw(program, _) => a'.Withdraw? && a'.program == program && (program != owner ==> a' == a)
    case RuneReceiver(_) => a' == a
  }

  ghost predicate Permitted(w: World, w': World, owner: Key) {
    forall k: Key {:trigger At(w', k)} :: MayBecome(k, At(w, k), At(w', k), owner)
  }

  /** Only amounts of tokens bound to `owner` change. */
  ghost predicate AmountsOnly(w: World, w': World, owner: Key) {
    forall k: Key {:trigger At(w', k)} ::
      At(w', k) == At(w, k)
      || (At(w, k).Token? && At(w', k).Token? && At(w, k).t.program == owner && SameButAmounts(At(w, k).t, At(w', k).t))
  }

  lemma AmountsOnlyTrans(w: World, w1: World, w2: World, owner: Key)
    requires AmountsOnly(w, w1, owner) && AmountsOnly(w1, w2, owner)
    ensures AmountsOnly(w, w2, owner)
  {
    forall k: Key
      ensures At(w2, k) == At(w, k)
        || (At(w, k).Token? && At(w2, k).Token? && At(w, k).t.program == owner
            && SameButAmounts(At(w, k).t, At(w2, k).t))
    {
      assert At(w1, k) == At(w1, k);
    }
  }

  lemma AmountsOnlyPermitted(env: Env, w: World, w': World, owner: Key)
    requires AmountsOnly(w, w', owner)
    ensures Permitted(w, w', owner)
    ensures GoodAccounts(env, w) ==> GoodAccounts(env, w')
    ensures forall k: Key :: SizeOf(At(w', k)) == SizeOf(At(w, k))
  {
    if GoodAccounts(env, w) {
      forall k: Key ensures GoodAccount(env, At(w', k)) {
        assert GoodAccount(env, At(w, k));
      }
    }
  }

  lemma StoreToken(w: World, k: Key, t': TokenState, owner: Key)
    requires At(w, k).Token? && At(w, k).t.program == owner && SameButAmounts(At(w, k).t, t')
    ensures AmountsOnly(w, w[k := Token(t')], owner)
  {
  }

  // ---------------------------------------------------------------------------
  // Amount-only operations
  // ---------------------------------------------------------------------------

  lemma {:induction false} AdjustFrame(t: TokenState, adjs: seq<Adjustment>, increment: bool)
    requires Adjust(t, adjs, increment).Ok?
    ensures SameButAmounts(t, Adjust(t, adjs, increment).value)
    decreases |adjs|
  {
    if adjs != [] {
      AdjustFrame(AdjustOne(t, adjs[0], increment).value, adjs[1..], increment);
    }
  }

  lemma SettleFrame(t: TokenState, s: Settlement)
    requires SettleToken(t, s).Ok?
    ensures SameButAmounts(t, SettleToken(t, s).value)
  {
    var t1 := CreditFee(t, s.feeAmount).value;
    if s.feeAmount > 0 {
      AdjustFrame(t, [Adjustment(AddressIndex(0, Last4(t.slots[0].address).value), s.feeAmount)], true);
    }
    AdjustFrame(t1, s.increments, true);
    AdjustFrame(Adjust(t1, s.increments, true).value, s.decrements, false);
  }

  lemma {:induction false} DepositFrame(w: World, metas: seq<Meta>, ds: seq<TokenDeposits>)
    requires 0 < |metas| && DepositAll(w, metas, ds).Ok?
    ensures AmountsOnly(w, DepositAll(w, metas, ds).value, metas[0].key)
    decreases |ds|
  {
    if ds != [] {
      var t := ExpectToken(w, metas, ds[0].account, true).value;
      AdjustFrame(t, ds[0].deposits, true);
      var key := metas[ds[0].account].key;
      var w1 := w[key := Token(Adjust(t, ds[0].deposits, true).value)];
      StoreToken(w, key, w1[key].t, metas[0].key);
      DepositFrame(w1, metas, ds[1..]);
      AmountsOnlyTrans(w, w1, DepositAll(w, metas, ds).value, metas[0].key);
    }
  }

  lemma {:induction false} SettleAllFrame(w: World, metas: seq<Meta>, ss: seq<Settlement>)
    requires 0 < |metas| && SettleAll(w, metas, ss).Ok?
    ensures AmountsOnly(w, SettleAll(w, metas, ss).value, metas[0].key)
    decreases |ss|
  {
    if ss != [] {
      var t := ExpectToken(w, metas, ss[0].account, true).value;
      SettleFrame(t, ss[0]);
      var key := metas[ss[0].account].key;
      var w1 := w[key := Token(SettleToken(t, ss[0]).value)];
      StoreToken(w, key, w1[key].t, metas[0].key);
      SettleAllFrame(w1, metas, ss[1..]);
      AmountsOnlyTrans(w, w1, SettleAll(w, metas, ss).value, metas[0].key);
    }
  }

  /** This entry of the account list is a token account bound to `owner`. */
  predicate BoundTo(w: World, metas: seq<Meta>, i: nat, owner: Key) {
    i < |metas| && At(w, metas[i].key).Token? && At(w, metas[i].key).t.program == owner
  }

  predicate BoundWithdrawals(w: World, metas: seq<Meta>, ds: seq<Withdrawal>, owner: Key) {
    forall d | d in ds :: BoundTo(w, metas, d.feeAccount, owner)
  }

  predicate BoundBatch(w: World, metas: seq<Meta>, tokens: seq<TokenWithdrawals>, owner: Key) {
    forall x | x in tokens :: BoundTo(w, metas, x.account, owner) && BoundWithdrawals(w, metas, x.withdrawals, owner)
  }

  lemma StaysBound(w: World, w': World, metas: seq<Meta>, i: nat, owner: Key)
    requires AmountsOnly(w, w', owner) && BoundTo(w, metas, i, owner)
    ensures BoundTo(w', metas, i, owner) && SameButAmounts(At(w, metas[i].key).t, At(w', metas[i].key).t)
  {
    var k := metas[i].key;
    assert At(w', k) == At(w, k) || SameButAmounts(At(w, k).t, At(w', k).t);
  }

  lemma BoundKept(w: World, w': World, metas: seq<Meta>, tokens: seq<TokenWithdrawals>, owner: Key)
    requires AmountsOnly(w, w', owner) && BoundBatch(w, metas, tokens, owner)
    ensures BoundBatch(w', metas, tokens, owner)
  {
    forall i: nat | BoundTo(w, metas, i, owner) ensures BoundTo(w', metas, i, owner) {
      StaysBound(w, w', metas, i, owner);
    }
  }

  lemma ChargeFrame(w: World, metas: seq<Meta>, account: u8, d: Withdrawal, feeAddress: Bytes, owner: Key)
    requires BoundTo(w, metas, account, owner) && BoundTo(w, metas, d.feeAccount, owner)
    requires ChargeOne(w, metas, account, d, feeAddress).Ok?
    ensures AmountsOnly(w, ChargeOne(w, metas, account, d, feeAddress).value, owner)
  {
    var t := At(w, metas[account].key).t;
    var w1 := w[metas[account].key := Token(Debit(t, d.address.index, d.amount).value)];
    StoreToken(w, metas[account].key, w1[metas[account].key].t, owner);
    var w2 := ChargeOne(w, metas, account, d, feeAddress).value;
    if d.feeAmount > 0 {
      StoreToken(w1, metas[d.feeAccount].key, w2[metas[d.feeAccount].key].t, owner);
    }
    AmountsOnlyTrans(w, w1, w2, owner);
  }

  lemma {:induction false} PrepareTokenFrame(env: Env, x: Draft, metas: seq<Meta>, account: u8, ds: seq<Withdrawal>,
                                             feeAddress: Bytes, network: Network, owner: Key)
    requires BoundTo(x.w, metas, account, owner) && BoundWithdrawals(x.w, metas, ds, owner)
    requires PrepareToken(env, x, metas, account, ds, feeAddress, network).Ok?
    ensures AmountsOnly(x.w, PrepareToken(env, x, metas, account, ds, feeAddress, network).value.w, owner)
    decreases |ds|
  {
    if ds != [] {
      assert BoundTo(x.w, metas, ds[0].feeAccount, owner);
      ChargeFrame(x.w, metas, account, ds[0], feeAddress, owner);
      var x' := PrepareOne(env, x, metas, account, ds[0], feeAddress, network).value;
      BoundKept(x.w, x'.w, metas, [TokenWithdrawals(account, ds[1..])], owner);
      assert TokenWithdrawals(account, ds[1..]) in [TokenWithdrawals(account, ds[1..])];
      PrepareTokenFrame(env, x', metas, account, ds[1..], feeAddress, network, owner);
      AmountsOnlyTrans(x.w, x'.w, PrepareToken(env, x, metas, account, ds, feeAddress, network).value.w, owner);
    }
  }

  lemma {:induction false} PrepareAllFrame(env: Env, x: Draft, metas: seq<Meta>, tokens: seq<TokenWithdrawals>,
                                           feeAddress: Bytes, network: Network, owner: Key)
    requires BoundBatch(x.w, metas, tokens, owner)
    requires PrepareAll(env, x, metas, tokens, feeAddress, network).Ok?
    ensures AmountsOnly(x.w, PrepareAll(env, x, metas, tokens, feeAddress, network).value.w, owner)
    decreases |tokens|
  {
    if tokens != [] {
      assert tokens[0] in tokens;
      PrepareTokenFrame(env, x, metas, tokens[0].account, tokens[0].withdrawals, feeAddress, network, owner);
      var x' := PrepareToken(env, x, metas, tokens[0].account, tokens[0].withdrawals, feeAddress, network).value;
      BoundKept(x.w, x'.w, metas, tokens, owner);
      PrepareAllFrame(env, x', metas, tokens[1..], feeAddress, network, owner);
      AmountsOnlyTrans(x.w, x'.w, PrepareAll(env, x, metas, tokens, feeAddress, network).value.w, owner);
    }
  }

  lemma RefundFrame(w: World, metas: seq<Meta>, account: u8, d: Withdrawal, feeAddress: Bytes)
    requires 0 < |metas| && BoundTo(w, metas, account, metas[0].key)
    requires RefundOne(w, metas, account, d, feeAddress).Ok?
    ensures AmountsOnly(w, RefundOne(w, metas, account, d, feeAddress).value, metas[0].key)
  {
    var owner := metas[0].key;
    var t := At(w, metas[account].key).t;
    var w1 := w[metas[account].key := Token(Credit(t, d.address.index, d.amount).value)];
    StoreToken(w, metas[account].key, w1[metas[account].key].t, owner);
    var w2 := RefundOne(w, metas, account, d, feeAddress).value;
    if d.feeAmount > 0 {
      StoreToken(w1, metas[d.feeAccount].key, w2[metas[d.feeAccount].key].t, owner);
    }
    AmountsOnlyTrans(w, w1, w2, owner);
  }

  lemma {:induction false} RefundTokenFrame(w: World, metas: seq<Meta>, account: u8, ds: seq<Withdrawal>,
                                            feeAddress: Bytes)
    requires 0 < |metas| && BoundTo(w, metas, account, metas[0].key)
    requires RefundToken(w, metas, account, ds, feeAddress).Ok?
    ensures AmountsOnly(w, RefundToken(w, metas, account, ds, feeAddress).value, metas[0].key)
    decreases |ds|
  {
    if ds != [] {
      RefundFrame(w, metas, account, ds[0], feeAddress);
      var w1 := RefundOne(w, metas, account, ds[0], feeAddress).value;
      StaysBound(w, w1, metas, account, metas[0].key);
      RefundTokenFrame(w1, metas, account, ds[1..], feeAddress);
      AmountsOnlyTrans(w, w1, RefundToken(w, metas, account, ds, feeAddress).value, metas[0].key);
    }
  }

  lemma {:induction false} RefundAllFrame(w: World, metas: seq<Meta>, tokens: seq<TokenWithdrawals>, feeAddress: Bytes)
    requires 0 < |metas| && RefundAll(w, metas, tokens, feeAddress).Ok?
    ensures AmountsOnly(w, RefundAll(w, metas, tokens, feeAddress).value, metas[0].key)
    decreases |tokens|
  {
    if tokens != [] {
      RefundTokenFrame(w, metas, tokens[0].account, tokens[0].withdrawals, feeAddress);
      var w1 := RefundToken(w, metas, tokens[0].account, tokens[0].withdrawals, feeAddress).value;
      RefundAllFrame(w1, metas, tokens[1..], feeAddress);
      AmountsOnlyTrans(w, w1, RefundAll(w, metas, tokens, feeAddress).value, metas[0].key);
    }
  }
}
