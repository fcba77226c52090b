/** Exactly when the instructions that set up accounts, and those that check a batch, go
    through, and what they leave. */
module ArchOutcomes {
  import opened Machine
  import opened Wrappers
  import opened ArchTypes
  import opened ArchLedger
  import opened ArchFrames
  import opened ArchChecks
  import opened ArchReports
  import opened ArchInvariants
  import opened ArchMoney

  // ---------------------------------------------------------------------------
  // Setting up accounts
  // ---------------------------------------------------------------------------

  /** A new token account: 10240 bytes, bound to the first account, without balances;
      a token that is no rune has the fee wallet in slot 0. */
  lemma InitTokenOutcome(env: Env, w: World, metas: seq<Meta>, id: Bytes)
    ensures InitToken(env, w, metas, id).Ok?
        <==> && ExpectProgram(w, metas, false, None).Ok? && ExpectEmpty(w, metas, 1, false, true).Ok? && |id| < 32
             && (env.rune(id).None? ==> |UpToNul(At(w, metas[0].key).p.feeAccount)| < 92)
    ensures InitToken(env, w, metas, id).Ok? ==>
              var w' := InitToken(env, w, metas, id).value;
              && w' == w[metas[1].key := At(w', metas[1].key)] && At(w', metas[1].key).Token?
              && var t := At(w', metas[1].key).t;
                 && t.program == metas[0].key && t.tokenId == id && t.size == 10240 && |t.slots| == 101
                 && t.count == (if env.rune(id).Some? then 0 else 1)
                 && forall i | 0 <= i < 101 ::
                      t.slots[i] == Slot(if i < t.count then UpToNul(At(w, metas[0].key).p.feeAccount) else [], 0)
  {
  }

  lemma SetRuneIdOutcome(env: Env, w: World, metas: seq<Meta>, id: Bytes)
    ensures SetRuneId(env, w, metas, id).Ok?
        <==> ExpectProgram(w, metas, false, None).Ok? && ExpectToken(w, metas, 1, true).Ok?
             && env.rune(id).Some? && |id| < 32
    ensures SetRuneId(env, w, metas, id).Ok? ==>
              SetRuneId(env, w, metas, id).value == w[metas[1].key := Token(At(w, metas[1].key).t.(tokenId := id))]
  {
  }

  /** The program account of a new exchange. */
  function NewExchange(metas: seq<Meta>, fee: Bytes, change: Bytes, network: Network): Account
    requires |metas| > 1
  {
    Program(ProgramState(metas[1].key, fee, change, network, EMPTY_HASH, EMPTY_HASH, [], Zeros(6400),
                         if |metas| == 3 then Some(metas[1].key) else None))
  }

  /** A new exchange: the program account with its addresses, no hashes and no events,
      and a withdraw account; or, with three accounts, a rune receiver in its place. */
  lemma InitProgramOutcome(env: Env, w: World, metas: seq<Meta>, fee: Bytes, change: Bytes, network: Network)
    ensures InitProgram(env, w, metas, fee, change, network).Ok?
        <==> && ExpectEmpty(w, metas, 0, true, true).Ok? && ExpectEmpty(w, metas, 1, false, true).Ok?
             && (|metas| == 3 ==> ExpectEmpty(w, metas, 2, false, true).Ok? && metas[2].key == metas[1].key)
             && env.parses(fee) && env.onNetwork(fee, network) && |fee| <= 92
             && env.parses(change) && env.onNetwork(change, network) && |change| <= 92
    ensures InitProgram(env, w, metas, fee, change, network).Ok? && metas[0].key != metas[1].key ==>
              InitProgram(env, w, metas, fee, change, network).value
              == w[metas[0].key := NewExchange(metas, fee, change, network)]
                  [metas[1].key := if |metas| == 3 then RuneReceiver(metas[0].key)
                                   else Withdraw(metas[0].key, EMPTY_HASH)]
  {
  }

  /** A new rune receiver, which the program account comes to know if it knows none. */
  lemma InitReceiverOutcome(w: World, metas: seq<Meta>)
    ensures InitRuneReceiver(w, metas).Ok?
        <==> ExpectProgram(w, metas, true, None).Ok? && ExpectEmpty(w, metas, 1, false, true).Ok?
    ensures InitRuneReceiver(w, metas).Ok? ==>
              var p := At(w, metas[0].key).p;
              var known := if p.runeReceiver.Some? then p.runeReceiver else Some(metas[1].key);
              forall k: Key ::
                At(InitRuneReceiver(w, metas).value, k)
                == if k == metas[0].key then Program(p.(runeReceiver := known))
                   else if k == metas[1].key then RuneReceiver(metas[0].key) else At(w, k)
  {
  }

  /** New wallets are accepted if and only if each is an address, on Bitcoin one of that
      network, that fits its slot, and the slots, grown if need be, suffice. */
  lemma {:induction false} SetAddressesIff(env: Env, t: TokenState, i: nat, wallets: seq<Bytes>, network: Network)
    ensures SetAddresses(env, t, i, wallets, network).Ok?
        <==> && (forall a | a in wallets :: AddressFits(env, a, network))
             && (wallets != [] ==> i + |wallets| <= |t.slots|)
    decreases |wallets|
  {
    if wallets != [] {
      assert wallets[0] in wallets && forall a | a in wallets :: a == wallets[0] || a in wallets[1..];
      var r := SetAddress(t, i, wallets[0]);
      if r.Ok? {
        SetAddressesIff(env, r.value, i + 1, wallets[1..], network);
      }
    }
  }

  predicate AddressFits(env: Env, a: Bytes, network: Network) {
    env.parses(a) && (network == Bitcoin ==> env.onNetwork(a, network)) && |a| < 92
  }

  /** So wallets are added if and only if that holds behind the count, for the slots of
      one step more than the account began with if they do not fit that. */
  lemma AddWalletsIff(env: Env, t: TokenState, original: nat, wallets: seq<Bytes>, network: Network)
    requires Sized(t) && original % 10240 == 0 && original <= MAX_PERMITTED_DATA_LENGTH
    requires t.size == original || t.size == original + MAX_PERMITTED_DATA_INCREASE
    ensures AddWallets(env, t, original, wallets, network).Ok?
        <==> && (forall a | a in wallets :: AddressFits(env, a, network))
             && (wallets != [] ==> t.count + |wallets| <= |Grow(t, original, |wallets|).slots|)
    ensures Grow(t, original, |wallets|).size
         == if 73 + 100 * (t.count + |wallets|) > original then original + 10240 else t.size
    ensures |Grow(t, original, |wallets|).slots| == SlotsIn(Grow(t, original, |wallets|).size)
  {
    GrowFrame(t, original, |wallets|);
    SetAddressesIff(env, Grow(t, original, |wallets|), t.count, wallets, network);
  }

  /** No account is larger than it was as the transaction began, or has grown by one
      step since. */
  ghost predicate OneStep(original: World, w: World) {
    forall k: Key {:trigger At(w, k)} :: SizeOf(At(w, k)) <= SizeOf(At(original, k)) + 10240
  }

  /** However many setups name it, an account grows by at most one step. */
  lemma {:induction false} SetUpGrows(env: Env, original: World, w: World, metas: seq<Meta>, setups: seq<TokenSetup>,
                                      network: Network)
    requires SetUpTokens(env, original, w, metas, setups, network).Ok? && OneStep(original, w)
    ensures OneStep(original, SetUpTokens(env, original, w, metas, setups, network).value)
    decreases |setups|
  {
    if setups != [] {
      var key, t := metas[setups[0].account].key, ExpectToken(w, metas, setups[0].account, true).value;
      var t' := AddWallets(env, t, SizeOf(At(original, key)), setups[0].wallets, network).value;
      assert SizeOf(At(w, key)) == t.size;
      AddWalletsGrows(env, t, SizeOf(At(original, key)), setups[0].wallets, network);
      var w1 := w[key := Token(t')];
      forall k: Key ensures SizeOf(At(w1, k)) <= SizeOf(At(original, k)) + 10240 {
        assert SizeOf(At(w, k)) <= SizeOf(At(original, k)) + 10240;
      }
      SetUpGrows(env, original, w1, metas, setups[1..], network);
    }
  }

  lemma AddWalletsGrows(env: Env, t: TokenState, original: nat, wallets: seq<Bytes>, network: Network)
    requires AddWallets(env, t, original, wallets, network).Ok? && t.size <= original + 10240
    ensures AddWallets(env, t, original, wallets, network).value.size <= original + 10240
  {
    SetAddressesFrame(env, Grow(t, original, |wallets|), t.count, wallets, network);
  }

  /** So one instruction grows an account by at most one step. */
  lemma InitWalletsGrows(env: Env, w: World, metas: seq<Meta>, setups: seq<TokenSetup>)
    requires InitWallets(env, w, metas, setups).Ok?
    ensures OneStep(w, InitWallets(env, w, metas, setups).value)
  {
    SetUpGrows(env, w, w, metas, setups, At(w, metas[0].key).p.network);
  }

  lemma UpdateUtxoOutcome(env: Env, w: World, metas: seq<Meta>, txId: Bytes)
    ensures UpdateUtxo(env, w, metas, txId).Ok?
        <==> ExpectProgram(w, metas, false, Some(1)).Ok? && ExpectWithdraw(w, metas, true).Ok? && env.txIdParses(txId)
    ensures UpdateUtxo(env, w, metas, txId).Ok? ==> UpdateUtxo(env, w, metas, txId).value == w
  {
  }

  // ---------------------------------------------------------------------------
  // Checking a settlement
  // ---------------------------------------------------------------------------

  /** The token and every wallet that a settlement names are named as they should be. */
  ghost predicate SettlementNamed(w: World, metas: seq<Meta>, s: Settlement) {
    var token := ExpectToken(w, metas, s.account, false);
    && token.Ok?
    && (forall a | a in s.decrements :: Names(token.value, a.address))
    && (forall a | a in s.increments :: Names(token.value, a.address))
  }

  ghost predicate SettlementNames(w: World, metas: seq<Meta>, ss: seq<Settlement>) {
    forall s | s in ss :: SettlementNamed(w, metas, s)
  }

  lemma FirstNamed(w: World, metas: seq<Meta>, ss: seq<Settlement>)
    requires ss != []
    ensures SettlementNames(w, metas, ss) <==> SettlementNamed(w, metas, ss[0]) && SettlementNames(w, metas, ss[1..])
  {
    assert ss[0] in ss && forall x :: x in ss <==> x == ss[0] || x in ss[1..];
  }

  lemma {:induction false} IncrementsIff(t: TokenState, adjs: seq<Adjustment>, total: u64)
    ensures VerifyIncrements(t, adjs, total).Ok? <==> forall a | a in adjs :: Names(t, a.address)
    decreases |adjs|
  {
    if adjs != [] {
      ValidatedIndexIff(t, adjs[0].address);
      assert forall a | a in adjs :: a == adjs[0] || a in adjs[1..];
      IncrementsIff(t, adjs[1..], WrapAdd(total, adjs[0].amount));
    }
  }

  lemma {:induction false} DecrementsIff(t: TokenState, account: u8, adjs: seq<Adjustment>, y: Tally)
    requires |y.p.events| <= MAX_EVENTS
    ensures VerifyDecrements(t, account, adjs, y).Ok?
        <==> && (forall a | a in adjs :: Names(t, a.address))
             && |y.p.events| + |DecrementFailures(t, account, adjs)| <= MAX_EVENTS
    decreases |adjs|
  {
    if adjs != [] {
      var a := adjs[0];
      ValidatedIndexIff(t, a.address);
      assert forall b | b in adjs :: b == a || b in adjs[1..];
      if Names(t, a.address) {
        var e := FailedSettlement(account, a.address.index, a.amount, SlotAmount(t, a.address.index), 603);
        var p := if a.amount > SlotAmount(t, a.address.index) then EmitEvent(y.p, e) else Ok(y.p);
        if p.Ok? {
          DecrementsIff(t, account, adjs[1..], Tally(WrapAdd(y.total, a.amount), p.value));
        }
      }
    }
  }

  lemma VerifySettlementIff(t: TokenState, s: Settlement, n: Netting)
    requires |n.p.events| <= MAX_EVENTS
    ensures VerifySettlement(t, s, n).Ok?
        <==> && (forall a | a in s.decrements :: Names(t, a.address))
             && (forall a | a in s.increments :: Names(t, a.address))
             && |n.p.events| + |DecrementFailures(t, s.account, s.decrements)| <= MAX_EVENTS
    ensures VerifySettlement(t, s, n).Ok? ==>
              |VerifySettlement(t, s, n).value.p.events|
                  == |n.p.events| + |DecrementFailures(t, s.account, s.decrements)|
  {
    DecrementsIff(t, s.account, s.decrements, Tally(0, n.p));
    IncrementsIff(t, s.increments, 0);
    if VerifySettlement(t, s, n).Ok? {
      DecrementReport(t, s.account, s.decrements, Tally(0, n.p));
    }
  }

  lemma {:induction false} VerifySettlementsIff(w: World, metas: seq<Meta>, ss: seq<Settlement>, n: Netting)
    requires |n.p.events| <= MAX_EVENTS
    ensures VerifySettlements(w, metas, ss, n).Ok?
        <==> SettlementNames(w, metas, ss) && |n.p.events| + |Uncovered(w, metas, ss)| <= MAX_EVENTS
    decreases |ss|
  {
    if ss != [] {
      FirstNamed(w, metas, ss);
      var token := ExpectToken(w, metas, ss[0].account, false);
      if token.Ok? {
        VerifySettlementIff(token.value, ss[0], n);
        var next := VerifySettlement(token.value, ss[0], n);
        if next.Ok? {
          VerifySettlementsIff(w, metas, ss[1..], next.value);
        }
      }
    }
  }

  lemma {:induction false} NetInRange(w: World, metas: seq<Meta>, ss: seq<Settlement>, n: Netting)
    requires VerifySettlements(w, metas, ss, n).Ok? && -0x8000_0000_0000_0000 <= n.total < 0x8000_0000_0000_0000
    ensures -0x8000_0000_0000_0000 <= VerifySettlements(w, metas, ss, n).value.total < 0x8000_0000_0000_0000
    decreases |ss|
  {
    if ss != [] {
      NetInRange(w, metas, ss[1..],
          VerifySettlement(ExpectToken(w, metas, ss[0].account, false).value, ss[0], n).value);
    }
  }

  /** The batch nets to zero up to a multiple of 2^64. */
  predicate NetsModulo(ss: seq<Settlement>) {
    (BatchCredits(ss) - BatchDebits(ss)) % U64 == 0
  }

  lemma ZeroIffNets(total: int, surplus: int, k: int)
    requires total == surplus - U64 * k && -0x8000_0000_0000_0000 <= total < 0x8000_0000_0000_0000
    ensures total == 0 <==> surplus % U64 == 0
  {
    if surplus % U64 == 0 {
      var q := surplus / U64;
      assert surplus == U64 * q && total == U64 * (q - k);
    }
  }

  /** What the verify loop promises, from an empty report on. */
  lemma VerifiedZeroIff(w: World, metas: seq<Meta>, ss: seq<Settlement>, p: ProgramState)
    requires p.events == []
    ensures var n := VerifySettlements(w, metas, ss, Netting(0, p));
            n.Ok? && n.value.total == 0
            <==> SettlementNames(w, metas, ss) && |Uncovered(w, metas, ss)| <= MAX_EVENTS && NetsModulo(ss)
  {
    var n := Netting(0, p);
    VerifySettlementsIff(w, metas, ss, n);
    if VerifySettlements(w, metas, ss, n).Ok? {
      var k := NettingWord(w, metas, ss, n);
      NetInRange(w, metas, ss, n);
      ZeroIffNets(VerifySettlements(w, metas, ss, n).value.total, BatchCredits(ss) - BatchDebits(ss), k);
    }
  }

  lemma PrepareGoesIff(env: Env, w: World, metas: seq<Meta>, ss: seq<Settlement>, raw: Bytes)
    ensures var program := ExpectProgram(w, metas, true, None);
            PrepareSettlement(env, w, metas, ss, raw).Ok?
            <==> && program.Ok? && program.value.settlementHash == EMPTY_HASH
                 && var n := VerifySettlements(w, metas, ss, Netting(0, ClearEvents(program.value)));
                    n.Ok? && n.value.total == 0
  {
  }

  /** Exactly when a settlement can be prepared: its session is idle, everything is
      named as it should be, at most 100 decrements are not covered, and it nets.
      PrepareSettlementReport says what it leaves. */
  lemma PrepareSettlementIff(env: Env, w: World, metas: seq<Meta>, ss: seq<Settlement>, raw: Bytes)
    ensures PrepareSettlement(env, w, metas, ss, raw).Ok?
        <==> && ExpectProgram(w, metas, true, None).Ok? && At(w, metas[0].key).p.settlementHash == EMPTY_HASH
             && SettlementNames(w, metas, ss) && |Uncovered(w, metas, ss)| <= 100 && NetsModulo(ss)
  {
    PrepareGoesIff(env, w, metas, ss, raw);
    var program := ExpectProgram(w, metas, true, None);
    if program.Ok? {
      VerifiedZeroIff(w, metas, ss, ClearEvents(program.value));
    }
  }

  /** Exactly when a settlement can be submitted, once it settles: its bytes hash to the
      stored hash.  The hash moves on, and the program account keeps everything else. */
  lemma SubmitSettlementOutcome(env: Env, w: World, metas: seq<Meta>, ss: seq<Settlement>, raw: Bytes)
    ensures SubmitSettlement(env, w, metas, ss, raw).Ok?
        <==> && ExpectProgram(w, metas, true, None).Ok?
             && At(w, metas[0].key).p.settlementHash == env.sha(raw) != EMPTY_HASH && SettleAll(w, metas, ss).Ok?
    ensures SubmitSettlement(env, w, metas, ss, raw).Ok? ==>
              At(SubmitSettlement(env, w, metas, ss, raw).value, metas[0].key)
              == Program(At(w, metas[0].key).p.(settlementHash := EMPTY_HASH, lastSettlementHash := env.sha(raw)))
  {
  }

  lemma RollbackSettlementOutcome(w: World, metas: seq<Meta>)
    ensures RollbackSettlement(w, metas).Ok? <==> ExpectProgram(w, metas, true, None).Ok?
    ensures RollbackSettlement(w, metas).Ok? ==>
              RollbackSettlement(w, metas).value
              == w[metas[0].key := Program(At(w, metas[0].key).p.(settlementHash := EMPTY_HASH))]
  {
  }

  // ---------------------------------------------------------------------------
  // Checking withdrawals
  // ---------------------------------------------------------------------------

  /** An entry can be judged: its wallet is readable, its fee account is a token account
      of the instance, and if its wallet may be used, so may its fee wallet. */
  predicate Judged(env: Env, w: World, metas: seq<Meta>, t: TokenState, d: Withdrawal, network: Network) {
    && (d.address.index < t.count ==> d.address.index < |t.slots| && 4 <= |AddressIn(t, d.address.index)|)
    && ExpectToken(w, metas, d.feeAccount, true).Ok?
    && (Usable(env, t, d.address, network)
        ==> Usable(env, ExpectToken(w, metas, d.feeAccount, true).value, d.feeAddress, network))
  }

  lemma VerifyOneIff(env: Env, w: World, metas: seq<Meta>, account: u8, t: TokenState, d: Withdrawal, network: Network)
    ensures VerifyOne(env, w, metas, account, t, d, network).Ok? <==> Judged(env, w, metas, t, d, network)
  {
    UsableIff(env, t, d.address, network);
    ValidatedIndexIff(t, d.address);
    if ExpectToken(w, metas, d.feeAccount, true).Ok? {
      UsableIff(env, ExpectToken(w, metas, d.feeAccount, true).value, d.feeAddress, network);
    }
  }

  lemma {:induction false} VerifyTokenIff(env: Env, w: World, metas: seq<Meta>, account: u8, t: TokenState,
                                          ds: seq<Withdrawal>, network: Network, p: ProgramState)
    requires |p.events| <= MAX_EVENTS
    ensures VerifyToken(env, w, metas, account, t, ds, network, p).Ok?
        <==> && (forall d | d in ds :: Judged(env, w, metas, t, d, network))
             && |p.events| + |TokenFailures(env, w, metas, account, t, ds, network)| <= MAX_EVENTS
    decreases |ds|
  {
    if ds != [] {
      VerifyOneIff(env, w, metas, account, t, ds[0], network);
      assert forall d | d in ds :: d == ds[0] || d in ds[1..];
      var e := VerifyOne(env, w, metas, account, t, ds[0], network);
      if e.Ok? {
        FailureIs(env, w, metas, account, t, ds[0], network);
        var p' := Report(p, e.value);
        if p'.Ok? {
          VerifyTokenIff(env, w, metas, account, t, ds[1..], network, p'.value);
        }
      }
    }
  }

  /** Every token account that the batch names is one of the instance, and every entry
      can be judged. */
  ghost predicate AllJudged(env: Env, w: World, metas: seq<Meta>, tokens: seq<TokenWithdrawals>, network: Network) {
    forall x | x in tokens ::
      && ExpectToken(w, metas, x.account, true).Ok?
      && forall d | d in x.withdrawals ::
          Judged(env, w, metas, ExpectToken(w, metas, x.account, true).value, d, network)
  }

  lemma {:induction false} VerifyWithdrawalsIff(env: Env, w: World, metas: seq<Meta>, tokens: seq<TokenWithdrawals>,
                                                network: Network, p: ProgramState)
    requires 0 < |metas| && |p.events| <= MAX_EVENTS
    ensures VerifyWithdrawals(env, w, metas, tokens, network, p).Ok?
        <==> && AllJudged(env, w, metas, tokens, network)
             && |p.events| + |Failures(env, w, metas, tokens, network)| <= MAX_EVENTS
    decreases |tokens|
  {
    if tokens != [] {
      var x, token := tokens[0], ExpectToken(w, metas, tokens[0].account, true);
      assert forall y | y in tokens :: y == x || y in tokens[1..];
      if token.Ok? {
        VerifyTokenIff(env, w, metas, x.account, token.value, x.withdrawals, network, p);
        var p' := VerifyToken(env, w, metas, x.account, token.value, x.withdrawals, network, p);
        if p'.Ok? {
          TokenReport(env, w, metas, x.account, token.value, x.withdrawals, network, p);
          VerifyWithdrawalsIff(env, w, metas, tokens[1..], network, p'.value);
        }
      }
    }
  }

  /** The third account is a rune receiver of the instance, or holds something else. */
  predicate ReceiverListed(w: World, metas: seq<Meta>, signer: bool) {
    && 2 < |metas| && !At(w, metas[2].key).Empty?
    && (At(w, metas[2].key).RuneReceiver? ==>
          FlagsAre(metas, 2, signer, false) && At(w, metas[2].key).program == metas[0].key)
  }

  lemma HasReceiverIff(w: World, metas: seq<Meta>, signer: bool)
    requires 0 < |metas|
    ensures HasReceiver(w, metas, signer).Ok? <==> ReceiverListed(w, metas, signer)
    ensures HasReceiver(w, metas, signer).Ok? ==>
              (HasReceiver(w, metas, signer).value <==> At(w, metas[2].key).RuneReceiver?)
  {
  }

  /** The funding transaction has inputs of as many types and no outputs, everything can
      be judged, and at most 100 entries cannot be paid. */
  ghost predicate Fundable(env: Env, w: World, metas: seq<Meta>, b: WithdrawBatch, network: Network) {
    && env.fundingTx(b.tx).Some? && env.fundingTx(b.tx).value.outputs == 0
    && |env.fundingTx(b.tx).value.inputs| == |b.inputTypes|
    && AllJudged(env, w, metas, b.tokens, network) && |Failures(env, w, metas, b.tokens, network)| <= 100
  }

  lemma FundableIff(env: Env, w: World, metas: seq<Meta>, b: WithdrawBatch, p: ProgramState)
    requires 0 < |metas|
    ensures var tx := env.fundingTx(b.tx);
            tx.Some? && tx.value.outputs == 0 && |tx.value.inputs| == |b.inputTypes|
            && VerifyWithdrawals(env, w, metas, b.tokens, p.network, ClearEvents(p)).Ok?
            <==> Fundable(env, w, metas, b, p.network)
  {
    VerifyWithdrawalsIff(env, w, metas, b.tokens, p.network, ClearEvents(p));
  }

  lemma CheckSteps(env: Env, w: World, metas: seq<Meta>, b: WithdrawBatch)
    ensures CheckWithdraw(env, w, metas, b).Ok?
        <==> && ExpectProgram(w, metas, true, Some(1)).Ok? && ExpectWithdraw(w, metas, false).Ok?
             && HasReceiver(w, metas, false).Ok?
             && var p := ExpectProgram(w, metas, true, Some(1)).value; var tx := env.fundingTx(b.tx);
                && p.settlementHash == EMPTY_HASH && ExpectWithdraw(w, metas, false).value == EMPTY_HASH
                && tx.Some? && tx.value.outputs == 0 && |tx.value.inputs| == |b.inputTypes|
                && VerifyWithdrawals(env, w, metas, b.tokens, p.network, ClearEvents(p)).Ok?
  {
  }

  /** Exactly when a withdrawal batch is checked without error: besides, both sessions
      are idle. */
  lemma CheckWithdrawIff(env: Env, w: World, metas: seq<Meta>, b: WithdrawBatch)
    ensures CheckWithdraw(env, w, metas, b).Ok?
        <==> && ExpectProgram(w, metas, true, Some(1)).Ok? && ExpectWithdraw(w, metas, false).Ok?
             && ReceiverListed(w, metas, false)
             && At(w, metas[0].key).p.settlementHash == EMPTY_HASH && At(w, metas[1].key).hash == EMPTY_HASH
             && Fundable(env, w, metas, b, At(w, metas[0].key).p.network)
  {
    CheckSteps(env, w, metas, b);
    if ExpectProgram(w, metas, true, Some(1)).Ok? {
      HasReceiverIff(w, metas, false);
      FundableIff(env, w, metas, b, At(w, metas[0].key).p);
    }
  }
}
