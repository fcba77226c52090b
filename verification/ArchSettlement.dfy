/** Settlement over runs: it conserves money, and once prepared it stays
    submittable. */
module ArchSettlement {
  import opened Machine
  import opened Wrappers
  import opened Sums
  import opened ArchTypes
  import opened ArchLedger
  import opened ArchFrames
  import opened ArchChecks
  import opened ArchInvariants
  import opened ArchMoney
  import opened ArchSessions

  // ---------------------------------------------------------------------------
  // Conservation
  // ---------------------------------------------------------------------------

  lemma PreparedNets(env: Env, w: World, metas: seq<Meta>, ss: seq<Settlement>, raw: Bytes) returns (k: int)
    requires PrepareSettlement(env, w, metas, ss, raw).Ok?
    ensures BatchCredits(ss) - BatchDebits(ss) == U64 * k
  {
    k := NettingWord(w, metas, ss, Netting(0, ClearEvents(At(w, metas[0].key).p)));
  }

  lemma SubmitMoney(env: Env, w: World, metas: seq<Meta>, ss: seq<Settlement>, raw: Bytes)
    requires SubmitSettlement(env, w, metas, ss, raw).Ok?
    ensures TotalMoney(SubmitSettlement(env, w, metas, ss, raw).value)
         == TotalMoney(w) + BatchCredits(ss) - BatchDebits(ss) - U64 * BatchCarries(w, metas, ss)
    ensures TotalMoney(w) + BatchCredits(ss) < U64 ==> BatchCarries(w, metas, ss) == 0
  {
    var w1 := SettleAll(w, metas, ss).value;
    SettleAllMoney(w, metas, ss);
    SettleAllFrame(w, metas, ss);
    assert At(w1, metas[0].key) == At(w, metas[0].key);
    StoreMoney(w1, metas[0].key, SubmitSettlement(env, w, metas, ss, raw).value[metas[0].key]);
    if TotalMoney(w) + BatchCredits(ss) < U64 {
      SettleAllRoom(w, metas, ss);
    }
  }

  lemma PrepareStepNets(env: Env, w: World, tx: Tx, owner: Key, raw: Bytes) returns (k: int)
    requires PreparesSettlement(env, w, tx, owner, raw)
    ensures var ss := InstructionOf(tx).value.settlements; BatchCredits(ss) - BatchDebits(ss) == U64 * k
  {
    k := PreparedNets(env, w, tx.metas, InstructionOf(tx).value.settlements, raw);
  }

  lemma SubmitStepMoney(env: Env, w: World, tx: Tx)
    requires Succeeds(env, w, tx) && InstructionOf(tx).value.SubmitBatchSettlement?
    ensures var ss := InstructionOf(tx).value.settlements;
            && TotalMoney(Step(env, w, tx))
                == TotalMoney(w) + BatchCredits(ss) - BatchDebits(ss) - U64 * BatchCarries(w, tx.metas, ss)
            && (TotalMoney(w) + BatchCredits(ss) < U64 ==> BatchCarries(w, tx.metas, ss) == 0)
  {
    SubmitMoney(env, w, tx.metas, InstructionOf(tx).value.settlements, RawOf(tx));
  }

  /** What is left to say once the batch is known to net to zero. */
  lemma NettedMoney(before: nat, after: nat, credits: nat, debits: nat, k: int, carries: nat)
    requires credits - debits == U64 * k && after == before + credits - debits - U64 * carries
    requires before + credits < U64 ==> carries == 0
    ensures after == before <==> credits - debits == U64 * carries
    ensures before + credits < U64 ==> after == before
  {
    if before + credits < U64 {
      assert k < 1 && k > -1;
    }
  }

  /** Every settlement of a run that goes through keeps the total over all token
      accounts if and only if its credits exceed its debits by exactly 2^64 for
      each credit that wraps; it always does while the total and the batch's
      credits together stay below 2^64. */
  lemma SettlementConserves(env: Env, w0: World, txs: seq<Tx>, n: nat)
    requires DigestsNonEmpty(env) && CollisionFree(env, txs) && n < |txs|
    requires Succeeds(env, Run(env, w0, txs[..n]), txs[n]) && InstructionOf(txs[n]).value.SubmitBatchSettlement?
    requires 0 < |txs[n].metas| && SettlementWord(w0, txs[n].metas[0].key) == EMPTY_HASH
    ensures var w := Run(env, w0, txs[..n]);
            var w' := Step(env, w, txs[n]); var ss := InstructionOf(txs[n]).value.settlements;
            && (TotalMoney(w') == TotalMoney(w)
                <==> BatchCredits(ss) - BatchDebits(ss) == U64 * BatchCarries(w, txs[n].metas, ss))
            && (TotalMoney(w) + BatchCredits(ss) < U64 ==> TotalMoney(w') == TotalMoney(w))
  {
    var w := Run(env, w0, txs[..n]);
    var ss := InstructionOf(txs[n]).value.settlements;
    var m := SettlementExactlyOnce(env, w0, txs, n);
    var k := PrepareStepNets(env, Run(env, w0, txs[..m]), txs[m], txs[n].metas[0].key, RawOf(txs[n]));
    SubmitStepMoney(env, w, txs[n]);
    NettedMoney(TotalMoney(w), TotalMoney(Step(env, w, txs[n])), BatchCredits(ss), BatchDebits(ss), k,
        BatchCarries(w, txs[n].metas, ss));
  }

  // ---------------------------------------------------------------------------
  // Decrements that hit pairwise distinct slots
  // ---------------------------------------------------------------------------

  datatype Target = Target(key: Key, index: nat, amount: u64)

  function TargetsOf(key: Key, adjs: seq<Adjustment>): seq<Target> {
    if adjs == [] then [] else [Target(key, adjs[0].address.index, adjs[0].amount)] + TargetsOf(key, adjs[1..])
  }

  /** What a settlement batch takes, slot by slot. */
  function Targets(metas: seq<Meta>, ss: seq<Settlement>): seq<Target> {
    if ss == [] then [] else
    (if ss[0].account as nat < |metas| then TargetsOf(metas[ss[0].account].key, ss[0].decrements) else [])
    + Targets(metas, ss[1..])
  }

  ghost predicate Distinct(ts: seq<Target>) {
    forall i, j | 0 <= i < j < |ts| :: ts[i].key != ts[j].key || ts[i].index != ts[j].index
  }

  predicate Covers(w: World, x: Target) {
    At(w, x.key).Token? && x.index < |At(w, x.key).t.slots| && x.amount <= At(w, x.key).t.slots[x.index].amount
  }

  /** Every slot that the batch takes from holds enough. */
  ghost predicate CoversAll(w: World, ts: seq<Target>) {
    forall x | x in ts :: Covers(w, x)
  }

  lemma DistinctTail(ts: seq<Target>, us: seq<Target>)
    requires Distinct(ts + us)
    ensures Distinct(ts) && Distinct(us)
    ensures forall x, y | x in ts && y in us :: x.key != y.key || x.index != y.index
  {
    var all := ts + us;
    forall i, j | 0 <= i < j < |us| ensures us[i].key != us[j].key || us[i].index != us[j].index {
      assert all[|ts| + i] == us[i] && all[|ts| + j] == us[j];
    }
    forall i, j | 0 <= i < j < |ts| ensures ts[i].key != ts[j].key || ts[i].index != ts[j].index {
      assert all[i] == ts[i] && all[j] == ts[j];
    }
    forall x, y | x in ts && y in us ensures x.key != y.key || x.index != y.index {
      var i :| 0 <= i < |ts| && ts[i] == x;
      var j :| 0 <= j < |us| && us[j] == y;
      assert all[i] == x && all[|ts| + j] == y;
    }
  }

  // ---------------------------------------------------------------------------
  // A covered batch settles
  // ---------------------------------------------------------------------------

  predicate IndexesValid(t: TokenState, adjs: seq<Adjustment>) {
    forall a | a in adjs :: Names(t, a.address)
  }

  lemma IndexesStayValid(t: TokenState, t': TokenState, adjs: seq<Adjustment>)
    requires SameButAmounts(t, t') && IndexesValid(t, adjs)
    ensures IndexesValid(t', adjs)
  {
  }

  /** Decrements of distinct covered slots succeed and leave all other slots alone. */
  lemma {:induction false} DecrementsSucceed(t: TokenState, key: Key, adjs: seq<Adjustment>)
    requires IndexesValid(t, adjs) && Distinct(TargetsOf(key, adjs))
    requires forall x | x in TargetsOf(key, adjs) :: x.index < |t.slots| && x.amount <= t.slots[x.index].amount
    ensures Adjust(t, adjs, false).Ok?
    ensures var t' := Adjust(t, adjs, false).value;
            |t'.slots| == |t.slots|
            && forall i | 0 <= i < |t.slots| ::
                (forall x | x in TargetsOf(key, adjs) :: x.index != i) ==> t'.slots[i] == t.slots[i]
    decreases |adjs|
  {
    if adjs != [] {
      assert adjs[0] in adjs;
      var first := Target(key, adjs[0].address.index, adjs[0].amount);
      var rest := TargetsOf(key, adjs[1..]);
      assert first in TargetsOf(key, adjs) && forall x | x in rest :: x in TargetsOf(key, adjs);
      DistinctTail([first], rest);
      TargetsShareKey(key, adjs[1..]);
      var t' := AdjustOne(t, adjs[0], false).value;
      IndexesStayValid(t, t', adjs[1..]);
      assert forall x | x in rest :: x.index != first.index;
      DecrementsSucceed(t', key, adjs[1..]);
      assert forall x | x in TargetsOf(key, adjs) :: x == first || x in rest;
    }
  }

  lemma {:induction false} TargetsShareKey(key: Key, adjs: seq<Adjustment>)
    ensures forall x | x in TargetsOf(key, adjs) :: x.key == key
  {
    if adjs != [] {
      TargetsShareKey(key, adjs[1..]);
    }
  }

  /** The settlement of one token names assigned wallets. */
  predicate SettleNames(t: TokenState, s: Settlement) {
    IndexesValid(t, s.increments) && IndexesValid(t, s.decrements)
  }

  /** Slot 0 is assigned if there is a fee to put there. */
  predicate FeeHasHome(t: TokenState, s: Settlement) {
    s.feeAmount > 0 ==> t.count > 0
  }

  lemma SettleSucceeds(t: TokenState, key: Key, s: Settlement)
    requires GoodToken(t) && SettleNames(t, s) && FeeHasHome(t, s) && Money(t) + Credits(s) < U64
    requires Distinct(TargetsOf(key, s.decrements))
    requires forall x | x in TargetsOf(key, s.decrements) :: x.index < |t.slots| && x.amount <= t.slots[x.index].amount
    ensures SettleToken(t, s).Ok?
    ensures var t' := SettleToken(t, s).value;
            |t'.slots| == |t.slots| && forall i | 0 <= i < |t.slots| ::
              (forall x | x in TargetsOf(key, s.decrements) :: x.index != i) ==> t.slots[i].amount <= t'.slots[i].amount
  {
    if s.feeAmount > 0 {
      var adj := Adjustment(AddressIndex(0, Last4(t.slots[0].address).value), s.feeAmount);
      CreditsIff(t, [adj]);
      AdjustFrame(t, [adj], true);
    }
    FeeMoney(t, s.feeAmount);
    var t1 := CreditFee(t, s.feeAmount).value;
    if s.feeAmount > 0 {
      CreditMoney(t, 0, s.feeAmount);
    }
    IndexesStayValid(t, t1, s.increments);
    CreditsIff(t1, s.increments);
    IncrementsRoom(t1, s.increments);
    AdjustFrame(t1, s.increments, true);
    var t2 := Adjust(t1, s.increments, true).value;
    assert SameButAmounts(t, t2);
    IndexesStayValid(t, t2, s.decrements);
    forall x | x in TargetsOf(key, s.decrements) ensures x.amount <= t2.slots[x.index].amount {
      assert t.slots[x.index].amount <= t1.slots[x.index].amount;
    }
    DecrementsSucceed(t2, key, s.decrements);
  }

  /** The accounts that a batch names are tokens of the instance, listed as
      submit wants them. */
  ghost predicate Settleable(w: World, metas: seq<Meta>, ss: seq<Settlement>) {
    forall s | s in ss :: ExpectToken(w, metas, s.account, true).Ok?
      && GoodToken(ExpectToken(w, metas, s.account, true).value)
      && SettleNames(ExpectToken(w, metas, s.account, true).value, s)
  }

  lemma SettleableKept(w: World, w': World, metas: seq<Meta>, ss: seq<Settlement>)
    requires 0 < |metas| && Settleable(w, metas, ss) && AmountsOnly(w, w', metas[0].key)
    ensures Settleable(w', metas, ss)
  {
    forall s | s in ss
      ensures ExpectToken(w', metas, s.account, true).Ok?
        && GoodToken(ExpectToken(w', metas, s.account, true).value)
        && SettleNames(ExpectToken(w', metas, s.account, true).value, s)
    {
      var t := ExpectToken(w, metas, s.account, true).value;
      StaysBound(w, w', metas, s.account, metas[0].key);
      var t' := At(w', metas[s.account].key).t;
      IndexesStayValid(t, t', s.increments);
      IndexesStayValid(t, t', s.decrements);
    }
  }

  /** The money in the token accounts of one instance. */
  function OwnMoneyIn(owner: Key): (Key, Account) -> nat {
    (k: Key, a: Account) => if a.Token? && a.t.program == owner then Money(a.t) else 0
  }

  ghost function OwnMoney(w: World, owner: Key): nat {
    Total(w, OwnMoneyIn(owner))
  }

  lemma StoreOwnMoney(w: World, w': World, k: Key, a: Account, owner: Key)
    requires w' == w[k := a]
    ensures OwnMoney(w', owner) == OwnMoney(w, owner) - OwnMoneyIn(owner)(k, At(w, k)) + OwnMoneyIn(owner)(k, a)
    ensures OwnMoneyIn(owner)(k, At(w, k)) <= OwnMoney(w, owner)
  {
    TotalUpdate(w, OwnMoneyIn(owner), k, a);
    if k in w {
      EntryAtMostTotal(w, OwnMoneyIn(owner), k);
    }
  }

  /** Settling one token of a covered batch goes through, leaves the rest of the
      batch covered, and keeps within the bound. */
  lemma SettleOneOfMany(w: World, metas: seq<Meta>, s: Settlement, rest: seq<Target>) returns (w': World)
    requires s.account as nat < |metas| && At(w, metas[s.account].key).Token?
    requires 0 < |metas| && Settleable(w, metas, [s]) && FeeHasHome(At(w, metas[s.account].key).t, s)
    requires OwnMoney(w, metas[0].key) + Credits(s) < U64
    requires Distinct(TargetsOf(metas[s.account].key, s.decrements) + rest)
    requires CoversAll(w, TargetsOf(metas[s.account].key, s.decrements)) && CoversAll(w, rest)
    ensures ExpectToken(w, metas, s.account, true).Ok?
        && SettleToken(ExpectToken(w, metas, s.account, true).value, s).Ok?
    ensures w' == w[metas[s.account].key := Token(SettleToken(ExpectToken(w, metas, s.account, true).value, s).value)]
    ensures AmountsOnly(w, w', metas[0].key) && CoversAll(w', rest)
    ensures OwnMoney(w', metas[0].key) <= OwnMoney(w, metas[0].key) + Credits(s)
  {
    assert s in [s];
    var t := ExpectToken(w, metas, s.account, true).value;
    var key := metas[s.account].key;
    var mine := TargetsOf(key, s.decrements);
    DistinctTail(mine, rest);
    TargetsShareKey(key, s.decrements);
    assert forall x | x in mine :: Covers(w, x);
    StoreOwnMoney(w, w[key := Token(t)], key, Token(t), metas[0].key);
    SettleSucceeds(t, key, s);
    SettleFrame(t, s);
    SettleMoney(t, s);
    var t' := SettleToken(t, s).value;
    w' := w[key := Token(t')];
    StoreToken(w, key, t', metas[0].key);
    StoreOwnMoney(w, w', key, Token(t'), metas[0].key);
    forall x | x in rest ensures Covers(w', x) {
      assert Covers(w, x);
      if x.key == key {
        assert forall y | y in mine :: y.index != x.index;
      }
    }
  }

  /** The requirements of a batch, split into those of its first token and the rest. */
  lemma SplitBatch(w: World, metas: seq<Meta>, ss: seq<Settlement>)
    requires 0 < |metas| && ss != [] && Settleable(w, metas, ss) && CoversAll(w, Targets(metas, ss))
    ensures Settleable(w, metas, [ss[0]]) && Settleable(w, metas, ss[1..]) && ss[0].account as nat < |metas|
    ensures Targets(metas, ss) == TargetsOf(metas[ss[0].account].key, ss[0].decrements) + Targets(metas, ss[1..])
    ensures CoversAll(w, TargetsOf(metas[ss[0].account].key, ss[0].decrements)) && CoversAll(w, Targets(metas, ss[1..]))
  {
    assert ss[0] in ss && ExpectToken(w, metas, ss[0].account, true).Ok?;
    assert forall r | r in ss[1..] :: r in ss;
    assert forall x | x in Targets(metas, ss[1..]) :: x in Targets(metas, ss);
    assert forall x | x in TargetsOf(metas[ss[0].account].key, ss[0].decrements) :: x in Targets(metas, ss);
  }

  /** Every fee of the batch has a wallet in slot 0 to go to. */
  ghost predicate FeesHaveHomes(w: World, metas: seq<Meta>, ss: seq<Settlement>) {
    forall s | s in ss && s.account as nat < |metas| && At(w, metas[s.account].key).Token? ::
        FeeHasHome(At(w, metas[s.account].key).t, s)
  }

  lemma HomesKept(w: World, w': World, metas: seq<Meta>, ss: seq<Settlement>, owner: Key)
    requires AmountsOnly(w, w', owner)
    ensures FeesHaveHomes(w', metas, ss) <==> FeesHaveHomes(w, metas, ss)
  {
    forall i: nat | i < |metas|
      ensures At(w', metas[i].key).Token? <==> At(w, metas[i].key).Token?
      ensures At(w, metas[i].key).Token? ==> At(w', metas[i].key).t.count == At(w, metas[i].key).t.count
    {
      var a := At(w', metas[i].key);
      assert a == At(w, metas[i].key) || a.Token?;
    }
  }

  /** A fee for a token without wallets is refused before anything is debited. */
  lemma HomelessFee(t: TokenState, s: Settlement)
    requires !FeeHasHome(t, s)
    ensures SettleToken(t, s).Err? && SettleToken(t, s).error != Custom(ERROR_INSUFFICIENT_BALANCE)
  {
    if |t.slots| > 0 && Last4(t.slots[0].address).Ok? {
      var adj := Adjustment(AddressIndex(0, Last4(t.slots[0].address).value), s.feeAmount);
      assert AdjustOne(t, adj, true) == Err(Custom(ERROR_INVALID_ADDRESS_INDEX));
    }
  }

  /** A batch whose debits are covered slot by slot, at most one to a slot, settles
      if and only if its fees have wallets to go to, and never fails for want of
      balance. */
  lemma {:induction false} SettleAllOutcome(w: World, metas: seq<Meta>, ss: seq<Settlement>)
    requires 0 < |metas| && Settleable(w, metas, ss)
    requires OwnMoney(w, metas[0].key) + BatchCredits(ss) < U64
    requires Distinct(Targets(metas, ss)) && CoversAll(w, Targets(metas, ss))
    ensures SettleAll(w, metas, ss).Ok? <==> FeesHaveHomes(w, metas, ss)
    ensures SettleAll(w, metas, ss) != Err(Custom(ERROR_INSUFFICIENT_BALANCE))
    decreases |ss|
  {
    if ss != [] {
      SplitBatch(w, metas, ss);
      var t := At(w, metas[ss[0].account].key).t;
      assert ss[0] in [ss[0]] && ExpectToken(w, metas, ss[0].account, true) == Ok(t);
      assert forall s | s in ss :: s == ss[0] || s in ss[1..];
      if !FeeHasHome(t, ss[0]) {
        HomelessFee(t, ss[0]);
      } else {
        var rest := Targets(metas, ss[1..]);
        var w' := SettleOneOfMany(w, metas, ss[0], rest);
        SettleableKept(w, w', metas, ss[1..]);
        HomesKept(w, w', metas, ss[1..], metas[0].key);
        DistinctTail(TargetsOf(metas[ss[0].account].key, ss[0].decrements), rest);
        SettleAllOutcome(w', metas, ss[1..]);
      }
    }
  }
}
