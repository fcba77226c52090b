/** Exactly when a settlement batch settles, whatever slots its debits share: as a
    list of single credits and debits, each debit has to be covered by what its
    slot held before the batch and by what the batch has moved there so far. */
module ArchRunningSums {
  import opened Machine
  import opened Wrappers
  import opened ArchTypes
  import opened ArchLedger
  import opened ArchFrames
  import opened ArchChecks
  import opened ArchInvariants
  import opened ArchMoney
  import opened ArchSessions
  import opened ArchSettlement
  import opened ArchSubmittable
  import opened ArchWithdrawal

  /** One credit or debit of a slot. */
  datatype Move = Move(key: Key, index: nat, amount: u64, credit: bool)

  function MovesOf(key: Key, adjs: seq<Adjustment>, credit: bool): seq<Move> {
    if adjs == [] then []
        else [Move(key, adjs[0].address.index, adjs[0].amount, credit)] + MovesOf(key, adjs[1..], credit)
  }

  /** The fee to slot 0, then the increments, then the decrements. */
  function SettleMoves(key: Key, s: Settlement): seq<Move> {
    (if s.feeAmount > 0 then [Move(key, 0, s.feeAmount, true)] else [])
    + (MovesOf(key, s.increments, true) + MovesOf(key, s.decrements, false))
  }

  /** Everything a batch does, in order. */
  function Moves(metas: seq<Meta>, ss: seq<Settlement>): seq<Move> {
    if ss == [] then [] else SettleMoves(KeyAt(metas, ss[0].account), ss[0]) + Moves(metas, ss[1..])
  }

  function CreditsTo(ms: seq<Move>, s: Place): nat {
    if ms == [] then 0
        else (if ms[0].credit && s == (ms[0].key, ms[0].index) then ms[0].amount else 0) + CreditsTo(ms[1..], s)
  }

  function DebitsTo(ms: seq<Move>, s: Place): nat {
    if ms == [] then 0
        else (if !ms[0].credit && s == (ms[0].key, ms[0].index) then ms[0].amount else 0) + DebitsTo(ms[1..], s)
  }

  /** Each debit is covered by what its slot had, and what has been moved so far. */
  ghost predicate RunningCovered(had: Place -> nat, ms: seq<Move>) {
    forall n | 0 <= n < |ms| && !ms[n].credit :: MoveCovered(had, ms[..n], ms[n])
  }

  ghost predicate MoveCovered(had: Place -> nat, before: seq<Move>, m: Move) {
    var s := (m.key, m.index);
    DebitsTo(before, s) + m.amount <= had(s) + CreditsTo(before, s)
  }

  // ---------------------------------------------------------------------------
  // Moves, one by one
  // ---------------------------------------------------------------------------

  function DoOne(w: World, m: Move): Result<World> {
    if !At(w, m.key).Token? then Err(Panic) else
    var t := At(w, m.key).t;
    var t' :- if m.credit then Credit(t, m.index, m.amount) else Debit(t, m.index, m.amount);
    Ok(w[m.key := Token(t')])
  }

  function Do(w: World, ms: seq<Move>): Result<World>
    decreases |ms|
  {
    if ms == [] then Ok(w) else
    var w' :- DoOne(w, ms[0]);
    Do(w', ms[1..])
  }

  predicate HasSlot(w: World, m: Move) {
    At(w, m.key).Token? && m.index < |At(w, m.key).t.slots|
  }

  ghost predicate HaveSlots(w: World, ms: seq<Move>) {
    forall m | m in ms :: HasSlot(w, m)
  }

  lemma DoOneEffect(w: World, m: Move)
    requires HasSlot(w, m) && (m.credit ==> Amount(w, (m.key, m.index)) + m.amount < U64)
    ensures DoOne(w, m).Ok? <==> m.credit || m.amount <= Amount(w, (m.key, m.index))
    ensures DoOne(w, m).Ok? ==>
              forall s: Place ::
                Amount(DoOne(w, m).value, s) + (if !m.credit && s == (m.key, m.index) then m.amount else 0)
                == Amount(w, s) + (if m.credit && s == (m.key, m.index) then m.amount else 0)
    ensures DoOne(w, m).Ok? ==> forall m' :: HasSlot(DoOne(w, m).value, m') <==> HasSlot(w, m')
  {
  }

  lemma OneMove(m: Move, s: Place)
    ensures CreditsTo([m], s) == if m.credit && s == (m.key, m.index) then m.amount else 0
    ensures DebitsTo([m], s) == if !m.credit && s == (m.key, m.index) then m.amount else 0
  {
    assert [m][1..] == [];
  }

  /** The first move, and then the rest from where it leaves off. */
  lemma RunningStep(had: Place -> nat, had1: Place -> nat, ms: seq<Move>)
    requires ms != [] && (!ms[0].credit ==> MoveCovered(had, [], ms[0]))
    requires forall s: Place :: had1(s) + DebitsTo([ms[0]], s) == had(s) + CreditsTo([ms[0]], s)
    ensures RunningCovered(had, ms) <==> RunningCovered(had1, ms[1..])
  {
    forall n | 0 <= n < |ms| - 1
      ensures MoveCovered(had, ms[..n + 1], ms[n + 1]) <==> MoveCovered(had1, ms[1..][..n], ms[1..][n])
    {
      var s := (ms[n + 1].key, ms[n + 1].index);
      assert ms[..n + 1][0] == ms[0] && ms[..n + 1][1..] == ms[1..][..n] && ms[1..][n] == ms[n + 1];
      OneMove(ms[0], s);
      assert had1(s) + DebitsTo([ms[0]], s) == had(s) + CreditsTo([ms[0]], s);
    }
    assert ms[..0] == [];
    if RunningCovered(had, ms) {
      forall n | 0 <= n < |ms[1..]| && !ms[1..][n].credit ensures MoveCovered(had1, ms[1..][..n], ms[1..][n]) {
        assert MoveCovered(had, ms[..n + 1], ms[n + 1]);
      }
    }
    if RunningCovered(had1, ms[1..]) {
      forall n | 0 <= n < |ms| && !ms[n].credit ensures MoveCovered(had, ms[..n], ms[n]) {
        if n > 0 {
          assert MoveCovered(had1, ms[1..][..n - 1], ms[1..][n - 1]);
        }
      }
    }
  }

  /** While no balance overflows, moves within the slots go through if and only if
      each debit is covered when its turn comes. */
  lemma {:induction false} DoIff(w: World, ms: seq<Move>)
    requires HaveSlots(w, ms) && forall s: Place :: Amount(w, s) + CreditsTo(ms, s) < U64
    ensures Do(w, ms).Ok? <==> RunningCovered(s => Amount(w, s), ms)
    decreases |ms|
  {
    var had := (s: Place) => Amount(w, s);
    if ms != [] {
      var m := ms[0];
      assert m in ms && ms[..0] == [];
      assert Amount(w, (m.key, m.index)) + CreditsTo(ms, (m.key, m.index)) < U64;
      DoOneEffect(w, m);
      if DoOne(w, m).Ok? {
        var w1 := DoOne(w, m).value;
        forall m' | m' in ms[1..] ensures HasSlot(w1, m') {
          assert HasSlot(w, m');
        }
        forall s: Place
          ensures Amount(w1, s) + CreditsTo(ms[1..], s) < U64
          ensures Amount(w1, s) + DebitsTo([m], s) == Amount(w, s) + CreditsTo([m], s)
        {
          OneMove(m, s);
          assert Amount(w, s) + CreditsTo(ms, s) < U64;
        }
        DoIff(w1, ms[1..]);
        RunningStep(had, s => Amount(w1, s), ms);
      } else {
        assert !MoveCovered(had, ms[..0], ms[0]);
      }
    }
  }

  // ---------------------------------------------------------------------------
  // A settlement is its moves
  // ---------------------------------------------------------------------------

  lemma {:induction false} DoJoin(w: World, ms: seq<Move>, ns: seq<Move>)
    ensures Do(w, ms + ns) == match Do(w, ms) case Ok(w') => Do(w', ns) case Err(e) => Err(e)
    decreases |ms|
  {
    if ms == [] {
      assert ms + ns == ns;
    } else {
      assert (ms + ns)[1..] == ms[1..] + ns;
      if DoOne(w, ms[0]).Ok? {
        DoJoin(DoOne(w, ms[0]).value, ms[1..], ns);
      }
    }
  }

  /** The world with the outcome for one account stored in it. */
  function Stored(w: World, key: Key, r: Result<TokenState>): Result<World> {
    match r case Ok(t) => Ok(w[key := Token(t)]) case Err(e) => Err(e)
  }

  lemma {:induction false} AdjustIsMoves(w: World, key: Key, adjs: seq<Adjustment>, credit: bool)
    requires At(w, key).Token? && IndexesValid(At(w, key).t, adjs)
    ensures Do(w, MovesOf(key, adjs, credit)) == Stored(w, key, Adjust(At(w, key).t, adjs, credit))
    decreases |adjs|
  {
    var t := At(w, key).t;
    if adjs == [] {
      assert w[key := Token(t)] == w;
    } else {
      assert adjs[0] in adjs && MovesOf(key, adjs, credit)[1..] == MovesOf(key, adjs[1..], credit);
      var r := AdjustOne(t, adjs[0], credit);
      if r.Ok? {
        IndexesStayValid(t, r.value, adjs[1..]);
        AdjustIsMoves(w[key := Token(r.value)], key, adjs[1..], credit);
        assert forall t' :: w[key := Token(r.value)][key := Token(t')] == w[key := Token(t')];
      }
    }
  }

  lemma FeeIsMove(t: TokenState, s: Settlement)
    requires GoodToken(t) && FeeHasHome(t, s)
    ensures CreditFee(t, s.feeAmount) == if s.feeAmount > 0 then Credit(t, 0, s.feeAmount) else Ok(t)
    ensures CreditFee(t, s.feeAmount).Ok? && SameButAmounts(t, CreditFee(t, s.feeAmount).value)
  {
    if s.feeAmount > 0 {
      var adj := Adjustment(AddressIndex(0, Last4(t.slots[0].address).value), s.feeAmount);
      assert adj in [adj] ==> Names(t, adj.address);
      CreditsIff(t, [adj]);
      FeeMoney(t, s.feeAmount);
    }
  }

  lemma FeeMoved(w: World, key: Key, s: Settlement)
    requires At(w, key).Token? && GoodToken(At(w, key).t) && FeeHasHome(At(w, key).t, s)
    ensures Do(w, if s.feeAmount > 0 then [Move(key, 0, s.feeAmount, true)] else [])
         == Stored(w, key, CreditFee(At(w, key).t, s.feeAmount))
  {
    FeeIsMove(At(w, key).t, s);
    if s.feeAmount > 0 {
      var m := Move(key, 0, s.feeAmount, true);
      assert [m][1..] == [];
      assert Do(w, [m]) == Do(DoOne(w, m).value, []);
    } else {
      assert w[key := At(w, key)] == w;
    }
  }

  function BothAdjusted(t: TokenState, s: Settlement): Result<TokenState> {
    var t1 :- Adjust(t, s.increments, true);
    Adjust(t1, s.decrements, false)
  }

  lemma StoredTwice(w: World, key: Key, t: TokenState, r: Result<TokenState>)
    ensures Stored(w[key := Token(t)], key, r) == Stored(w, key, r)
  {
    if r.Ok? {
      assert w[key := Token(t)][key := Token(r.value)] == w[key := Token(r.value)];
    }
  }

  lemma AdjustmentsAreMoves(w: World, key: Key, s: Settlement)
    requires At(w, key).Token? && SettleNames(At(w, key).t, s)
    ensures Do(w, MovesOf(key, s.increments, true) + MovesOf(key, s.decrements, false))
        == Stored(w, key, BothAdjusted(At(w, key).t, s))
  {
    var t := At(w, key).t;
    CreditsIff(t, s.increments);
    AdjustFrame(t, s.increments, true);
    var t1 := Adjust(t, s.increments, true).value;
    IndexesStayValid(t, t1, s.decrements);
    AdjustIsMoves(w, key, s.increments, true);
    DoJoin(w, MovesOf(key, s.increments, true), MovesOf(key, s.decrements, false));
    AdjustIsMoves(w[key := Token(t1)], key, s.decrements, false);
    StoredTwice(w, key, t1, Adjust(t1, s.decrements, false));
  }

  lemma SettleIsMoves(w: World, key: Key, s: Settlement)
    requires At(w, key).Token? && GoodToken(At(w, key).t) && SettleNames(At(w, key).t, s) && FeeHasHome(At(w, key).t, s)
    ensures Do(w, SettleMoves(key, s)) == Stored(w, key, SettleToken(At(w, key).t, s))
  {
    var t := At(w, key).t;
    FeeIsMove(t, s);
    FeeMoved(w, key, s);
    var t1 := CreditFee(t, s.feeAmount).value;
    IndexesStayValid(t, t1, s.increments);
    IndexesStayValid(t, t1, s.decrements);
    DoJoin(w, if s.feeAmount > 0 then [Move(key, 0, s.feeAmount, true)] else [],
           MovesOf(key, s.increments, true) + MovesOf(key, s.decrements, false));
    AdjustmentsAreMoves(w[key := Token(t1)], key, s);
    StoredTwice(w, key, t1, BothAdjusted(t1, s));
  }

  lemma {:induction false} SettleAllIsMoves(w: World, metas: seq<Meta>, ss: seq<Settlement>)
    requires 0 < |metas| && Settleable(w, metas, ss) && FeesHaveHomes(w, metas, ss)
    ensures SettleAll(w, metas, ss) == Do(w, Moves(metas, ss))
    decreases |ss|
  {
    if ss != [] {
      var s := ss[0];
      assert s in ss && ExpectToken(w, metas, s.account, true).Ok?;
      assert forall r | r in ss[1..] :: r in ss;
      var key := metas[s.account].key;
      SettleIsMoves(w, key, s);
      DoJoin(w, SettleMoves(key, s), Moves(metas, ss[1..]));
      var r := SettleToken(At(w, key).t, s);
      if r.Ok? {
        SettleFrame(At(w, key).t, s);
        StoreToken(w, key, r.value, metas[0].key);
        SettleableKept(w, w[key := Token(r.value)], metas, ss[1..]);
        HomesKept(w, w[key := Token(r.value)], metas, ss[1..], metas[0].key);
        SettleAllIsMoves(w[key := Token(r.value)], metas, ss[1..]);
      }
    }
  }

  lemma {:induction false} HomelessFails(w: World, metas: seq<Meta>, ss: seq<Settlement>)
    requires 0 < |metas| && Settleable(w, metas, ss) && !FeesHaveHomes(w, metas, ss)
    ensures SettleAll(w, metas, ss).Err?
    decreases |ss|
  {
    var s := ss[0];
    assert s in ss && ExpectToken(w, metas, s.account, true).Ok?;
    assert forall r | r in ss :: r == s || r in ss[1..];
    var key := metas[s.account].key;
    var t := At(w, key).t;
    if !FeeHasHome(t, s) {
      HomelessFee(t, s);
    } else if SettleToken(t, s).Ok? {
      var t' := SettleToken(t, s).value;
      SettleFrame(t, s);
      StoreToken(w, key, t', metas[0].key);
      SettleableKept(w, w[key := Token(t')], metas, ss[1..]);
      HomesKept(w, w[key := Token(t')], metas, ss[1..], metas[0].key);
      HomelessFails(w[key := Token(t')], metas, ss[1..]);
    }
  }

  lemma {:induction false} MovesHaveSlots(w: World, key: Key, adjs: seq<Adjustment>, credit: bool)
    requires At(w, key).Token? && IndexesValid(At(w, key).t, adjs)
    ensures HaveSlots(w, MovesOf(key, adjs, credit))
  {
    if adjs != [] {
      assert adjs[0] in adjs;
      MovesHaveSlots(w, key, adjs[1..], credit);
    }
  }

  lemma {:induction false} BatchHasSlots(w: World, metas: seq<Meta>, ss: seq<Settlement>)
    requires Settleable(w, metas, ss) && FeesHaveHomes(w, metas, ss)
    ensures HaveSlots(w, Moves(metas, ss))
  {
    if ss != [] {
      var s := ss[0];
      assert s in ss && ExpectToken(w, metas, s.account, true).Ok?;
      assert forall r | r in ss[1..] :: r in ss;
      var key := metas[s.account].key;
      MovesHaveSlots(w, key, s.increments, true);
      MovesHaveSlots(w, key, s.decrements, false);
      BatchHasSlots(w, metas, ss[1..]);
    }
  }

  /** While no balance overflows, a batch over good accounts settles if and only if
      its fees have wallets to go to and each debit is covered when its turn comes;
      its debits may share slots. */
  lemma SettleAllIff(w: World, metas: seq<Meta>, ss: seq<Settlement>)
    requires 0 < |metas| && Settleable(w, metas, ss)
    requires forall s: Place :: Amount(w, s) + CreditsTo(Moves(metas, ss), s) < U64
    ensures SettleAll(w, metas, ss).Ok?
        <==> FeesHaveHomes(w, metas, ss) && RunningCovered(s => Amount(w, s), Moves(metas, ss))
  {
    if FeesHaveHomes(w, metas, ss) {
      SettleAllIsMoves(w, metas, ss);
      BatchHasSlots(w, metas, ss);
      DoIff(w, Moves(metas, ss));
    } else {
      HomelessFails(w, metas, ss);
    }
  }

  // ---------------------------------------------------------------------------
  // Over runs
  // ---------------------------------------------------------------------------

  lemma {:induction false} CreditsJoin(ms: seq<Move>, ns: seq<Move>, s: Place)
    ensures CreditsTo(ms + ns, s) == CreditsTo(ms, s) + CreditsTo(ns, s)
  {
    if ms == [] {
      assert ms + ns == ns;
    } else {
      assert (ms + ns)[1..] == ms[1..] + ns;
      CreditsJoin(ms[1..], ns, s);
    }
  }

  lemma {:induction false} CreditsAtMost(key: Key, adjs: seq<Adjustment>, credit: bool, s: Place)
    ensures CreditsTo(MovesOf(key, adjs, credit), s) <= if credit then Amounts(adjs) else 0
  {
    if adjs != [] {
      assert MovesOf(key, adjs, credit)[1..] == MovesOf(key, adjs[1..], credit);
      CreditsAtMost(key, adjs[1..], credit, s);
    }
  }

  lemma {:induction false} BatchCreditsAtMost(metas: seq<Meta>, ss: seq<Settlement>, s: Place)
    ensures CreditsTo(Moves(metas, ss), s) <= BatchCredits(ss)
  {
    if ss != [] {
      var key := KeyAt(metas, ss[0].account);
      var fee := if ss[0].feeAmount > 0 then [Move(key, 0, ss[0].feeAmount, true)] else [];
      var ins, outs := MovesOf(key, ss[0].increments, true), MovesOf(key, ss[0].decrements, false);
      if ss[0].feeAmount > 0 {
        OneMove(fee[0], s);
      }
      CreditsAtMost(key, ss[0].increments, true, s);
      CreditsAtMost(key, ss[0].decrements, false, s);
      CreditsJoin(ins, outs, s);
      CreditsJoin(fee, ins + outs, s);
      CreditsJoin(SettleMoves(key, ss[0]), Moves(metas, ss[1..]), s);
      BatchCreditsAtMost(metas, ss[1..], s);
    }
  }

  lemma {:induction false} NotCredited(metas: seq<Meta>, ss: seq<Settlement>, s: Place)
    requires forall x | x in ss :: KeyAt(metas, x.account) != s.0
    ensures CreditsTo(Moves(metas, ss), s) == 0
  {
    if ss != [] {
      var key := KeyAt(metas, ss[0].account);
      assert ss[0] in ss && forall x | x in ss[1..] :: x in ss;
      var fee := if ss[0].feeAmount > 0 then [Move(key, 0, ss[0].feeAmount, true)] else [];
      var ins, outs := MovesOf(key, ss[0].increments, true), MovesOf(key, ss[0].decrements, false);
      if ss[0].feeAmount > 0 {
        OneMove(fee[0], s);
      }
      OthersNotCredited(key, ss[0].increments, true, s);
      OthersNotCredited(key, ss[0].decrements, false, s);
      CreditsJoin(ins, outs, s);
      CreditsJoin(fee, ins + outs, s);
      CreditsJoin(SettleMoves(key, ss[0]), Moves(metas, ss[1..]), s);
      NotCredited(metas, ss[1..], s);
    }
  }

  lemma {:induction false} OthersNotCredited(key: Key, adjs: seq<Adjustment>, credit: bool, s: Place)
    requires key != s.0
    ensures CreditsTo(MovesOf(key, adjs, credit), s) == 0
  {
    if adjs != [] {
      assert MovesOf(key, adjs, credit)[1..] == MovesOf(key, adjs[1..], credit);
      OthersNotCredited(key, adjs[1..], credit, s);
    }
  }

  /** Own money bounds every slot of the instance. */
  lemma SlotAtMostOwn(w: World, s: Place, owner: Key)
    requires At(w, s.0).Token? && At(w, s.0).t.program == owner
    ensures Amount(w, s) <= OwnMoney(w, owner)
  {
    StoreOwnMoney(w, w[s.0 := At(w, s.0)], s.0, At(w, s.0), owner);
    if s.1 < |At(w, s.0).t.slots| {
      SlotSumSet(At(w, s.0).t.slots, s.1, NO_SLOT);
    }
  }

  lemma RoomForBatch(w: World, metas: seq<Meta>, ss: seq<Settlement>, s: Place)
    requires 0 < |metas| && Settleable(w, metas, ss) && OwnMoney(w, metas[0].key) + BatchCredits(ss) < U64
    ensures Amount(w, s) + CreditsTo(Moves(metas, ss), s) < U64
  {
    if x :| x in ss && KeyAt(metas, x.account) == s.0 {
      assert ExpectToken(w, metas, x.account, true).Ok?;
      SlotAtMostOwn(w, s, metas[0].key);
      BatchCreditsAtMost(metas, ss, s);
    } else {
      NotCredited(metas, ss, s);
    }
  }

  /** A prepared settlement, debits on shared slots included: after any run of
      transactions of any instances without a rollback or a settlement submit of its
      own, and within the bound, submitting it goes through if and only if its fees
      have wallets to go to and each debit is covered when its turn comes. */
  lemma PreparedSubmitsIff(env: Env, w0: World, prep: Tx, txs: seq<Tx>, submit: seq<Meta>, owner: Key, raw: Bytes)
    requires Addresses(env) && DigestsNonEmpty(env) && Good(env, w0)
    requires PreparesSettlement(env, w0, prep, owner, raw)
    requires SubmitList(prep.metas, submit, InstructionOf(prep).value.settlements)
    requires forall tx | tx in txs :: LeavesPrepared(tx, owner)
    requires OwnMoney(w0, owner) + Deposited(txs, owner) + BatchCredits(InstructionOf(prep).value.settlements) < U64
    ensures var ss := InstructionOf(prep).value.settlements; var w := Run(env, Step(env, w0, prep), txs);
            SubmitSettlement(env, w, submit, ss, raw).Ok?
            <==> FeesHaveHomes(w, submit, ss) && RunningCovered(s => Amount(w, s), Moves(submit, ss))
  {
    var ss := InstructionOf(prep).value.settlements;
    var w1 := Step(env, w0, prep);
    PrepareStepLeaves(env, w0, prep, owner, raw);
    StepKept(env, w0, prep);
    PreparedRun(env, w1, txs, owner);
    RunGood(env, w1, txs);
    var w := Run(env, w1, txs);
    forall k: Key ensures Later(At(w1, k), At(w, k)) {
      RunLater(env, w1, txs, k);
    }
    NamedLater(env, w1, w, prep.metas, submit, ss);
    forall s: Place ensures Amount(w, s) + CreditsTo(Moves(submit, ss), s) < U64 {
      RoomForBatch(w, submit, ss, s);
    }
    SettleAllIff(w, submit, ss);
    SubmitOutcome(env, w, submit, ss, raw);
  }
}
