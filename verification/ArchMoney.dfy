/** Sums of balances, and what deposits and settlements do to them.  Balances are
    u64 words whose `+` wraps, so every law carries the number of wraps. */
module ArchMoney {
  import opened Machine
  import opened Wrappers
  import opened Sums
  import opened ArchTypes
  import opened ArchLedger

  function SlotSum(slots: seq<Slot>): nat {
    if slots == [] then 0 else slots[0].amount + SlotSum(slots[1..])
  }

  /** All the money in a token account, assigned slots or not. */
  function Money(t: TokenState): nat {
    SlotSum(t.slots)
  }

  lemma {:induction false} SlotSumSet(slots: seq<Slot>, i: nat, s: Slot)
    requires i < |slots|
    ensures SlotSum(slots[i := s]) == SlotSum(slots) - slots[i].amount + s.amount
    ensures slots[i].amount <= SlotSum(slots)
  {
    if i > 0 {
      SlotSumSet(slots[1..], i - 1, s);
      assert slots[i := s][1..] == slots[1..][i - 1 := s];
    } else {
      assert slots[i := s][1..] == slots[1..];
    }
  }

  lemma TwoSlots(slots: seq<Slot>, i: nat, j: nat)
    requires i < |slots| && j < |slots| && i != j
    ensures slots[i].amount + slots[j].amount <= SlotSum(slots)
  {
    SlotSumSet(slots, i, NO_SLOT);
    SlotSumSet(slots[i := NO_SLOT], j, NO_SLOT);
  }

  lemma {:induction false} SlotSumAppend(a: seq<Slot>, b: seq<Slot>)
    ensures SlotSum(a + b) == SlotSum(a) + SlotSum(b)
  {
    if a == [] {
      assert a + b == b;
    } else {
      SlotSumAppend(a[1..], b);
      assert (a + b)[1..] == a[1..] + b;
    }
  }

  lemma {:induction false} SameAmountsSameSum(a: seq<Slot>, b: seq<Slot>)
    requires |a| <= |b|
    requires forall j | 0 <= j < |b| :: b[j].amount == if j < |a| then a[j].amount else 0
    ensures SlotSum(b) == SlotSum(a)
  {
    if b != [] {
      var a' := if a == [] then [] else a[1..];
      forall j | 0 <= j < |b[1..]| ensures b[1..][j].amount == if j < |a'| then a'[j].amount else 0 {
        assert b[1..][j] == b[j + 1];
      }
      SameAmountsSameSum(a', b[1..]);
    }
  }

  // ---------------------------------------------------------------------------
  // One account
  // ---------------------------------------------------------------------------

  function Amounts(adjs: seq<Adjustment>): nat {
    if adjs == [] then 0 else adjs[0].amount + Amounts(adjs[1..])
  }

  /** Does crediting `amount` to slot `i` wrap around? */
  function Wraps(t: TokenState, i: nat, amount: u64): nat {
    if i < |t.slots| && t.slots[i].amount + amount >= U64 then 1 else 0
  }

  lemma CreditMoney(t: TokenState, i: nat, amount: u64)
    requires Credit(t, i, amount).Ok?
    ensures Money(Credit(t, i, amount).value) == Money(t) + amount - U64 * Wraps(t, i, amount)
    ensures t.slots[i].amount <= Money(t)
  {
    SlotSumSet(t.slots, i, t.slots[i].(amount := WrapAdd(t.slots[i].amount, amount)));
  }

  lemma DebitMoney(t: TokenState, i: nat, amount: u64)
    requires Debit(t, i, amount).Ok?
    ensures Money(Debit(t, i, amount).value) == Money(t) - amount
  {
    SlotSumSet(t.slots, i, t.slots[i].(amount := t.slots[i].amount - amount));
  }

  /** How many of these credits wrap around. */
  function Carries(t: TokenState, adjs: seq<Adjustment>): nat
    decreases |adjs|
  {
    if adjs == [] then 0 else
    match AdjustOne(t, adjs[0], true)
    case Err(_) => 0
    case Ok(t') => Wraps(t, adjs[0].address.index, adjs[0].amount) + Carries(t', adjs[1..])
  }

  lemma {:induction false} IncrementsMoney(t: TokenState, adjs: seq<Adjustment>)
    requires Adjust(t, adjs, true).Ok?
    ensures Money(Adjust(t, adjs, true).value) == Money(t) + Amounts(adjs) - U64 * Carries(t, adjs)
    decreases |adjs|
  {
    if adjs != [] {
      CreditMoney(t, adjs[0].address.index, adjs[0].amount);
      IncrementsMoney(AdjustOne(t, adjs[0], true).value, adjs[1..]);
    }
  }

  lemma {:induction false} DecrementsMoney(t: TokenState, adjs: seq<Adjustment>)
    requires Adjust(t, adjs, false).Ok?
    ensures Money(Adjust(t, adjs, false).value) == Money(t) - Amounts(adjs)
    decreases |adjs|
  {
    if adjs != [] {
      DebitMoney(t, adjs[0].address.index, adjs[0].amount);
      DecrementsMoney(AdjustOne(t, adjs[0], false).value, adjs[1..]);
    }
  }

  /** With room for all of them, no credit wraps and no slot goes down. */
  lemma {:induction false} IncrementsRoom(t: TokenState, adjs: seq<Adjustment>)
    requires Adjust(t, adjs, true).Ok? && Money(t) + Amounts(adjs) < U64
    ensures Carries(t, adjs) == 0
    ensures var t' := Adjust(t, adjs, true).value;
            |t'.slots| == |t.slots| && forall i | 0 <= i < |t.slots| :: t.slots[i].amount <= t'.slots[i].amount
    decreases |adjs|
  {
    if adjs != [] {
      CreditMoney(t, adjs[0].address.index, adjs[0].amount);
      IncrementsRoom(AdjustOne(t, adjs[0], true).value, adjs[1..]);
    }
  }

  function Credits(s: Settlement): nat {
    s.feeAmount + Amounts(s.increments)
  }

  /** The wraps in settling one token. */
  function SettleCarries(t: TokenState, s: Settlement): nat {
    match CreditFee(t, s.feeAmount)
    case Err(_) => 0
    case Ok(t1) => (if s.feeAmount > 0 then Wraps(t, 0, s.feeAmount) else 0) + Carries(t1, s.increments)
  }

  lemma FeeMoney(t: TokenState, fee: u64)
    requires CreditFee(t, fee).Ok?
    ensures CreditFee(t, fee) == if fee == 0 then Ok(t) else Credit(t, 0, fee)
    ensures Money(CreditFee(t, fee).value) == Money(t) + fee - U64 * (if fee > 0 then Wraps(t, 0, fee) else 0)
  {
    if fee > 0 {
      var adj := Adjustment(AddressIndex(0, Last4(t.slots[0].address).value), fee);
      assert [adj][1..] == [];
      assert Adjust(t, [adj], true) == AdjustOne(t, adj, true);
      CreditMoney(t, 0, fee);
    }
  }

  lemma SettleMoney(t: TokenState, s: Settlement)
    requires SettleToken(t, s).Ok?
    ensures Money(SettleToken(t, s).value) == Money(t) + Credits(s) - Amounts(s.decrements) - U64 * SettleCarries(t, s)
  {
    FeeMoney(t, s.feeAmount);
    var t1 := CreditFee(t, s.feeAmount).value;
    IncrementsMoney(t1, s.increments);
    DecrementsMoney(Adjust(t1, s.increments, true).value, s.decrements);
  }

  // ---------------------------------------------------------------------------
  // All accounts
  // ---------------------------------------------------------------------------

  function MoneyIn(k: Key, a: Account): nat {
    if a.Token? then Money(a.t) else 0
  }

  /** The total over all token accounts. */
  ghost function TotalMoney(w: World): nat {
    Total(w, MoneyIn)
  }

  lemma StoreMoney(w: World, k: Key, a: Account)
    ensures TotalMoney(w[k := a]) == TotalMoney(w) - MoneyIn(k, At(w, k)) + MoneyIn(k, a)
    ensures MoneyIn(k, At(w, k)) <= TotalMoney(w)
  {
    TotalUpdate(w, MoneyIn, k, a);
    if k in w {
      EntryAtMostTotal(w, MoneyIn, k);
    }
  }

  function BatchCredits(ss: seq<Settlement>): nat {
    if ss == [] then 0 else Credits(ss[0]) + BatchCredits(ss[1..])
  }

  function BatchDebits(ss: seq<Settlement>): nat {
    if ss == [] then 0 else Amounts(ss[0].decrements) + BatchDebits(ss[1..])
  }

  /** The wraps in settling a batch. */
  function BatchCarries(w: World, metas: seq<Meta>, ss: seq<Settlement>): nat
    decreases |ss|
  {
    if ss == [] then 0 else
    match ExpectToken(w, metas, ss[0].account, true)
    case Err(_) => 0
    case Ok(t) =>
      match SettleToken(t, ss[0])
      case Err(_) => 0
      case Ok(t') => SettleCarries(t, ss[0]) + BatchCarries(w[metas[ss[0].account].key := Token(t')], metas, ss[1..])
  }

  /** A settlement that goes through moves the total by what it credits, less what
      it debits, less 2^64 for each credit that wrapped; aliased accounts and
      fees to slot 0 included. */
  lemma {:induction false} SettleAllMoney(w: World, metas: seq<Meta>, ss: seq<Settlement>)
    requires SettleAll(w, metas, ss).Ok?
    ensures TotalMoney(SettleAll(w, metas, ss).value)
         == TotalMoney(w) + BatchCredits(ss) - BatchDebits(ss) - U64 * BatchCarries(w, metas, ss)
    decreases |ss|
  {
    if ss != [] {
      var t := ExpectToken(w, metas, ss[0].account, true).value;
      var t' := SettleToken(t, ss[0]).value;
      var key := metas[ss[0].account].key;
      SettleMoney(t, ss[0]);
      StoreMoney(w, key, Token(t'));
      SettleAllMoney(w[key := Token(t')], metas, ss[1..]);
    }
  }

  lemma SettleRoom(t: TokenState, s: Settlement)
    requires SettleToken(t, s).Ok? && Money(t) + Credits(s) < U64
    ensures SettleCarries(t, s) == 0
  {
    FeeMoney(t, s.feeAmount);
    if s.feeAmount > 0 {
      CreditMoney(t, 0, s.feeAmount);
    }
    IncrementsRoom(CreditFee(t, s.feeAmount).value, s.increments);
  }

  /** While the total and all credits together stay below 2^64, nothing wraps. */
  lemma {:induction false} SettleAllRoom(w: World, metas: seq<Meta>, ss: seq<Settlement>)
    requires SettleAll(w, metas, ss).Ok? && TotalMoney(w) + BatchCredits(ss) < U64
    ensures BatchCarries(w, metas, ss) == 0
    decreases |ss|
  {
    if ss != [] {
      var t := ExpectToken(w, metas, ss[0].account, true).value;
      var t' := SettleToken(t, ss[0]).value;
      var key := metas[ss[0].account].key;
      StoreMoney(w, key, Token(t'));
      SettleRoom(t, ss[0]);
      SettleMoney(t, ss[0]);
      SettleAllRoom(w[key := Token(t')], metas, ss[1..]);
    }
  }

  // ---------------------------------------------------------------------------
  // Netting
  // ---------------------------------------------------------------------------

  /** Wrapping drops a multiple of 2^64. */
  lemma WrapWord(x: int) returns (k: int)
    ensures x % U64 == x - U64 * k
  {
    k := x / U64;
  }

  lemma I64Word(x: int) returns (k: int)
    ensures ToI64(x) == x - U64 * k
  {
    k := WrapWord(x + 0x8000_0000_0000_0000);
  }

  lemma {:induction false} DecrementsWord(t: TokenState, account: u8, adjs: seq<Adjustment>, y: Tally) returns (k: int)
    requires VerifyDecrements(t, account, adjs, y).Ok?
    ensures VerifyDecrements(t, account, adjs, y).value.total == y.total + Amounts(adjs) - U64 * k
    decreases |adjs|
  {
    if adjs == [] {
      k := 0;
    } else {
      var a := adjs[0];
      var balance := t.slots[a.address.index].amount;
      var e := FailedSettlement(account, a.address.index, a.amount, balance, ERROR_INSUFFICIENT_BALANCE);
      var p := if a.amount > balance then EmitEvent(y.p, e).value else y.p;
      var k1 := WrapWord(y.total + a.amount);
      k := DecrementsWord(t, account, adjs[1..], Tally(WrapAdd(y.total, a.amount), p));
      k := k + k1;
    }
  }

  lemma {:induction false} IncrementsWord(t: TokenState, adjs: seq<Adjustment>, total: u64) returns (k: int)
    requires VerifyIncrements(t, adjs, total).Ok?
    ensures VerifyIncrements(t, adjs, total).value == total + Amounts(adjs) - U64 * k
    decreases |adjs|
  {
    if adjs == [] {
      k := 0;
    } else {
      var k1 := WrapWord(total + adjs[0].amount);
      k := IncrementsWord(t, adjs[1..], WrapAdd(total, adjs[0].amount));
      k := k + k1;
    }
  }

  lemma NetStep(total: int, credits: u64, fee: u64, debits: u64) returns (k: int)
    ensures NetOf(total, credits, fee, debits)
        == total + credits + fee - debits - U64 * k
  {
    var k1 := WrapWord(credits + fee);
    var plus := WrapAdd(credits, fee);
    var k2 := I64Word(plus);
    var k3 := I64Word(debits);
    var k4 := I64Word(ToI64(plus) - ToI64(debits));
    var k5 := I64Word(total + ToI64(ToI64(plus) - ToI64(debits)));
    k := k1 + k2 - k3 + k4 + k5;
  }

  /** The running netting total is the batch's true surplus up to a multiple of
      2^64: netting is over the whole batch, not token by token. */
  lemma {:induction false} NettingWord(w: World, metas: seq<Meta>, ss: seq<Settlement>, n: Netting) returns (k: int)
    requires VerifySettlements(w, metas, ss, n).Ok?
    ensures VerifySettlements(w, metas, ss, n).value.total == n.total + BatchCredits(ss) - BatchDebits(ss) - U64 * k
    decreases |ss|
  {
    if ss == [] {
      k := 0;
    } else {
      var s := ss[0];
      var t := ExpectToken(w, metas, s.account, false).value;
      var debits := VerifyDecrements(t, s.account, s.decrements, Tally(0, n.p)).value;
      var credits := VerifyIncrements(t, s.increments, 0).value;
      var k1 := DecrementsWord(t, s.account, s.decrements, Tally(0, n.p));
      var k2 := IncrementsWord(t, s.increments, 0);
      var k3 := NetStep(n.total, credits, s.feeAmount, debits.total);
      k := NettingWord(w, metas, ss[1..], VerifySettlement(t, s, n).value);
      k := k - k1 + k2 + k3;
    }
  }
}
