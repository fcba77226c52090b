/** Withdrawals, slot by slot: what prepare takes, what rollback gives back, and
    that the second undoes the first. */
module ArchWithdrawal {
  import opened Machine
  import opened Wrappers
  import opened ArchTypes
  import opened ArchLedger
  import opened ArchFrames
  import opened ArchChecks

  /** A balance slot, by account key and index. */
  type Place = (Key, nat)

  function Amount(w: World, s: Place): nat {
    if At(w, s.0).Token? && s.1 < |At(w, s.0).t.slots| then At(w, s.0).t.slots[s.1].amount else 0
  }

  function KeyAt(metas: seq<Meta>, i: nat): Key {
    if i < |metas| then metas[i].key else EMPTY_HASH
  }

  /** Does a withdrawal pay its fee from another account? */
  predicate OtherFee(metas: seq<Meta>, account: u8, d: Withdrawal) {
    d.feeAmount > 0 && KeyAt(metas, d.feeAccount) != KeyAt(metas, account)
  }

  /** What one withdrawal takes from a slot: its amount, and a fee paid from
      another account. */
  function Taken(metas: seq<Meta>, account: u8, d: Withdrawal, s: Place): nat {
    (if s == (KeyAt(metas, account), d.address.index) then d.amount else 0)
    + (if OtherFee(metas, account, d) && s == (KeyAt(metas, d.feeAccount), d.feeAddress.index) then d.feeAmount else 0)
  }

  /** The fee that one withdrawal puts into a slot. */
  function Fee(metas: seq<Meta>, d: Withdrawal, s: Place): nat {
    if s == (KeyAt(metas, d.feeAccount), 0) then d.feeAmount else 0
  }

  function TokenTaken(metas: seq<Meta>, account: u8, ds: seq<Withdrawal>, s: Place): nat {
    if ds == [] then 0 else Taken(metas, account, ds[0], s) + TokenTaken(metas, account, ds[1..], s)
  }

  function TokenFees(metas: seq<Meta>, ds: seq<Withdrawal>, s: Place): nat {
    if ds == [] then 0 else Fee(metas, ds[0], s) + TokenFees(metas, ds[1..], s)
  }

  function BatchTaken(metas: seq<Meta>, tokens: seq<TokenWithdrawals>, s: Place): nat {
    if tokens == [] then 0 else
    TokenTaken(metas, tokens[0].account, tokens[0].withdrawals, s) + BatchTaken(metas, tokens[1..], s)
  }

  function BatchFees(metas: seq<Meta>, tokens: seq<TokenWithdrawals>, s: Place): nat {
    if tokens == [] then 0 else TokenFees(metas, tokens[0].withdrawals, s) + BatchFees(metas, tokens[1..], s)
  }

  // ---------------------------------------------------------------------------
  // Prepare, slot by slot
  // ---------------------------------------------------------------------------

  lemma ChargeAmount(w: World, metas: seq<Meta>, account: u8, d: Withdrawal, feeAddress: Bytes, s: Place)
    requires ChargeOne(w, metas, account, d, feeAddress).Ok?
    requires Amount(w, s) + Fee(metas, d, s) < U64
    ensures Amount(ChargeOne(w, metas, account, d, feeAddress).value, s)
         == Amount(w, s) - Taken(metas, account, d, s) + Fee(metas, d, s)
  {
    var a := metas[account].key;
    var w1 := w[a := Token(Debit(At(w, a).t, d.address.index, d.amount).value)];
    assert Amount(w1, s) == Amount(w, s) - if s == (a, d.address.index) then d.amount else 0;
    if d.feeAmount > 0 {
      var k := metas[d.feeAccount].key;
      var f := At(w1, k).t;
      var f1 := Credit(f, 0, d.feeAmount).value;
      if s.0 == k && s.1 == 0 {
        assert f1.slots[0].amount == f.slots[0].amount + d.feeAmount;
      }
    }
  }

  lemma {:induction false} PrepareTokenAmount(env: Env, x: Draft, metas: seq<Meta>, account: u8, ds: seq<Withdrawal>,
                                              feeAddress: Bytes, network: Network, s: Place)
    requires PrepareToken(env, x, metas, account, ds, feeAddress, network).Ok?
    requires Amount(x.w, s) + TokenFees(metas, ds, s) < U64
    ensures Amount(PrepareToken(env, x, metas, account, ds, feeAddress, network).value.w, s)
         == Amount(x.w, s) - TokenTaken(metas, account, ds, s) + TokenFees(metas, ds, s)
    decreases |ds|
  {
    if ds != [] {
      ChargeAmount(x.w, metas, account, ds[0], feeAddress, s);
      var x' := PrepareOne(env, x, metas, account, ds[0], feeAddress, network).value;
      PrepareTokenAmount(env, x', metas, account, ds[1..], feeAddress, network, s);
    }
  }

  lemma {:induction false} PrepareAllAmount(env: Env, x: Draft, metas: seq<Meta>, tokens: seq<TokenWithdrawals>,
                                            feeAddress: Bytes, network: Network, s: Place)
    requires PrepareAll(env, x, metas, tokens, feeAddress, network).Ok?
    requires Amount(x.w, s) + BatchFees(metas, tokens, s) < U64
    ensures Amount(PrepareAll(env, x, metas, tokens, feeAddress, network).value.w, s)
         == Amount(x.w, s) - BatchTaken(metas, tokens, s) + BatchFees(metas, tokens, s)
    decreases |tokens|
  {
    if tokens != [] {
      PrepareTokenAmount(env, x, metas, tokens[0].account, tokens[0].withdrawals, feeAddress, network, s);
      var x' := PrepareToken(env, x, metas, tokens[0].account, tokens[0].withdrawals, feeAddress, network).value;
      PrepareAllAmount(env, x', metas, tokens[1..], feeAddress, network, s);
    }
  }

  // ---------------------------------------------------------------------------
  // Rollback, slot by slot
  // ---------------------------------------------------------------------------

  lemma RefundAmount(w: World, metas: seq<Meta>, account: u8, d: Withdrawal, feeAddress: Bytes, s: Place)
    requires RefundOne(w, metas, account, d, feeAddress).Ok?
    requires Amount(w, s) + Taken(metas, account, d, s) < U64
    ensures Amount(RefundOne(w, metas, account, d, feeAddress).value, s)
         == Amount(w, s) + Taken(metas, account, d, s) - Fee(metas, d, s)
  {
    var a := metas[account].key;
    var t1 := Credit(At(w, a).t, d.address.index, d.amount).value;
    var w1 := w[a := Token(t1)];
    assert Amount(w1, s) == Amount(w, s) + if s == (a, d.address.index) then d.amount else 0;
    if d.feeAmount > 0 {
      var k := metas[d.feeAccount].key;
      var f := At(w1, k).t;
      var f1 := Debit(f, 0, d.feeAmount).value;
      if s.0 == k {
        assert Amount(w1[k := Token(f1)], s) == Amount(w1, s) - Fee(metas, d, s);
      }
    }
  }

  lemma {:induction false} RefundTokenAmount(w: World, metas: seq<Meta>, account: u8, ds: seq<Withdrawal>,
                                             feeAddress: Bytes, s: Place)
    requires RefundToken(w, metas, account, ds, feeAddress).Ok?
    requires Amount(w, s) + TokenTaken(metas, account, ds, s) < U64
    ensures Amount(RefundToken(w, metas, account, ds, feeAddress).value, s)
         == Amount(w, s) + TokenTaken(metas, account, ds, s) - TokenFees(metas, ds, s)
    decreases |ds|
  {
    if ds != [] {
      RefundAmount(w, metas, account, ds[0], feeAddress, s);
      RefundTokenAmount(RefundOne(w, metas, account, ds[0], feeAddress).value, metas, account, ds[1..], feeAddress, s);
    }
  }

  /** Whatever batch is rolled back, and whenever, each slot moves by exactly what
      the batch takes from it less the fees that it puts there. */
  lemma {:induction false} RefundAllAmount(w: World, metas: seq<Meta>, tokens: seq<TokenWithdrawals>,
                                           feeAddress: Bytes, s: Place)
    requires RefundAll(w, metas, tokens, feeAddress).Ok?
    requires Amount(w, s) + BatchTaken(metas, tokens, s) < U64
    ensures Amount(RefundAll(w, metas, tokens, feeAddress).value, s)
         == Amount(w, s) + BatchTaken(metas, tokens, s) - BatchFees(metas, tokens, s)
    decreases |tokens|
  {
    if tokens != [] {
      RefundTokenAmount(w, metas, tokens[0].account, tokens[0].withdrawals, feeAddress, s);
      var w1 := RefundToken(w, metas, tokens[0].account, tokens[0].withdrawals, feeAddress).value;
      RefundAllAmount(w1, metas, tokens[1..], feeAddress, s);
    }
  }

  // ---------------------------------------------------------------------------
  // When rollback goes through
  // ---------------------------------------------------------------------------

  /** A withdrawal names an assigned wallet, and its fee, if any, an assigned
      wallet of a token account of the instance whose slot 0 is the fee address. */
  predicate Refundable(w: World, metas: seq<Meta>, account: u8, d: Withdrawal, feeAddress: Bytes) {
    && 0 < |metas| && BoundTo(w, metas, account, metas[0].key)
    && Names(At(w, metas[account].key).t, d.address)
    && (d.feeAmount > 0 ==>
          && ExpectToken(w, metas, d.feeAccount, true).Ok?
          && var f := At(w, metas[d.feeAccount].key).t;
             0 < |f.slots| && UpToNul(f.slots[0].address) == feeAddress && d.feeAddress.index < |f.slots|)
  }

  predicate TokenRefundable(w: World, metas: seq<Meta>, x: TokenWithdrawals, feeAddress: Bytes) {
    ExpectToken(w, metas, x.account, true).Ok?
        && forall d | d in x.withdrawals :: Refundable(w, metas, x.account, d, feeAddress)
  }

  lemma RefundableKept(w: World, w': World, metas: seq<Meta>, account: u8, d: Withdrawal, feeAddress: Bytes)
    requires Refundable(w, metas, account, d, feeAddress) && AmountsOnly(w, w', metas[0].key)
    ensures Refundable(w', metas, account, d, feeAddress)
  {
    StaysBound(w, w', metas, account, metas[0].key);
    if d.feeAmount > 0 {
      StaysBound(w, w', metas, d.feeAccount, metas[0].key);
    }
  }

  lemma TokenRefundableKept(w: World, w': World, metas: seq<Meta>, x: TokenWithdrawals, feeAddress: Bytes)
    requires 0 < |metas| && TokenRefundable(w, metas, x, feeAddress) && AmountsOnly(w, w', metas[0].key)
    ensures TokenRefundable(w', metas, x, feeAddress)
  {
    StaysBound(w, w', metas, x.account, metas[0].key);
    forall d | d in x.withdrawals ensures Refundable(w', metas, x.account, d, feeAddress) {
      RefundableKept(w, w', metas, x.account, d, feeAddress);
    }
  }

  // Batches as one list of entries --------------------------------------------------

  datatype Entry = Entry(account: u8, d: Withdrawal)

  function EntriesOf(account: u8, ds: seq<Withdrawal>): seq<Entry> {
    if ds == [] then [] else [Entry(account, ds[0])] + EntriesOf(account, ds[1..])
  }

  /** All withdrawals of a batch, in batch order. */
  function Entries(tokens: seq<TokenWithdrawals>): seq<Entry> {
    if tokens == [] then [] else EntriesOf(tokens[0].account, tokens[0].withdrawals) + Entries(tokens[1..])
  }

  function TakenBy(metas: seq<Meta>, es: seq<Entry>, s: Place): nat {
    if es == [] then 0 else Taken(metas, es[0].account, es[0].d, s) + TakenBy(metas, es[1..], s)
  }

  function FeesOf(metas: seq<Meta>, es: seq<Entry>, s: Place): nat {
    if es == [] then 0 else Fee(metas, es[0].d, s) + FeesOf(metas, es[1..], s)
  }

  function RefundEntries(w: World, metas: seq<Meta>, es: seq<Entry>, feeAddress: Bytes): Result<World>
    decreases |es|
  {
    if es == [] then Ok(w) else
    var w' :- RefundOne(w, metas, es[0].account, es[0].d, feeAddress);
    RefundEntries(w', metas, es[1..], feeAddress)
  }

  lemma {:induction false} SumsJoin(metas: seq<Meta>, es: seq<Entry>, fs: seq<Entry>, s: Place)
    ensures TakenBy(metas, es + fs, s) == TakenBy(metas, es, s) + TakenBy(metas, fs, s)
    ensures FeesOf(metas, es + fs, s) == FeesOf(metas, es, s) + FeesOf(metas, fs, s)
  {
    if es == [] {
      assert es + fs == fs;
    } else {
      assert (es + fs)[1..] == es[1..] + fs;
      SumsJoin(metas, es[1..], fs, s);
    }
  }

  lemma {:induction false} TokenSums(metas: seq<Meta>, account: u8, ds: seq<Withdrawal>, s: Place)
    ensures TakenBy(metas, EntriesOf(account, ds), s) == TokenTaken(metas, account, ds, s)
    ensures FeesOf(metas, EntriesOf(account, ds), s) == TokenFees(metas, ds, s)
  {
    if ds != [] {
      assert EntriesOf(account, ds)[1..] == EntriesOf(account, ds[1..]);
      TokenSums(metas, account, ds[1..], s);
    }
  }

  lemma {:induction false} BatchSums(metas: seq<Meta>, tokens: seq<TokenWithdrawals>, s: Place)
    ensures TakenBy(metas, Entries(tokens), s) == BatchTaken(metas, tokens, s)
    ensures FeesOf(metas, Entries(tokens), s) == BatchFees(metas, tokens, s)
  {
    if tokens != [] {
      TokenSums(metas, tokens[0].account, tokens[0].withdrawals, s);
      SumsJoin(metas, EntriesOf(tokens[0].account, tokens[0].withdrawals), Entries(tokens[1..]), s);
      BatchSums(metas, tokens[1..], s);
    }
  }

  lemma {:induction false} RefundsJoin(w: World, metas: seq<Meta>, es: seq<Entry>, fs: seq<Entry>, feeAddress: Bytes)
    ensures RefundEntries(w, metas, es + fs, feeAddress)
         == match RefundEntries(w, metas, es, feeAddress)
            case Ok(w') => RefundEntries(w', metas, fs, feeAddress)
            case Err(e) => Err(e)
    decreases |es|
  {
    if es == [] {
      assert es + fs == fs;
    } else {
      assert (es + fs)[1..] == es[1..] + fs;
      var r := RefundOne(w, metas, es[0].account, es[0].d, feeAddress);
      if r.Ok? {
        RefundsJoin(r.value, metas, es[1..], fs, feeAddress);
      }
    }
  }

  lemma {:induction false} TokenRefundIsEntries(w: World, metas: seq<Meta>, account: u8, ds: seq<Withdrawal>,
                                                feeAddress: Bytes)
    ensures RefundToken(w, metas, account, ds, feeAddress)
        == RefundEntries(w, metas, EntriesOf(account, ds), feeAddress)
    decreases |ds|
  {
    if ds != [] {
      assert EntriesOf(account, ds)[1..] == EntriesOf(account, ds[1..]);
      var r := RefundOne(w, metas, account, ds[0], feeAddress);
      if r.Ok? {
        TokenRefundIsEntries(r.value, metas, account, ds[1..], feeAddress);
      }
    }
  }

  /** A batch whose accounts are all good is rolled back entry by entry. */
  lemma {:induction false} RefundIsEntries(w: World, metas: seq<Meta>, tokens: seq<TokenWithdrawals>, feeAddress: Bytes)
    requires 0 < |metas| && forall x | x in tokens :: TokenRefundable(w, metas, x, feeAddress)
    ensures RefundAll(w, metas, tokens, feeAddress) == RefundEntries(w, metas, Entries(tokens), feeAddress)
    decreases |tokens|
  {
    if tokens != [] {
      var x := tokens[0];
      assert x in tokens && TokenRefundable(w, metas, x, feeAddress);
      TokenRefundIsEntries(w, metas, x.account, x.withdrawals, feeAddress);
      RefundsJoin(w, metas, EntriesOf(x.account, x.withdrawals), Entries(tokens[1..]), feeAddress);
      var r := RefundToken(w, metas, x.account, x.withdrawals, feeAddress);
      if r.Ok? {
        RefundTokenFrame(w, metas, x.account, x.withdrawals, feeAddress);
        forall y | y in tokens[1..] ensures TokenRefundable(r.value, metas, y, feeAddress) {
          assert y in tokens;
          TokenRefundableKept(w, r.value, metas, y, feeAddress);
        }
        RefundIsEntries(r.value, metas, tokens[1..], feeAddress);
      }
    }
  }

  // The exact condition --------------------------------------------------------------

  /** The slot that collects the fee of a withdrawal. */
  function FeeSlot(metas: seq<Meta>, d: Withdrawal): Place {
    (KeyAt(metas, d.feeAccount), 0)
  }

  /** What a refund gives to a slot before it takes the fee back: the amount. */
  function GivenFirst(metas: seq<Meta>, e: Entry, s: Place): nat {
    if s == (KeyAt(metas, e.account), e.d.address.index) then e.d.amount else 0
  }

  /** When the entries before it have been refunded, the fee of this one is there,
      in the slot that collected it. */
  ghost predicate FeeThere(metas: seq<Meta>, had: Place -> nat, before: seq<Entry>, e: Entry) {
    var s := FeeSlot(metas, e.d);
    e.d.feeAmount > 0 ==>
      e.d.feeAmount + FeesOf(metas, before, s) <= had(s) + TakenBy(metas, before, s) + GivenFirst(metas, e, s)
  }

  ghost predicate FeesThere(metas: seq<Meta>, had: Place -> nat, es: seq<Entry>) {
    forall n | 0 <= n < |es| :: FeeThere(metas, had, es[..n], es[n])
  }

  /** One refund goes through if and only if its fee is there. */
  lemma RefundIff(w: World, metas: seq<Meta>, e: Entry, feeAddress: Bytes)
    requires Refundable(w, metas, e.account, e.d, feeAddress)
    requires forall s: Place :: Amount(w, s) + Taken(metas, e.account, e.d, s) < U64
    ensures RefundOne(w, metas, e.account, e.d, feeAddress).Ok? <==> FeeThere(metas, s => Amount(w, s), [], e)
  {
    var a, d := metas[e.account].key, e.d;
    var wallet: Place := (a, d.address.index);
    assert Amount(w, wallet) + Taken(metas, e.account, d, wallet) < U64;
    var t1 := Credit(At(w, a).t, d.address.index, d.amount).value;
    var w1 := w[a := Token(t1)];
    if d.feeAmount > 0 {
      var s := FeeSlot(metas, d);
      assert Amount(w1, s) == Amount(w, s) + GivenFirst(metas, e, s);
      assert ExpectToken(w1, metas, d.feeAccount, true) == Ok(At(w1, s.0).t);
    }
  }

  /** The first entry, and then the rest from where it leaves off. */
  lemma FeesThereStep(metas: seq<Meta>, had: Place -> nat, had1: Place -> nat, es: seq<Entry>)
    requires es != []
    requires forall s: Place :: had1(s) + Fee(metas, es[0].d, s) == had(s) + Taken(metas, es[0].account, es[0].d, s)
    ensures FeeThere(metas, had, [], es[0]) ==> (FeesThere(metas, had, es) <==> FeesThere(metas, had1, es[1..]))
  {
    forall n | 0 <= n < |es| - 1
      ensures FeeThere(metas, had, es[..n + 1], es[n + 1]) <==> FeeThere(metas, had1, es[1..][..n], es[1..][n])
    {
      var s := FeeSlot(metas, es[n + 1].d);
      assert es[..n + 1][1..] == es[1..][..n];
      assert had1(s) + Fee(metas, es[0].d, s) == had(s) + Taken(metas, es[0].account, es[0].d, s);
    }
    assert es[..0] == [];
    if FeesThere(metas, had, es) {
      forall n | 0 <= n < |es[1..]| ensures FeeThere(metas, had1, es[1..][..n], es[1..][n]) {
        assert FeeThere(metas, had, es[..n + 1], es[n + 1]);
      }
    }
    if FeeThere(metas, had, [], es[0]) && FeesThere(metas, had1, es[1..]) {
      forall n | 0 <= n < |es| ensures FeeThere(metas, had, es[..n], es[n]) {
        if n > 0 {
          assert FeeThere(metas, had1, es[1..][..n - 1], es[1..][n - 1]);
        }
      }
    }
  }

  ghost predicate AllRefundable(w: World, metas: seq<Meta>, es: seq<Entry>, feeAddress: Bytes) {
    0 < |metas| && forall e | e in es :: Refundable(w, metas, e.account, e.d, feeAddress)
  }

  lemma AfterOneRefund(w: World, metas: seq<Meta>, es: seq<Entry>, feeAddress: Bytes)
    requires es != [] && AllRefundable(w, metas, es, feeAddress)
    requires forall s: Place :: Amount(w, s) + TakenBy(metas, es, s) < U64
    requires RefundOne(w, metas, es[0].account, es[0].d, feeAddress).Ok?
    ensures var w1 := RefundOne(w, metas, es[0].account, es[0].d, feeAddress).value;
            && AllRefundable(w1, metas, es[1..], feeAddress)
            && (forall s: Place :: Amount(w1, s) + TakenBy(metas, es[1..], s) < U64)
            && forall s: Place ::
                Amount(w1, s) + Fee(metas, es[0].d, s) == Amount(w, s) + Taken(metas, es[0].account, es[0].d, s)
  {
    var e := es[0];
    assert e in es;
    var w1 := RefundOne(w, metas, e.account, e.d, feeAddress).value;
    RefundFrame(w, metas, e.account, e.d, feeAddress);
    forall f | f in es[1..] ensures Refundable(w1, metas, f.account, f.d, feeAddress) {
      assert f in es;
      RefundableKept(w, w1, metas, f.account, f.d, feeAddress);
    }
    forall s: Place
      ensures Amount(w1, s) + TakenBy(metas, es[1..], s) < U64
      ensures Amount(w1, s) + Fee(metas, e.d, s) == Amount(w, s) + Taken(metas, e.account, e.d, s)
    {
      assert Amount(w, s) + TakenBy(metas, es, s) < U64;
      RefundAmount(w, metas, e.account, e.d, feeAddress, s);
    }
  }

  /** While no balance overflows, a batch of good entries can be rolled back if and
      only if, at each entry, the fee is there. */
  lemma {:induction false} RefundEntriesIff(w: World, metas: seq<Meta>, es: seq<Entry>, feeAddress: Bytes)
    requires AllRefundable(w, metas, es, feeAddress)
    requires forall s: Place :: Amount(w, s) + TakenBy(metas, es, s) < U64
    ensures RefundEntries(w, metas, es, feeAddress).Ok? <==> FeesThere(metas, s => Amount(w, s), es)
    decreases |es|
  {
    var had := (s: Place) => Amount(w, s);
    if es != [] {
      var e := es[0];
      assert e in es && es[..0] == [];
      forall s: Place ensures Amount(w, s) + Taken(metas, e.account, e.d, s) < U64 {
        assert Amount(w, s) + TakenBy(metas, es, s) < U64;
      }
      RefundIff(w, metas, e, feeAddress);
      var r := RefundOne(w, metas, e.account, e.d, feeAddress);
      if r.Ok? {
        AfterOneRefund(w, metas, es, feeAddress);
        RefundEntriesIff(r.value, metas, es[1..], feeAddress);
        FeesThereStep(metas, had, s => Amount(r.value, s), es);
      } else {
        assert !FeeThere(metas, had, es[..0], es[0]);
      }
    }
  }

  /** The same for a whole batch. */
  lemma RefundAllIff(w: World, metas: seq<Meta>, tokens: seq<TokenWithdrawals>, feeAddress: Bytes)
    requires 0 < |metas| && forall x | x in tokens :: TokenRefundable(w, metas, x, feeAddress)
    requires forall s: Place :: Amount(w, s) + BatchTaken(metas, tokens, s) < U64
    ensures RefundAll(w, metas, tokens, feeAddress).Ok? <==> FeesThere(metas, s => Amount(w, s), Entries(tokens))
  {
    RefundIsEntries(w, metas, tokens, feeAddress);
    EntriesRefundable(w, metas, tokens, feeAddress);
    forall s: Place ensures Amount(w, s) + TakenBy(metas, Entries(tokens), s) < U64 {
      BatchSums(metas, tokens, s);
    }
    RefundEntriesIff(w, metas, Entries(tokens), feeAddress);
  }

  lemma {:induction false} EntriesRefundable(w: World, metas: seq<Meta>, tokens: seq<TokenWithdrawals>,
                                             feeAddress: Bytes)
    requires 0 < |metas| && forall x | x in tokens :: TokenRefundable(w, metas, x, feeAddress)
    ensures AllRefundable(w, metas, Entries(tokens), feeAddress)
  {
    if tokens != [] {
      assert tokens[0] in tokens && forall x | x in tokens[1..] :: x in tokens;
      EntriesOfToken(tokens[0].account, tokens[0].withdrawals);
      EntriesRefundable(w, metas, tokens[1..], feeAddress);
    }
  }

  lemma {:induction false} EntriesOfToken(account: u8, ds: seq<Withdrawal>)
    ensures forall e | e in EntriesOf(account, ds) :: e.account == account && e.d in ds
  {
    if ds != [] {
      EntriesOfToken(account, ds[1..]);
    }
  }

  // In terms of the balances before the batch ------------------------------------------

  /** At each entry with a fee, what the later entries took from the slot that
      collected it (and this fee itself, if it was paid from there) is covered by
      what that slot had before the batch and by the fees of the later entries. */
  ghost predicate LaterCovered(metas: seq<Meta>, had: Place -> int, es: seq<Entry>) {
    forall n | 0 <= n < |es| && es[n].d.feeAmount > 0 ::
      var s := FeeSlot(metas, es[n].d);
      OwnFee(metas, es[n], s) + TakenBy(metas, es[n + 1..], s) <= had(s) + FeesOf(metas, es[n + 1..], s)
  }

  /** What a withdrawal takes from a slot besides its amount. */
  function OwnFee(metas: seq<Meta>, e: Entry, s: Place): nat {
    Taken(metas, e.account, e.d, s) - GivenFirst(metas, e, s)
  }

  lemma ThereIffCovered(metas: seq<Meta>, before: Place -> int, now: Place -> nat, es: seq<Entry>)
    requires forall s: Place :: now(s) + TakenBy(metas, es, s) == before(s) + FeesOf(metas, es, s)
    ensures FeesThere(metas, now, es) <==> LaterCovered(metas, before, es)
  {
    forall n | 0 <= n < |es| && es[n].d.feeAmount > 0
      ensures var s := FeeSlot(metas, es[n].d);
              FeeThere(metas, now, es[..n], es[n])
              <==> OwnFee(metas, es[n], s) + TakenBy(metas, es[n + 1..], s) <= before(s) + FeesOf(metas, es[n + 1..], s)
    {
      var s := FeeSlot(metas, es[n].d);
      assert es == es[..n] + es[n..] && es[n..] == [es[n]] + es[n + 1..];
      SumsJoin(metas, es[..n], es[n..], s);
      assert es[n..][1..] == es[n + 1..];
      assert now(s) + TakenBy(metas, es, s) == before(s) + FeesOf(metas, es, s);
    }
  }
}
