/** What a withdrawal batch pays out: the transaction built at submit carries
    exactly the outputs drafted at prepare, and they add up to what prepare
    debited. */
module ArchPayout {
  import opened Machine
  import opened Sequences
  import opened ArchTypes
  import opened ArchLedger
  import opened ArchFrames
  import opened ArchMoney
  import opened ArchWithdrawal

  // ---------------------------------------------------------------------------
  // The lines of a payout
  // ---------------------------------------------------------------------------

  /** One withdrawal's part of the transaction: an output that carries the money,
      or a dust output and the runes that an edict moves to it. */
  datatype Line =
    | CoinLine(key: Key, output: TxOut)
    | RuneLine(key: Key, output: TxOut, rune: RuneId, amount: u64)

  function PaidAmount(l: Line): u64 {
    match l case CoinLine(_, output) => output.value case RuneLine(_, _, _, amount) => amount
  }

  function LineOf(env: Env, t: TokenState, key: Key, d: Withdrawal, network: Network): Line {
    var address := if d.address.index < |t.slots| then UpToNul(t.slots[d.address.index].address) else [];
    var script := env.script(address, network);
    match env.rune(TokenName(t))
    case Some(rune) => RuneLine(key, TxOut(DUST_THRESHOLD, script), rune, d.amount)
    case None => CoinLine(key, TxOut(WrapSub(d.amount, d.feeAmount), script))
  }

  function TokenLines(env: Env, t: TokenState, key: Key, ds: seq<Withdrawal>, network: Network): seq<Line> {
    if ds == [] then [] else [LineOf(env, t, key, ds[0], network)] + TokenLines(env, t, key, ds[1..], network)
  }

  /** The lines of a batch, in batch order. */
  function Lines(env: Env, w: World, metas: seq<Meta>, tokens: seq<TokenWithdrawals>, network: Network): seq<Line> {
    if tokens == [] then [] else
    (if At(w, KeyAt(metas, tokens[0].account)).Token?
     then TokenLines(env, At(w, KeyAt(metas, tokens[0].account)).t, KeyAt(metas, tokens[0].account),
         tokens[0].withdrawals, network)
     else [])
    + Lines(env, w, metas, tokens[1..], network)
  }

  function Outputs(ls: seq<Line>): (o: seq<TxOut>)
    ensures |o| == |ls| && forall i | 0 <= i < |ls| :: o[i] == ls[i].output
  {
    if ls == [] then [] else [ls[0].output] + Outputs(ls[1..])
  }

  /** The edicts of these lines when the first of their outputs has index `n`. */
  function EdictsAt(ls: seq<Line>, n: nat): seq<Edict> {
    if ls == [] then [] else
    (if ls[0].RuneLine? then [Edict(ls[0].rune, ls[0].amount, n % U32)] else []) + EdictsAt(ls[1..], n + 1)
  }

  /** A payout with these lines added to it. */
  function WithLines(o: Payout, ls: seq<Line>): Payout {
    Payout(o.outputs + Outputs(ls), o.edicts + EdictsAt(ls, |o.outputs|))
  }

  lemma {:induction false} LinesConcat(o: Payout, ls: seq<Line>, ms: seq<Line>)
    ensures WithLines(WithLines(o, ls), ms) == WithLines(o, ls + ms)
  {
    OutputsConcat(ls, ms);
    EdictsConcat(ls, ms, |o.outputs|);
    OutputsLength(ls);
    Joined(o.outputs, Outputs(ls), Outputs(ms));
    Joined(o.edicts, EdictsAt(ls, |o.outputs|), EdictsAt(ms, |o.outputs| + |ls|));
  }

  lemma {:induction false} OutputsLength(ls: seq<Line>)
    ensures |Outputs(ls)| == |ls|
  {
    if ls != [] {
      OutputsLength(ls[1..]);
    }
  }

  lemma {:induction false} OutputsConcat(ls: seq<Line>, ms: seq<Line>)
    ensures Outputs(ls + ms) == Outputs(ls) + Outputs(ms)
  {
    if ls == [] {
      assert ls + ms == ms;
    } else {
      assert (ls + ms)[1..] == ls[1..] + ms && (ls + ms)[0] == ls[0];
      OutputsConcat(ls[1..], ms);
      Joined([ls[0].output], Outputs(ls[1..]), Outputs(ms));
    }
  }

  lemma {:induction false} EdictsConcat(ls: seq<Line>, ms: seq<Line>, n: nat)
    ensures EdictsAt(ls + ms, n) == EdictsAt(ls, n) + EdictsAt(ms, n + |ls|)
  {
    if ls == [] {
      assert ls + ms == ms;
    } else {
      assert (ls + ms)[1..] == ls[1..] + ms && (ls + ms)[0] == ls[0];
      EdictsConcat(ls[1..], ms, n + 1);
      var head := if ls[0].RuneLine? then [Edict(ls[0].rune, ls[0].amount, n % U32)] else [];
      assert EdictsAt(ls + ms, n) == head + EdictsAt(ls[1..] + ms, n + 1);
      Joined(head, EdictsAt(ls[1..], n + 1), EdictsAt(ms, n + |ls|));
    }
  }

  lemma PayIsLine(env: Env, t: TokenState, key: Key, d: Withdrawal, network: Network, o: Payout)
    requires Pay(env, t, d, network, o).Ok?
    ensures Pay(env, t, d, network, o).value == WithLines(o, [LineOf(env, t, key, d, network)])
  {
    var l := LineOf(env, t, key, d, network);
    assert [l][1..] == [];
    assert EdictsAt([l], |o.outputs|) == if l.RuneLine? then [Edict(l.rune, l.amount, |o.outputs| % U32)] else [];
  }

  lemma {:induction false} PayTokenLines(env: Env, w: World, metas: seq<Meta>, t: TokenState, key: Key,
                                         ds: seq<Withdrawal>, network: Network, o: Payout)
    requires PayToken(env, w, metas, t, ds, network, o).Ok?
    ensures PayToken(env, w, metas, t, ds, network, o).value == WithLines(o, TokenLines(env, t, key, ds, network))
    decreases |ds|
  {
    if ds != [] {
      PayIsLine(env, t, key, ds[0], network, o);
      var o1 := Pay(env, t, ds[0], network, o).value;
      PayTokenLines(env, w, metas, t, key, ds[1..], network, o1);
      LinesConcat(o, [LineOf(env, t, key, ds[0], network)], TokenLines(env, t, key, ds[1..], network));
    }
  }

  /** Submit pays exactly the lines of the batch. */
  lemma {:induction false} PayAllLines(env: Env, w: World, metas: seq<Meta>, tokens: seq<TokenWithdrawals>,
                                       network: Network, o: Payout)
    requires PayAll(env, w, metas, tokens, network, o).Ok?
    ensures PayAll(env, w, metas, tokens, network, o).value == WithLines(o, Lines(env, w, metas, tokens, network))
    decreases |tokens|
  {
    if tokens != [] {
      var t := ExpectToken(w, metas, tokens[0].account, false).value;
      var key := metas[tokens[0].account].key;
      PayTokenLines(env, w, metas, t, key, tokens[0].withdrawals, network, o);
      var o1 := PayToken(env, w, metas, t, tokens[0].withdrawals, network, o).value;
      PayAllLines(env, w, metas, tokens[1..], network, o1);
      LinesConcat(o, TokenLines(env, t, key, tokens[0].withdrawals, network),
          Lines(env, w, metas, tokens[1..], network));
    }
  }

  // ---------------------------------------------------------------------------
  // Prepare drafts the same lines
  // ---------------------------------------------------------------------------

  /** Token ids and the addresses of assigned slots are the same. */
  predicate SameNames(t: TokenState, t': TokenState) {
    Grows(t, t') && t'.tokenId == t.tokenId
  }

  predicate KeepsNames(w: World, w': World, k: Key) {
    At(w, k).Token? && At(w', k).Token? && SameNames(At(w, k).t, At(w', k).t)
  }

  lemma {:induction false} TokenLinesSame(env: Env, t: TokenState, t': TokenState, key: Key, ds: seq<Withdrawal>,
                                          network: Network)
    requires t'.tokenId == t.tokenId && |t.slots| <= |t'.slots|
    requires forall d | d in ds ::
        d.address.index < |t.slots| && t'.slots[d.address.index].address == t.slots[d.address.index].address
    ensures TokenLines(env, t', key, ds, network) == TokenLines(env, t, key, ds, network)
  {
    if ds != [] {
      assert ds[0] in ds;
      TokenLinesSame(env, t, t', key, ds[1..], network);
    }
  }

  /** Every wallet that the batch withdraws from is an assigned slot. */
  predicate WalletsAssigned(w: World, metas: seq<Meta>, tokens: seq<TokenWithdrawals>) {
    forall x | x in tokens ::
      && At(w, KeyAt(metas, x.account)).Token?
      && forall d | d in x.withdrawals ::
           d.address.index < At(w, KeyAt(metas, x.account)).t.count
               && d.address.index < |At(w, KeyAt(metas, x.account)).t.slots|
  }

  lemma {:induction false} LinesSame(env: Env, w: World, w': World, metas: seq<Meta>, metas': seq<Meta>,
                                     tokens: seq<TokenWithdrawals>, network: Network)
    requires |metas'| == |metas| && forall i | 0 <= i < |metas| :: metas'[i].key == metas[i].key
    requires WalletsAssigned(w, metas, tokens)
    requires forall x | x in tokens :: KeepsNames(w, w', KeyAt(metas, x.account))
    ensures Lines(env, w', metas', tokens, network) == Lines(env, w, metas, tokens, network)
  {
    if tokens != [] {
      var x := tokens[0];
      assert x in tokens && forall y | y in tokens[1..] :: y in tokens;
      var key := KeyAt(metas, x.account);
      TokenLinesSame(env, At(w, key).t, At(w', key).t, key, x.withdrawals, network);
      LinesSame(env, w, w', metas, metas', tokens[1..], network);
    }
  }

  /** Amount changes leave the lines as they are. */
  lemma LinesKept(env: Env, w: World, w': World, metas: seq<Meta>, tokens: seq<TokenWithdrawals>, network: Network,
                  owner: Key)
    requires AmountsOnly(w, w', owner) && BoundBatch(w, metas, tokens, owner) && WalletsAssigned(w, metas, tokens)
    ensures Lines(env, w', metas, tokens, network) == Lines(env, w, metas, tokens, network)
    ensures WalletsAssigned(w', metas, tokens)
  {
    forall x | x in tokens
      ensures KeepsNames(w, w', KeyAt(metas, x.account))
      ensures At(w', KeyAt(metas, x.account)).t.count == At(w, KeyAt(metas, x.account)).t.count
      ensures |At(w', KeyAt(metas, x.account)).t.slots| == |At(w, KeyAt(metas, x.account)).t.slots|
    {
      StaysBound(w, w', metas, x.account, owner);
    }
    LinesSame(env, w, w', metas, metas, tokens, network);
  }

  lemma PrepareOneLine(env: Env, x: Draft, metas: seq<Meta>, account: u8, d: Withdrawal, feeAddress: Bytes,
                       network: Network, owner: Key)
    requires BoundTo(x.w, metas, account, owner) && BoundTo(x.w, metas, d.feeAccount, owner)
    requires PrepareOne(env, x, metas, account, d, feeAddress, network).Ok?
    ensures AmountsOnly(x.w, PrepareOne(env, x, metas, account, d, feeAddress, network).value.w, owner)
    ensures PrepareOne(env, x, metas, account, d, feeAddress, network).value.o
         == WithLines(x.o, [LineOf(env, At(x.w, metas[account].key).t, metas[account].key, d, network)])
  {
    ChargeFrame(x.w, metas, account, d, feeAddress, owner);
    var w' := ChargeOne(x.w, metas, account, d, feeAddress).value;
    StaysBound(x.w, w', metas, account, owner);
    var key := metas[account].key;
    PayIsLine(env, At(w', key).t, key, d, network, x.o);
  }

  lemma {:induction false} PrepareTokenLines(env: Env, x: Draft, metas: seq<Meta>, account: u8, ds: seq<Withdrawal>,
                                             feeAddress: Bytes, network: Network, owner: Key)
    requires BoundTo(x.w, metas, account, owner) && BoundWithdrawals(x.w, metas, ds, owner)
    requires PrepareToken(env, x, metas, account, ds, feeAddress, network).Ok?
    requires forall d | d in ds :: d.address.index < |At(x.w, metas[account].key).t.slots|
    ensures PrepareToken(env, x, metas, account, ds, feeAddress, network).value.o
         == WithLines(x.o, TokenLines(env, At(x.w, metas[account].key).t, metas[account].key, ds, network))
    decreases |ds|
  {
    if ds != [] {
      assert ds[0] in ds && BoundTo(x.w, metas, ds[0].feeAccount, owner);
      var key := metas[account].key;
      PrepareOneLine(env, x, metas, account, ds[0], feeAddress, network, owner);
      var x' := PrepareOne(env, x, metas, account, ds[0], feeAddress, network).value;
      StaysBound(x.w, x'.w, metas, account, owner);
      forall d | d in ds[1..] ensures BoundTo(x'.w, metas, d.feeAccount, owner) {
        StaysBound(x.w, x'.w, metas, d.feeAccount, owner);
      }
      PrepareTokenLines(env, x', metas, account, ds[1..], feeAddress, network, owner);
      TokenLinesSame(env, At(x.w, key).t, At(x'.w, key).t, key, ds[1..], network);
      LinesConcat(x.o, [LineOf(env, At(x.w, key).t, key, ds[0], network)],
          TokenLines(env, At(x.w, key).t, key, ds[1..], network));
    }
  }

  /** Prepare drafts exactly the lines of the batch. */
  lemma {:induction false} PrepareAllLines(env: Env, x: Draft, metas: seq<Meta>, tokens: seq<TokenWithdrawals>,
                                           feeAddress: Bytes, network: Network, owner: Key)
    requires BoundBatch(x.w, metas, tokens, owner) && WalletsAssigned(x.w, metas, tokens)
    requires PrepareAll(env, x, metas, tokens, feeAddress, network).Ok?
    ensures PrepareAll(env, x, metas, tokens, feeAddress, network).value.o
        == WithLines(x.o, Lines(env, x.w, metas, tokens, network))
    decreases |tokens|
  {
    if tokens != [] {
      var y := tokens[0];
      assert y in tokens && forall z | z in tokens[1..] :: z in tokens;
      PrepareTokenLines(env, x, metas, y.account, y.withdrawals, feeAddress, network, owner);
      PrepareTokenFrame(env, x, metas, y.account, y.withdrawals, feeAddress, network, owner);
      var x' := PrepareToken(env, x, metas, y.account, y.withdrawals, feeAddress, network).value;
      BoundKept(x.w, x'.w, metas, tokens[1..], owner);
      LinesKept(env, x.w, x'.w, metas, tokens[1..], network, owner);
      PrepareAllLines(env, x', metas, tokens[1..], feeAddress, network, owner);
      LinesConcat(x.o, TokenLines(env, At(x.w, metas[y.account].key).t, metas[y.account].key, y.withdrawals, network),
                  Lines(env, x.w, metas, tokens[1..], network));
    }
  }

  // ---------------------------------------------------------------------------
  // The lines add up to what prepare debits
  // ---------------------------------------------------------------------------

  predicate IsRune(env: Env, t: TokenState) {
    env.rune(TokenName(t)).Some?
  }

  /** A fee is taken from the withdrawal's own account exactly when that account
      is not a rune, and then is at most the amount. */
  predicate Disciplined(env: Env, w: World, metas: seq<Meta>, account: u8, d: Withdrawal) {
    d.feeAmount > 0 ==>
      && (KeyAt(metas, d.feeAccount) == KeyAt(metas, account) <==>
            !(At(w, KeyAt(metas, account)).Token? && IsRune(env, At(w, KeyAt(metas, account)).t)))
      && (KeyAt(metas, d.feeAccount) == KeyAt(metas, account) ==> d.feeAmount <= d.amount)
  }

  /** Collecting a fee from another account leaves that account's money alone, and
      cannot wrap while the account holds less than 2^64. */
  lemma FeeStaysInside(f: TokenState, i: nat, fee: u64)
    requires Money(f) < U64 && Credit(f, 0, fee).Ok? && Debit(Credit(f, 0, fee).value, i, fee).Ok?
    ensures Money(Debit(Credit(f, 0, fee).value, i, fee).value) == Money(f)
  {
    var f1 := Credit(f, 0, fee).value;
    CreditMoney(f, 0, fee);
    DebitMoney(f1, i, fee);
    if i > 0 {
      TwoSlots(f.slots, 0, i);
    }
  }

  /** What the accounts lose on one withdrawal, when no account holds 2^64 or more:
      its own account loses the amount, less the fee if the fee comes back to it. */
  lemma ChargeDrop(w: World, metas: seq<Meta>, account: u8, d: Withdrawal, feeAddress: Bytes, k: Key)
    requires ChargeOne(w, metas, account, d, feeAddress).Ok?
    requires MoneyIn(k, At(w, k)) < U64
    requires d.feeAmount > 0 && k == KeyAt(metas, account) == KeyAt(metas, d.feeAccount)
        ==> MoneyIn(k, At(w, k)) - d.amount + d.feeAmount < U64
    ensures MoneyIn(k, At(w, k)) - MoneyIn(k, At(ChargeOne(w, metas, account, d, feeAddress).value, k))
         == if k != KeyAt(metas, account) then 0
            else if d.feeAmount > 0 && KeyAt(metas, d.feeAccount) == k then d.amount - d.feeAmount else d.amount
  {
    var a := metas[account].key;
    DebitMoney(At(w, a).t, d.address.index, d.amount);
    var w1 := w[a := Token(Debit(At(w, a).t, d.address.index, d.amount).value)];
    if d.feeAmount > 0 && metas[d.feeAccount].key == k {
      var f := At(w1, k).t;
      CreditMoney(f, 0, d.feeAmount);
      if k != a {
        FeeStaysInside(f, d.feeAddress.index, d.feeAmount);
      }
    }
  }

  /** A withdrawal pays out what its account loses if and only if it is
      disciplined, for an entry with a fee. */
  lemma EntryPaysIff(env: Env, w: World, metas: seq<Meta>, account: u8, d: Withdrawal, feeAddress: Bytes,
                     network: Network)
    requires ChargeOne(w, metas, account, d, feeAddress).Ok? && d.feeAmount > 0
    requires MoneyIn(metas[account].key, At(w, metas[account].key)) + d.feeAmount < U64
    ensures var k := metas[account].key;
            MoneyIn(k, At(w, k)) - MoneyIn(k, At(ChargeOne(w, metas, account, d, feeAddress).value, k))
            == PaidAmount(LineOf(env, At(w, k).t, k, d, network))
            <==> Disciplined(env, w, metas, account, d)
  {
    ChargeDrop(w, metas, account, d, feeAddress, metas[account].key);
    assert WrapSub(d.amount, d.feeAmount)
        == if d.amount >= d.feeAmount then d.amount - d.feeAmount else d.amount - d.feeAmount + U64;
  }

  /** What a payout pays on behalf of one account. */
  function PaidFor(ls: seq<Line>, k: Key): nat {
    if ls == [] then 0 else (if ls[0].key == k then PaidAmount(ls[0]) else 0) + PaidFor(ls[1..], k)
  }

  lemma {:induction false} PaidConcat(ls: seq<Line>, ms: seq<Line>, k: Key)
    ensures PaidFor(ls + ms, k) == PaidFor(ls, k) + PaidFor(ms, k)
  {
    if ls == [] {
      assert ls + ms == ms;
    } else {
      assert (ls + ms)[1..] == ls[1..] + ms;
      PaidConcat(ls[1..], ms, k);
    }
  }

  // ---------------------------------------------------------------------------
  // Exactly when a batch pays what it debits
  // ---------------------------------------------------------------------------

  predicate RuneAt(env: Env, w: World, k: Key) {
    At(w, k).Token? && IsRune(env, At(w, k).t)
  }

  lemma RuneAtKept(env: Env, w: World, w': World, owner: Key, k: Key)
    requires AmountsOnly(w, w', owner)
    ensures RuneAt(env, w', k) == RuneAt(env, w, k)
  {
  }

  predicate OwnFeeAccount(metas: seq<Meta>, e: Entry) {
    KeyAt(metas, e.d.feeAccount) == KeyAt(metas, e.account)
  }

  /** By how much the account of an entry rises when its fee exceeds its amount. */
  function Rises(metas: seq<Meta>, es: seq<Entry>, k: Key): nat {
    if es == [] then 0 else
    (if KeyAt(metas, es[0].account) == k && OwnFeeAccount(metas, es[0]) && es[0].d.feeAmount > es[0].d.amount
     then es[0].d.feeAmount - es[0].d.amount else 0)
    + Rises(metas, es[1..], k)
  }

  /** What an entry of account `k` pays out beyond what the account loses. */
  function Overpays(metas: seq<Meta>, e: Entry, rune: bool): int {
    (if rune then e.d.amount else WrapSub(e.d.amount, e.d.feeAmount))
    - (e.d.amount - if OwnFeeAccount(metas, e) then e.d.feeAmount else 0)
  }

  function Overpaid(metas: seq<Meta>, es: seq<Entry>, k: Key, rune: bool): int {
    if es == [] then 0 else
    (if KeyAt(metas, es[0].account) == k then Overpays(metas, es[0], rune) else 0) + Overpaid(metas, es[1..], k, rune)
  }

  /** The fees of the entries of account `k`, from that account or from others. */
  function FeesFor(metas: seq<Meta>, es: seq<Entry>, k: Key, own: bool): nat {
    if es == [] then 0 else
    (if KeyAt(metas, es[0].account) == k && OwnFeeAccount(metas, es[0]) == own then es[0].d.feeAmount else 0)
    + FeesFor(metas, es[1..], k, own)
  }

  /** How many entries of account `k` have a fee above their amount. */
  function Overcharged(metas: seq<Meta>, es: seq<Entry>, k: Key): nat {
    if es == [] then 0 else
    (if KeyAt(metas, es[0].account) == k && es[0].d.feeAmount > es[0].d.amount then 1 else 0)
    + Overcharged(metas, es[1..], k)
  }

  /** Every withdrawal from account `k` is disciplined. */
  ghost predicate DisciplinedFor(env: Env, w: World, metas: seq<Meta>, es: seq<Entry>, k: Key) {
    forall e | e in es && KeyAt(metas, e.account) == k :: Disciplined(env, w, metas, e.account, e.d)
  }

  lemma {:induction false} OverpaidIs(metas: seq<Meta>, es: seq<Entry>, k: Key, rune: bool)
    ensures Overpaid(metas, es, k, rune)
         == if rune then FeesFor(metas, es, k, true) else U64 * Overcharged(metas, es, k) - FeesFor(metas, es, k, false)
  {
    if es != [] {
      var d := es[0].d;
      assert WrapSub(d.amount, d.feeAmount)
          == if d.amount >= d.feeAmount then d.amount - d.feeAmount else d.amount - d.feeAmount + U64;
      OverpaidIs(metas, es[1..], k, rune);
    }
  }

  lemma {:induction false} DisciplinedIff(env: Env, w: World, metas: seq<Meta>, es: seq<Entry>, k: Key)
    ensures DisciplinedFor(env, w, metas, es, k)
        <==> if RuneAt(env, w, k) then FeesFor(metas, es, k, true) == 0
             else Overcharged(metas, es, k) == 0 && FeesFor(metas, es, k, false) == 0
  {
    if es != [] {
      DisciplinedIff(env, w, metas, es[1..], k);
      assert forall e :: e in es <==> e == es[0] || e in es[1..];
      assert DisciplinedFor(env, w, metas, es, k)
          <==> (KeyAt(metas, es[0].account) == k ==> Disciplined(env, w, metas, es[0].account, es[0].d))
               && DisciplinedFor(env, w, metas, es[1..], k);
    }
  }

  /** While the fees that others pay for it stay below 2^64, an account pays out
      exactly what it loses if and only if each of its entries is disciplined: what
      one entry overpays, no other one makes up for. */
  lemma NothingOverpaidIff(env: Env, w: World, metas: seq<Meta>, es: seq<Entry>, k: Key)
    requires FeesFor(metas, es, k, false) < U64
    ensures Overpaid(metas, es, k, RuneAt(env, w, k)) == 0 <==> DisciplinedFor(env, w, metas, es, k)
  {
    OverpaidIs(metas, es, k, RuneAt(env, w, k));
    DisciplinedIff(env, w, metas, es, k);
  }

  lemma {:induction false} DisciplinedPays(env: Env, w: World, metas: seq<Meta>, es: seq<Entry>, k: Key)
    requires DisciplinedFor(env, w, metas, es, k)
    ensures Overpaid(metas, es, k, RuneAt(env, w, k)) == 0 && Rises(metas, es, k) == 0
  {
    if es != [] {
      assert forall e | e in es[1..] :: e in es;
      DisciplinedPays(env, w, metas, es[1..], k);
      if KeyAt(metas, es[0].account) == k {
        assert Disciplined(env, w, metas, es[0].account, es[0].d);
      }
    }
  }

  lemma {:induction false} OverpaidJoin(metas: seq<Meta>, es: seq<Entry>, fs: seq<Entry>, k: Key, rune: bool)
    ensures Overpaid(metas, es + fs, k, rune) == Overpaid(metas, es, k, rune) + Overpaid(metas, fs, k, rune)
    ensures Rises(metas, es + fs, k) == Rises(metas, es, k) + Rises(metas, fs, k)
  {
    if es == [] {
      assert es + fs == fs;
    } else {
      assert (es + fs)[1..] == es[1..] + fs;
      OverpaidJoin(metas, es[1..], fs, k, rune);
    }
  }

  /** What the accounts lose on one withdrawal, and what it pays on their behalf. */
  lemma ChargePays(env: Env, w: World, metas: seq<Meta>, account: u8, d: Withdrawal, feeAddress: Bytes,
                   network: Network, k: Key)
    requires ChargeOne(w, metas, account, d, feeAddress).Ok?
    requires MoneyIn(k, At(w, k)) + Rises(metas, [Entry(account, d)], k) < U64
    ensures var after := MoneyIn(k, At(ChargeOne(w, metas, account, d, feeAddress).value, k));
            && after + PaidFor([LineOf(env, At(w, metas[account].key).t, metas[account].key, d, network)], k)
               == MoneyIn(k, At(w, k)) + Overpaid(metas, [Entry(account, d)], k, RuneAt(env, w, k))
            && after <= MoneyIn(k, At(w, k)) + Rises(metas, [Entry(account, d)], k)
  {
    var e := Entry(account, d);
    assert [e][1..] == [];
    assert Rises(metas, [e], k)
        == if KeyAt(metas, account) == k && OwnFeeAccount(metas, e) && d.feeAmount > d.amount
           then d.feeAmount - d.amount else 0;
    ChargeDrop(w, metas, account, d, feeAddress, k);
    var l := LineOf(env, At(w, metas[account].key).t, metas[account].key, d, network);
    assert PaidFor([l], k) == (if l.key == k then PaidAmount(l) else 0) + PaidFor([l][1..], k);
    assert Overpaid(metas, [e], k, RuneAt(env, w, k))
        == if KeyAt(metas, account) == k then Overpays(metas, e, RuneAt(env, w, k)) else 0;
  }

  lemma {:induction false} PrepareTokenPays(env: Env, x: Draft, metas: seq<Meta>, account: u8, ds: seq<Withdrawal>,
                                            feeAddress: Bytes, network: Network, owner: Key, k: Key)
    requires BoundTo(x.w, metas, account, owner) && BoundWithdrawals(x.w, metas, ds, owner)
    requires PrepareToken(env, x, metas, account, ds, feeAddress, network).Ok?
    requires forall d | d in ds :: d.address.index < |At(x.w, metas[account].key).t.slots|
    requires MoneyIn(k, At(x.w, k)) + Rises(metas, EntriesOf(account, ds), k) < U64
    ensures var after := MoneyIn(k, At(PrepareToken(env, x, metas, account, ds, feeAddress, network).value.w, k));
            && after + PaidFor(TokenLines(env, At(x.w, metas[account].key).t, metas[account].key, ds, network), k)
               == MoneyIn(k, At(x.w, k)) + Overpaid(metas, EntriesOf(account, ds), k, RuneAt(env, x.w, k))
            && after <= MoneyIn(k, At(x.w, k)) + Rises(metas, EntriesOf(account, ds), k)
    decreases |ds|
  {
    if ds != [] {
      assert ds[0] in ds && BoundTo(x.w, metas, ds[0].feeAccount, owner);
      var key := metas[account].key;
      OverpaidJoin(metas, [Entry(account, ds[0])], EntriesOf(account, ds[1..]), k, RuneAt(env, x.w, k));
      ChargePays(env, x.w, metas, account, ds[0], feeAddress, network, k);
      ChargeFrame(x.w, metas, account, ds[0], feeAddress, owner);
      var x' := PrepareOne(env, x, metas, account, ds[0], feeAddress, network).value;
      StaysBound(x.w, x'.w, metas, account, owner);
      RuneAtKept(env, x.w, x'.w, owner, k);
      forall d | d in ds[1..] ensures BoundTo(x'.w, metas, d.feeAccount, owner) {
        StaysBound(x.w, x'.w, metas, d.feeAccount, owner);
      }
      PrepareTokenPays(env, x', metas, account, ds[1..], feeAddress, network, owner, k);
      TokenLinesSame(env, At(x.w, key).t, At(x'.w, key).t, key, ds[1..], network);
      PaidConcat([LineOf(env, At(x.w, key).t, key, ds[0], network)],
          TokenLines(env, At(x.w, key).t, key, ds[1..], network), k);
    }
  }

  /** What each account loses at prepare, and what the lines pay on its behalf: they
      differ by exactly what its entries overpay. */
  lemma {:induction false} PrepareAllPays(env: Env, x: Draft, metas: seq<Meta>, tokens: seq<TokenWithdrawals>,
                                          feeAddress: Bytes, network: Network, owner: Key, k: Key)
    requires BoundBatch(x.w, metas, tokens, owner) && WalletsAssigned(x.w, metas, tokens)
    requires PrepareAll(env, x, metas, tokens, feeAddress, network).Ok?
    requires MoneyIn(k, At(x.w, k)) + Rises(metas, Entries(tokens), k) < U64
    ensures MoneyIn(k, At(PrepareAll(env, x, metas, tokens, feeAddress, network).value.w, k))
          + PaidFor(Lines(env, x.w, metas, tokens, network), k)
         == MoneyIn(k, At(x.w, k)) + Overpaid(metas, Entries(tokens), k, RuneAt(env, x.w, k))
    decreases |tokens|
  {
    if tokens != [] {
      var y := tokens[0];
      assert y in tokens && forall z | z in tokens[1..] :: z in tokens;
      OverpaidJoin(metas, EntriesOf(y.account, y.withdrawals), Entries(tokens[1..]), k, RuneAt(env, x.w, k));
      PrepareTokenPays(env, x, metas, y.account, y.withdrawals, feeAddress, network, owner, k);
      PrepareTokenFrame(env, x, metas, y.account, y.withdrawals, feeAddress, network, owner);
      var x' := PrepareToken(env, x, metas, y.account, y.withdrawals, feeAddress, network).value;
      BoundKept(x.w, x'.w, metas, tokens[1..], owner);
      RuneAtKept(env, x.w, x'.w, owner, k);
      LinesKept(env, x.w, x'.w, metas, tokens[1..], network, owner);
      PrepareAllPays(env, x', metas, tokens[1..], feeAddress, network, owner, k);
      PaidConcat(TokenLines(env, At(x.w, metas[y.account].key).t, metas[y.account].key, y.withdrawals, network),
                 Lines(env, x.w, metas, tokens[1..], network), k);
    }
  }
}
