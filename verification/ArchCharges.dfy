/** Exactly when a checked withdrawal batch can be prepared: as a list of single debits
    and fee credits, each debit has to be covered when its turn comes; each fee needs
    its home in slot 0; and the payout may need a rune receiver. */
module ArchCharges {
  import opened Machine
  import opened Wrappers
  import opened ArchTypes
  import opened ArchLedger
  import opened ArchFrames
  import opened ArchChecks
  import opened ArchReports
  import opened ArchWithdrawal
  import opened ArchRollback
  import opened ArchGrowth
  import opened ArchRunningSums
  import opened ArchPayout
  import opened ArchSubmit
  import opened ArchOutcomes

  // ---------------------------------------------------------------------------
  // A withdrawal as single moves
  // ---------------------------------------------------------------------------

  /** The fee goes to slot 0 of the fee account, and is taken from there too unless that
      is the account withdrawn from. */
  function FeeMoves(metas: seq<Meta>, e: Entry): seq<Move> {
    if e.d.feeAmount == 0 then [] else
    [Move(KeyAt(metas, e.d.feeAccount), 0, e.d.feeAmount, true)]
    + if OtherFee(metas, e.account, e.d)
      then [Move(KeyAt(metas, e.d.feeAccount), e.d.feeAddress.index, e.d.feeAmount, false)] else []
  }

  /** The amount leaves the wallet, then the fee moves. */
  function EntryMoves(metas: seq<Meta>, e: Entry): seq<Move> {
    [Move(KeyAt(metas, e.account), e.d.address.index, e.d.amount, false)] + FeeMoves(metas, e)
  }

  function ChargeMoves(metas: seq<Meta>, es: seq<Entry>): seq<Move> {
    if es == [] then [] else EntryMoves(metas, es[0]) + ChargeMoves(metas, es[1..])
  }

  /** The accounts and slots that an entry moves money between. */
  predicate EntryPlaced(w: World, metas: seq<Meta>, e: Entry) {
    && e.account as nat < |metas| && At(w, metas[e.account].key).Token?
    && e.d.address.index < |At(w, metas[e.account].key).t.slots|
    && e.d.feeAccount as nat < |metas| && At(w, metas[e.d.feeAccount].key).Token?
    && e.d.feeAddress.index < |At(w, metas[e.d.feeAccount].key).t.slots|
  }

  lemma DoFirst(w: World, m: Move, ms: seq<Move>)
    ensures Do(w, [m] + ms) == if DoOne(w, m).Ok? then Do(DoOne(w, m).value, ms) else Err(DoOne(w, m).error)
  {
    assert ([m] + ms)[1..] == ms;
  }

  lemma FeeIsMoves(w: World, metas: seq<Meta>, e: Entry, feeAddress: Bytes)
    requires EntryPlaced(w, metas, e)
    ensures ChargeFee(w, metas, e.account, e.d, feeAddress).Ok?
        <==> FeeIsHome(w, metas, e.d, feeAddress) && Do(w, FeeMoves(metas, e)).Ok?
    ensures ChargeFee(w, metas, e.account, e.d, feeAddress).Ok? ==>
              ChargeFee(w, metas, e.account, e.d, feeAddress) == Do(w, FeeMoves(metas, e))
  {
    if e.d.feeAmount > 0 {
      var k := metas[e.d.feeAccount].key;
      var credit, debit := Move(k, 0, e.d.feeAmount, true), Move(k, e.d.feeAddress.index, e.d.feeAmount, false);
      var last := if OtherFee(metas, e.account, e.d) then [debit] else [];
      DoFirst(w, credit, last);
      var r := DoOne(w, credit);
      if r.Ok? && last != [] {
        assert [debit] + [] == [debit];
        DoFirst(r.value, debit, []);
        var f1 := At(r.value, k).t;
        if Debit(f1, e.d.feeAddress.index, e.d.feeAmount).Ok? {
          var f2 := Debit(f1, e.d.feeAddress.index, e.d.feeAmount).value;
          assert r.value[k := Token(f2)] == w[k := Token(f2)];
        }
      }
    }
  }

  lemma EntryIsMoves(w: World, metas: seq<Meta>, e: Entry, feeAddress: Bytes)
    requires EntryPlaced(w, metas, e)
    ensures ChargeOne(w, metas, e.account, e.d, feeAddress).Ok?
        <==> FeeIsHome(w, metas, e.d, feeAddress) && Do(w, EntryMoves(metas, e)).Ok?
    ensures ChargeOne(w, metas, e.account, e.d, feeAddress).Ok? ==>
              ChargeOne(w, metas, e.account, e.d, feeAddress) == Do(w, EntryMoves(metas, e))
  {
    var debit := Move(KeyAt(metas, e.account), e.d.address.index, e.d.amount, false);
    DoFirst(w, debit, FeeMoves(metas, e));
    var r := DoOne(w, debit);
    if r.Ok? {
      FeeIsMoves(r.value, metas, e, feeAddress);
      assert FeeIsHome(r.value, metas, e.d, feeAddress) <==> FeeIsHome(w, metas, e.d, feeAddress);
    }
  }

  // ---------------------------------------------------------------------------
  // A batch, entry by entry
  // ---------------------------------------------------------------------------

  function ChargeEntries(w: World, metas: seq<Meta>, es: seq<Entry>, feeAddress: Bytes): Result<World>
    decreases |es|
  {
    if es == [] then Ok(w) else
    var w' :- ChargeOne(w, metas, es[0].account, es[0].d, feeAddress);
    ChargeEntries(w', metas, es[1..], feeAddress)
  }

  lemma {:induction false} ChargeJoin(w: World, metas: seq<Meta>, es: seq<Entry>, fs: seq<Entry>, feeAddress: Bytes)
    ensures ChargeEntries(w, metas, es + fs, feeAddress)
         == var r := ChargeEntries(w, metas, es, feeAddress);
            if r.Ok? then ChargeEntries(r.value, metas, fs, feeAddress) else r
    decreases |es|
  {
    if es == [] {
      assert es + fs == fs;
    } else {
      assert (es + fs)[1..] == es[1..] + fs;
      var r := ChargeOne(w, metas, es[0].account, es[0].d, feeAddress);
      if r.Ok? {
        ChargeJoin(r.value, metas, es[1..], fs, feeAddress);
      }
    }
  }

  ghost predicate AllPlaced(w: World, metas: seq<Meta>, es: seq<Entry>) {
    forall e | e in es :: EntryPlaced(w, metas, e)
  }

  ghost predicate AllFeesHome(w: World, metas: seq<Meta>, es: seq<Entry>, feeAddress: Bytes) {
    forall e | e in es :: FeeIsHome(w, metas, e.d, feeAddress)
  }

  lemma {:induction false} DoKeepsPlaces(w: World, ms: seq<Move>)
    requires Do(w, ms).Ok?
    ensures SameShape(w, Do(w, ms).value)
    decreases |ms|
  {
    if ms != [] {
      var w1 := DoOne(w, ms[0]).value;
      DoKeepsPlaces(w1, ms[1..]);
      forall k: Key
        ensures At(Do(w, ms).value, k).Token? <==> At(w, k).Token?
        ensures At(w, k).Token? ==> SameButAmounts(At(w, k).t, At(Do(w, ms).value, k).t)
      {
        assert At(w1, k).Token? <==> At(w, k).Token?;
      }
    }
  }

  lemma PlacesKept(w: World, w': World, metas: seq<Meta>, es: seq<Entry>, feeAddress: Bytes)
    requires SameShape(w, w') && AllPlaced(w, metas, es)
    ensures AllPlaced(w', metas, es)
    ensures AllFeesHome(w', metas, es, feeAddress) <==> AllFeesHome(w, metas, es, feeAddress)
  {
    forall e | e in es
      ensures EntryPlaced(w', metas, e)
      ensures FeeIsHome(w', metas, e.d, feeAddress) <==> FeeIsHome(w, metas, e.d, feeAddress)
    {
      assert EntryPlaced(w, metas, e);
      var a, f := At(w', metas[e.account].key), At(w', metas[e.d.feeAccount].key);
      assert a.Token? && f.Token?;
    }
  }

  lemma {:induction false} EntriesAreMoves(w: World, metas: seq<Meta>, es: seq<Entry>, feeAddress: Bytes)
    requires AllPlaced(w, metas, es)
    ensures ChargeEntries(w, metas, es, feeAddress).Ok?
        <==> AllFeesHome(w, metas, es, feeAddress) && Do(w, ChargeMoves(metas, es)).Ok?
    decreases |es|
  {
    if es != [] {
      assert es[0] in es && forall e :: e in es <==> e == es[0] || e in es[1..];
      EntryIsMoves(w, metas, es[0], feeAddress);
      DoJoin(w, EntryMoves(metas, es[0]), ChargeMoves(metas, es[1..]));
      var r := Do(w, EntryMoves(metas, es[0]));
      if r.Ok? {
        DoKeepsPlaces(w, EntryMoves(metas, es[0]));
        PlacesKept(w, r.value, metas, es[1..], feeAddress);
        EntriesAreMoves(r.value, metas, es[1..], feeAddress);
      }
      assert AllFeesHome(w, metas, es, feeAddress)
          <==> FeeIsHome(w, metas, es[0].d, feeAddress) && AllFeesHome(w, metas, es[1..], feeAddress);
    }
  }

  lemma {:induction false} MovesHavePlaces(w: World, metas: seq<Meta>, es: seq<Entry>, feeAddress: Bytes)
    requires AllPlaced(w, metas, es) && AllFeesHome(w, metas, es, feeAddress)
    ensures HaveSlots(w, ChargeMoves(metas, es))
  {
    if es != [] {
      assert es[0] in es && forall e | e in es[1..] :: e in es;
      assert EntryPlaced(w, metas, es[0]) && FeeIsHome(w, metas, es[0].d, feeAddress);
      MovesHavePlaces(w, metas, es[1..], feeAddress);
      forall m | m in EntryMoves(metas, es[0]) ensures HasSlot(w, m) {
      }
    }
  }

  /** While no balance overflows, the charges of a batch go through if and only if each
      fee has its home, and each debit is covered when its turn comes. */
  lemma ChargesIff(w: World, metas: seq<Meta>, es: seq<Entry>, feeAddress: Bytes)
    requires AllPlaced(w, metas, es) && forall s: Place :: Amount(w, s) + CreditsTo(ChargeMoves(metas, es), s) < U64
    ensures ChargeEntries(w, metas, es, feeAddress).Ok?
        <==> AllFeesHome(w, metas, es, feeAddress) && RunningCovered(s => Amount(w, s), ChargeMoves(metas, es))
  {
    EntriesAreMoves(w, metas, es, feeAddress);
    if AllFeesHome(w, metas, es, feeAddress) {
      MovesHavePlaces(w, metas, es, feeAddress);
      DoIff(w, ChargeMoves(metas, es));
    }
  }

  // ---------------------------------------------------------------------------
  // The drafted payout does not get in the way
  // ---------------------------------------------------------------------------

  /** The wallet of an entry holds an address of the network. */
  predicate EntryPays(env: Env, w: World, metas: seq<Meta>, e: Entry, network: Network) {
    && e.account as nat < |metas| && At(w, metas[e.account].key).Token?
    && var t := At(w, metas[e.account].key).t;
       && e.d.address.index < |t.slots| && env.parses(AddressIn(t, e.d.address.index))
       && env.onNetwork(AddressIn(t, e.d.address.index), network)
  }

  ghost predicate AllPay(env: Env, w: World, metas: seq<Meta>, es: seq<Entry>, network: Network) {
    forall e | e in es :: EntryPays(env, w, metas, e, network)
  }

  lemma PaysKept(env: Env, w: World, w': World, metas: seq<Meta>, es: seq<Entry>, network: Network)
    requires SameShape(w, w') && AllPay(env, w, metas, es, network)
    ensures AllPay(env, w', metas, es, network)
  {
    forall e | e in es ensures EntryPays(env, w', metas, e, network) {
      assert EntryPays(env, w, metas, e, network);
      assert At(w', metas[e.account].key).Token?;
    }
  }

  lemma PrepareOneIff(env: Env, x: Draft, metas: seq<Meta>, e: Entry, feeAddress: Bytes, network: Network)
    requires EntryPlaced(x.w, metas, e) && EntryPays(env, x.w, metas, e, network)
    ensures var r := PrepareOne(env, x, metas, e.account, e.d, feeAddress, network);
            var c := ChargeOne(x.w, metas, e.account, e.d, feeAddress);
            && (r.Ok? <==> c.Ok?) && (r.Ok? ==> r.value.w == c.value && SameShape(x.w, r.value.w))
  {
    EntryIsMoves(x.w, metas, e, feeAddress);
    if ChargeOne(x.w, metas, e.account, e.d, feeAddress).Ok? {
      DoKeepsPlaces(x.w, EntryMoves(metas, e));
      var w' := ChargeOne(x.w, metas, e.account, e.d, feeAddress).value;
      assert At(w', metas[e.account].key).Token?;
    }
  }

  lemma {:induction false} PrepareTokenIff(env: Env, x: Draft, metas: seq<Meta>, account: u8, ds: seq<Withdrawal>,
                                           feeAddress: Bytes, network: Network)
    requires AllPlaced(x.w, metas, EntriesOf(account, ds)) && AllPay(env, x.w, metas, EntriesOf(account, ds), network)
    ensures var r := PrepareToken(env, x, metas, account, ds, feeAddress, network);
            var c := ChargeEntries(x.w, metas, EntriesOf(account, ds), feeAddress);
            && (r.Ok? <==> c.Ok?) && (r.Ok? ==> r.value.w == c.value && SameShape(x.w, r.value.w))
    decreases |ds|
  {
    if ds != [] {
      var es, e := EntriesOf(account, ds), Entry(account, ds[0]);
      assert es[1..] == EntriesOf(account, ds[1..]) && e in es && forall f | f in es[1..] :: f in es;
      PrepareOneIff(env, x, metas, e, feeAddress, network);
      var x' := PrepareOne(env, x, metas, account, ds[0], feeAddress, network);
      if x'.Ok? {
        PlacesKept(x.w, x'.value.w, metas, es[1..], feeAddress);
        PaysKept(env, x.w, x'.value.w, metas, es[1..], network);
        PrepareTokenIff(env, x'.value, metas, account, ds[1..], feeAddress, network);
        var r := PrepareToken(env, x, metas, account, ds, feeAddress, network);
        if r.Ok? {
          SameShapeTrans(x.w, x'.value.w, r.value.w);
        }
      }
    } else {
      assert SameShape(x.w, x.w);
    }
  }

  lemma {:induction false} PrepareAllIff(env: Env, x: Draft, metas: seq<Meta>, tokens: seq<TokenWithdrawals>,
                                         feeAddress: Bytes, network: Network)
    requires AllPlaced(x.w, metas, Entries(tokens)) && AllPay(env, x.w, metas, Entries(tokens), network)
    ensures PrepareAll(env, x, metas, tokens, feeAddress, network).Ok?
        <==> ChargeEntries(x.w, metas, Entries(tokens), feeAddress).Ok?
    decreases |tokens|
  {
    if tokens != [] {
      var y := tokens[0];
      var first, rest := EntriesOf(y.account, y.withdrawals), Entries(tokens[1..]);
      assert Entries(tokens) == first + rest;
      assert forall e | e in first :: e in Entries(tokens);
      assert forall e | e in rest :: e in Entries(tokens);
      PrepareTokenIff(env, x, metas, y.account, y.withdrawals, feeAddress, network);
      ChargeJoin(x.w, metas, first, rest, feeAddress);
      var x' := PrepareToken(env, x, metas, y.account, y.withdrawals, feeAddress, network);
      if x'.Ok? {
        PlacesKept(x.w, x'.value.w, metas, rest, feeAddress);
        PaysKept(env, x.w, x'.value.w, metas, rest, network);
        PrepareAllIff(env, x'.value, metas, tokens[1..], feeAddress, network);
      }
    }
  }

  // ---------------------------------------------------------------------------
  // Exactly when a batch is prepared
  // ---------------------------------------------------------------------------

  lemma {:induction false} InEntries(tokens: seq<TokenWithdrawals>, e: Entry)
    ensures e in Entries(tokens) <==> exists x :: x in tokens && x.account == e.account && e.d in x.withdrawals
  {
    if tokens != [] {
      InEntriesOf(tokens[0].account, tokens[0].withdrawals, e);
      InEntries(tokens[1..], e);
      assert forall x :: x in tokens <==> x == tokens[0] || x in tokens[1..];
    }
  }

  lemma {:induction false} InEntriesOf(account: u8, ds: seq<Withdrawal>, e: Entry)
    ensures e in EntriesOf(account, ds) <==> e.account == account && e.d in ds
  {
    if ds != [] {
      InEntriesOf(account, ds[1..], e);
    }
  }

  /** Entries that can be paid have their places, and addresses to pay to. */
  lemma PayablePlaced(env: Env, w: World, metas: seq<Meta>, tokens: seq<TokenWithdrawals>, network: Network)
    requires forall x | x in tokens :: AllPayable(env, w, metas, x, network)
    ensures AllPlaced(w, metas, Entries(tokens)) && AllPay(env, w, metas, Entries(tokens), network)
  {
    forall e | e in Entries(tokens) ensures EntryPlaced(w, metas, e) && EntryPays(env, w, metas, e, network) {
      InEntries(tokens, e);
      var x :| x in tokens && x.account == e.account && e.d in x.withdrawals;
      assert AllPayable(env, w, metas, x, network);
      assert Payable(env, ExpectToken(w, metas, x.account, true).value,
                     ExpectToken(w, metas, e.d.feeAccount, true).value, e.d, network);
    }
  }

  lemma {:induction false} RuneEdicts(ls: seq<Line>, n: nat)
    ensures EdictsAt(ls, n) != [] <==> exists l :: l in ls && l.RuneLine?
  {
    if ls != [] {
      RuneEdicts(ls[1..], n + 1);
      assert forall l :: l in ls <==> l == ls[0] || l in ls[1..];
    }
  }

  /** The payout of a batch can be made: there is something to pay, and if runes move, a
      rune receiver. */
  predicate PayoutAllowed(ls: seq<Line>, hasReceiver: bool) {
    ls != [] && ((exists l :: l in ls && l.RuneLine?) ==> hasReceiver)
  }

  /** A batch that was checked and has nothing to report is drafted if and only if its
      charges go through and its payout can be made. */
  lemma DraftIff(env: Env, w: World, metas: seq<Meta>, b: WithdrawBatch, p: ProgramState, owner: Key)
    requires 0 < |metas| && ReceiverListed(w, metas, false) && BoundBatch(w, metas, b.tokens, owner)
    requires AllPlaced(w, metas, Entries(b.tokens)) && AllPay(env, w, metas, Entries(b.tokens), p.network)
    requires WalletsAssigned(w, metas, b.tokens)
    requires forall s: Place :: Amount(w, s) + CreditsTo(ChargeMoves(metas, Entries(b.tokens)), s) < U64
    ensures DraftWithdraw(env, w, metas, b, p).Ok?
        <==> && AllFeesHome(w, metas, Entries(b.tokens), UpToNul(p.feeAccount))
             && RunningCovered(s => Amount(w, s), ChargeMoves(metas, Entries(b.tokens)))
             && PayoutAllowed(Lines(env, w, metas, b.tokens, p.network), At(w, metas[2].key).RuneReceiver?)
  {
    var fee, lines := UpToNul(p.feeAccount), Lines(env, w, metas, b.tokens, p.network);
    HasReceiverIff(w, metas, false);
    PrepareAllIff(env, Draft(w, NO_PAYOUT), metas, b.tokens, fee, p.network);
    ChargesIff(w, metas, Entries(b.tokens), fee);
    if PrepareAll(env, Draft(w, NO_PAYOUT), metas, b.tokens, fee, p.network).Ok? {
      PrepareAllLines(env, Draft(w, NO_PAYOUT), metas, b.tokens, fee, p.network, owner);
      RuneEdicts(lines, 0);
      assert WithLines(NO_PAYOUT, lines) == Payout([] + Outputs(lines), [] + EdictsAt(lines, 0));
    }
  }

  /** The accounts as the draft finds them differ in the report alone. */
  lemma ReportKeeps(w: World, w1: World, metas: seq<Meta>, es: seq<Entry>, p1: ProgramState)
    requires 0 < |metas| && At(w, metas[0].key).Program? && w1 == w[metas[0].key := Program(p1)]
    ensures forall s: Place :: Amount(w1, s) == Amount(w, s)
    ensures SameShape(w, w1)
    ensures ReceiverListed(w, metas, false) ==> ReceiverListed(w1, metas, false)
    ensures 2 < |metas| ==> (At(w1, metas[2].key).RuneReceiver? <==> At(w, metas[2].key).RuneReceiver?)
  {
  }

  lemma SameRunning(w: World, w1: World, ms: seq<Move>)
    requires forall s: Place :: Amount(w1, s) == Amount(w, s)
    ensures RunningCovered(s => Amount(w1, s), ms) <==> RunningCovered(s => Amount(w, s), ms)
  {
    forall n | 0 <= n < |ms|
      ensures MoveCovered(s => Amount(w1, s), ms[..n], ms[n]) <==> MoveCovered(s => Amount(w, s), ms[..n], ms[n])
    {
    }
    if RunningCovered(s => Amount(w, s), ms) {
      forall n | 0 <= n < |ms| && !ms[n].credit ensures MoveCovered(s => Amount(w1, s), ms[..n], ms[n]) {
        assert MoveCovered(s => Amount(w, s), ms[..n], ms[n]);
      }
    }
    if RunningCovered(s => Amount(w1, s), ms) {
      forall n | 0 <= n < |ms| && !ms[n].credit ensures MoveCovered(s => Amount(w, s), ms[..n], ms[n]) {
        assert MoveCovered(s => Amount(w1, s), ms[..n], ms[n]);
      }
    }
  }

  /** The draft on the accounts as they were before the report. */
  lemma DraftedIff(env: Env, w: World, metas: seq<Meta>, b: WithdrawBatch, p1: ProgramState)
    requires 2 < |metas| && At(w, metas[0].key).Program? && ReceiverListed(w, metas, false)
    requires BoundBatch(w, metas, b.tokens, metas[0].key)
    requires forall x | x in b.tokens :: AllPayable(env, w, metas, x, p1.network)
    requires forall s: Place :: Amount(w, s) + CreditsTo(ChargeMoves(metas, Entries(b.tokens)), s) < U64
    ensures DraftWithdraw(env, w[metas[0].key := Program(p1)], metas, b, p1).Ok?
        <==> && AllFeesHome(w, metas, Entries(b.tokens), UpToNul(p1.feeAccount))
             && RunningCovered(s => Amount(w, s), ChargeMoves(metas, Entries(b.tokens)))
             && PayoutAllowed(Lines(env, w, metas, b.tokens, p1.network), At(w, metas[2].key).RuneReceiver?)
  {
    var w1, es := w[metas[0].key := Program(p1)], Entries(b.tokens);
    PayablePlaced(env, w, metas, b.tokens, p1.network);
    ReportKeeps(w, w1, metas, es, p1);
    PlacesKept(w, w1, metas, es, UpToNul(p1.feeAccount));
    PaysKept(env, w, w1, metas, es, p1.network);
    ProgramStepFrame(w, w1, metas, b.tokens);
    EntriesAssigned(env, w, metas, b.tokens, p1.network);
    LinesSameTokens(env, w, w1, metas, b.tokens, p1.network);
    SameRunning(w, w1, ChargeMoves(metas, es));
    DraftIff(env, w1, metas, b, p1, metas[0].key);
  }

  lemma EntriesAssigned(env: Env, w: World, metas: seq<Meta>, tokens: seq<TokenWithdrawals>, network: Network)
    requires forall x | x in tokens :: AllPayable(env, w, metas, x, network)
    ensures WalletsAssigned(w, metas, tokens)
  {
    forall x, d | x in tokens && d in x.withdrawals
      ensures Payable(env, ExpectToken(w, metas, x.account, true).value,
                      ExpectToken(w, metas, d.feeAccount, true).value, d, network)
    {
      assert AllPayable(env, w, metas, x, network);
    }
  }

  /** Exactly when a withdrawal batch is prepared: it is checked without error; and if
      every entry can be paid, each fee has its home, the debits are covered one after
      the other, and the payout can be made. */
  lemma PrepareWithdrawIff(env: Env, w: World, metas: seq<Meta>, b: WithdrawBatch, raw: Bytes)
    requires forall s: Place :: Amount(w, s) + CreditsTo(ChargeMoves(metas, Entries(b.tokens)), s) < U64
    ensures PrepareWithdraw(env, w, metas, b, raw).Ok?
        <==> && CheckWithdraw(env, w, metas, b).Ok?
             && var p := At(w, metas[0].key).p;
                (Failures(env, w, metas, b.tokens, p.network) == [] ==>
                   && AllFeesHome(w, metas, Entries(b.tokens), UpToNul(p.feeAccount))
                   && RunningCovered(s => Amount(w, s), ChargeMoves(metas, Entries(b.tokens)))
                   && PayoutAllowed(Lines(env, w, metas, b.tokens, p.network), At(w, metas[2].key).RuneReceiver?))
  {
    if CheckWithdraw(env, w, metas, b).Ok? {
      var p, p1 := At(w, metas[0].key).p, CheckWithdraw(env, w, metas, b).value;
      CheckWithdrawFrame(env, w, metas, b);
      CheckWithdrawIff(env, w, metas, b);
      BatchReport(env, w, metas, b.tokens, p.network, ClearEvents(p));
      if p1.events == [] {
        DraftedIff(env, w, metas, b, p1);
      }
      PrepareSteps(env, w, metas, b, raw);
    }
  }

  lemma PrepareSteps(env: Env, w: World, metas: seq<Meta>, b: WithdrawBatch, raw: Bytes)
    requires CheckWithdraw(env, w, metas, b).Ok?
    ensures var p1 := CheckWithdraw(env, w, metas, b).value;
            PrepareWithdraw(env, w, metas, b, raw).Ok?
            <==> (p1.events == [] ==> DraftWithdraw(env, w[metas[0].key := Program(p1)], metas, b, p1).Ok?)
  {
    assert ExpectWithdraw(w, metas, false).Ok?;
  }

  // ---------------------------------------------------------------------------
  // What is rolled back is named as it should be
  // ---------------------------------------------------------------------------

  /** The wallet is named by its address; a fee comes from a token account of the
      instance whose slot 0 is its home. */
  predicate RefundNamed(w: World, metas: seq<Meta>, account: u8, d: Withdrawal, feeAddress: Bytes) {
    && account as nat < |metas| && At(w, metas[account].key).Token? && Names(At(w, metas[account].key).t, d.address)
    && (d.feeAmount > 0 ==> ExpectToken(w, metas, d.feeAccount, true).Ok?) && FeeIsHome(w, metas, d, feeAddress)
  }

  lemma RefundOneNames(w0: World, w: World, metas: seq<Meta>, account: u8, d: Withdrawal, feeAddress: Bytes)
    requires SameShape(w0, w) && RefundOne(w, metas, account, d, feeAddress).Ok?
    ensures RefundNamed(w0, metas, account, d, feeAddress)
  {
    var a := metas[account].key;
    assert At(w, a).Token? && SameButAmounts(At(w0, a).t, At(w, a).t);
    ValidatedIndexIff(At(w, a).t, d.address);
    if d.feeAmount > 0 {
      var k := metas[d.feeAccount].key;
      assert At(w, k).Token? && SameButAmounts(At(w0, k).t, At(w, k).t);
    }
  }

  lemma {:induction false} RefundTokenNames(w0: World, w: World, metas: seq<Meta>, account: u8, ds: seq<Withdrawal>,
                                            feeAddress: Bytes)
    requires SameShape(w0, w) && 0 < |metas| && BoundTo(w, metas, account, metas[0].key)
    requires RefundToken(w, metas, account, ds, feeAddress).Ok?
    ensures forall d | d in ds :: RefundNamed(w0, metas, account, d, feeAddress)
    decreases |ds|
  {
    if ds != [] {
      RefundOneNames(w0, w, metas, account, ds[0], feeAddress);
      RefundFrame(w, metas, account, ds[0], feeAddress);
      var w1 := RefundOne(w, metas, account, ds[0], feeAddress).value;
      StaysBound(w, w1, metas, account, metas[0].key);
      AmountsOnlySameShape(w, w1, metas[0].key);
      SameShapeTrans(w0, w, w1);
      RefundTokenNames(w0, w1, metas, account, ds[1..], feeAddress);
    }
  }

  /** A rollback that goes through names every token, wallet and fee account as it
      should. */
  lemma {:induction false} RefundAllNames(w0: World, w: World, metas: seq<Meta>, tokens: seq<TokenWithdrawals>,
                                          feeAddress: Bytes)
    requires SameShape(w0, w) && 0 < |metas| && RefundAll(w, metas, tokens, feeAddress).Ok?
    ensures forall x | x in tokens ::
              && ExpectToken(w0, metas, x.account, true).Ok?
              && forall d | d in x.withdrawals :: RefundNamed(w0, metas, x.account, d, feeAddress)
    decreases |tokens|
  {
    if tokens != [] {
      var x := tokens[0];
      assert At(w, metas[x.account].key).Token?;
      RefundTokenNames(w0, w, metas, x.account, x.withdrawals, feeAddress);
      RefundTokenFrame(w, metas, x.account, x.withdrawals, feeAddress);
      var w1 := RefundToken(w, metas, x.account, x.withdrawals, feeAddress).value;
      AmountsOnlySameShape(w, w1, metas[0].key);
      SameShapeTrans(w0, w, w1);
      RefundAllNames(w0, w1, metas, tokens[1..], feeAddress);
    }
  }

  /** A rollback needs the program account to sign and the withdraw account to be listed
      as writable, and nothing of the session. */
  lemma RollbackWithdrawIff(w: World, metas: seq<Meta>, tokens: seq<TokenWithdrawals>)
    ensures RollbackWithdraw(w, metas, tokens).Ok?
        <==> && ExpectProgram(w, metas, false, Some(1)).Ok? && ExpectWithdraw(w, metas, false).Ok?
             && RefundAll(w, metas, tokens, UpToNul(At(w, metas[0].key).p.feeAccount)).Ok?
    ensures RollbackWithdraw(w, metas, tokens).Ok? ==>
              At(RollbackWithdraw(w, metas, tokens).value, metas[1].key) == Withdraw(metas[0].key, EMPTY_HASH)
  {
  }
}
