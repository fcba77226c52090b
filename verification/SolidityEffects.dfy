/** What the settlement code of the Solidity contracts does, slot by slot, and exactly
    when it goes through: a batch is a list of single credits and debits, each of
    which has to stay inside uint256 when its turn comes. */
module SolidityEffects {
  import opened Wrappers
  import opened SolidityLedger

  // ---------------------------------------------------------------------------
  // A batch as single moves
  // ---------------------------------------------------------------------------

  datatype Move = Move(slot: Slot, amount: Uint256, credit: bool)

  /** The wallet that an adjustment names by its index. */
  function WalletAt(wallets: seq<Address>, i: nat): Address {
    if i < |wallets| then wallets[i] else 0
  }

  function MovesOf(wallets: seq<Address>, token: Address, adjs: seq<Adjustment>, credit: bool): seq<Move> {
    if adjs == [] then [] else
    [Move((WalletAt(wallets, adjs[0].wallet), token), adjs[0].amount, credit)]
    + MovesOf(wallets, token, adjs[1..], credit)
  }

  /** The increments, then the decrements, then the fee to the fee account. */
  function ListMoves(wallets: seq<Address>, feeAccount: Address, l: TokenList): seq<Move> {
    MovesOf(wallets, l.token, l.increments, true)
    + (MovesOf(wallets, l.token, l.decrements, false)
       + if l.fee != 0 then [Move((feeAccount, l.token), l.fee, true)] else [])
  }

  function BatchMoves(wallets: seq<Address>, feeAccount: Address, lists: seq<TokenList>): seq<Move> {
    if lists == [] then [] else ListMoves(wallets, feeAccount, lists[0]) + BatchMoves(wallets, feeAccount, lists[1..])
  }

  function CreditsTo(ms: seq<Move>, k: Slot): nat {
    if ms == [] then 0 else (if ms[0].credit && ms[0].slot == k then ms[0].amount else 0) + CreditsTo(ms[1..], k)
  }

  function DebitsTo(ms: seq<Move>, k: Slot): nat {
    if ms == [] then 0 else (if !ms[0].credit && ms[0].slot == k then ms[0].amount else 0) + DebitsTo(ms[1..], k)
  }

  /** After each move its slot is inside uint256, counting what it had and what has
      been moved so far. */
  ghost predicate RunningFits(had: Slot -> int, ms: seq<Move>) {
    forall n | 0 <= n < |ms| :: FitsAfter(had, ms[..n + 1], ms[n].slot)
  }

  predicate FitsAfter(had: Slot -> int, ms: seq<Move>, k: Slot) {
    0 <= had(k) + CreditsTo(ms, k) - DebitsTo(ms, k) < U256
  }

  // ---------------------------------------------------------------------------
  // Moves, one by one
  // ---------------------------------------------------------------------------

  function DoOne(b: Ledger, m: Move): Option<Ledger> {
    if m.credit then Add(b, m.slot.0, m.slot.1, m.amount) else Sub(b, m.slot.0, m.slot.1, m.amount)
  }

  function Do(b: Ledger, ms: seq<Move>): Option<Ledger>
    decreases |ms|
  {
    if ms == [] then Some(b) else
    match DoOne(b, ms[0])
    case None => None
    case Some(b') => Do(b', ms[1..])
  }

  lemma OneMove(m: Move, k: Slot)
    ensures CreditsTo([m], k) == if m.credit && m.slot == k then m.amount else 0
    ensures DebitsTo([m], k) == if !m.credit && m.slot == k then m.amount else 0
  {
    assert [m][1..] == [];
  }

  lemma DoOneEffect(b: Ledger, m: Move)
    ensures DoOne(b, m).Some? <==> FitsAfter(k => At(b, k), [m], m.slot)
    ensures DoOne(b, m).Some? ==>
              forall k: Slot :: At(DoOne(b, m).value, k) == At(b, k) + CreditsTo([m], k) - DebitsTo([m], k)
  {
    forall k: Slot
      ensures CreditsTo([m], k) == if m.credit && m.slot == k then m.amount else 0
      ensures DebitsTo([m], k) == if !m.credit && m.slot == k then m.amount else 0
    {
      OneMove(m, k);
    }
  }

  lemma {:induction false} MovesJoin(ms: seq<Move>, ns: seq<Move>, k: Slot)
    ensures CreditsTo(ms + ns, k) == CreditsTo(ms, k) + CreditsTo(ns, k)
    ensures DebitsTo(ms + ns, k) == DebitsTo(ms, k) + DebitsTo(ns, k)
  {
    if ms == [] {
      assert ms + ns == ns;
    } else {
      assert (ms + ns)[1..] == ms[1..] + ns;
      MovesJoin(ms[1..], ns, k);
    }
  }

  /** The first move, and then the rest from where it leaves off. */
  lemma RunningStep(had: Slot -> int, had1: Slot -> int, ms: seq<Move>)
    requires ms != []
    requires forall k: Slot :: had1(k) == had(k) + CreditsTo([ms[0]], k) - DebitsTo([ms[0]], k)
    ensures RunningFits(had, ms) <==> FitsAfter(had, [ms[0]], ms[0].slot) && RunningFits(had1, ms[1..])
  {
    assert ms[..1] == [ms[0]];
    forall n | 0 <= n < |ms| - 1
      ensures FitsAfter(had, ms[..n + 2], ms[n + 1].slot) <==> FitsAfter(had1, ms[1..][..n + 1], ms[1..][n].slot)
    {
      assert ms[..n + 2] == [ms[0]] + ms[1..][..n + 1];
      MovesJoin([ms[0]], ms[1..][..n + 1], ms[n + 1].slot);
    }
    if RunningFits(had, ms) {
      assert FitsAfter(had, ms[..0 + 1], ms[0].slot);
      forall n | 0 <= n < |ms[1..]| ensures FitsAfter(had1, ms[1..][..n + 1], ms[1..][n].slot) {
        assert FitsAfter(had, ms[..(n + 1) + 1], ms[n + 1].slot);
      }
    }
    if FitsAfter(had, [ms[0]], ms[0].slot) && RunningFits(had1, ms[1..]) {
      forall n | 0 <= n < |ms| ensures FitsAfter(had, ms[..n + 1], ms[n].slot) {
        if n > 0 {
          assert FitsAfter(had1, ms[1..][..(n - 1) + 1], ms[1..][n - 1].slot);
        }
      }
    }
  }

  /** Moves go through if and only if each fits when its turn comes, and then every
      slot has moved by its credits and debits. */
  lemma {:induction false} DoIff(b: Ledger, ms: seq<Move>)
    ensures Do(b, ms).Some? <==> RunningFits(k => At(b, k), ms)
    ensures Do(b, ms).Some? ==>
              forall k: Slot :: At(Do(b, ms).value, k) == At(b, k) + CreditsTo(ms, k) - DebitsTo(ms, k)
    decreases |ms|
  {
    if ms != [] {
      DoOneEffect(b, ms[0]);
      if DoOne(b, ms[0]).Some? {
        var b1 := DoOne(b, ms[0]).value;
        DoIff(b1, ms[1..]);
        RunningStep(k => At(b, k), k => At(b1, k), ms);
        forall k: Slot
          ensures CreditsTo(ms, k) == CreditsTo([ms[0]], k) + CreditsTo(ms[1..], k)
          ensures DebitsTo(ms, k) == DebitsTo([ms[0]], k) + DebitsTo(ms[1..], k)
        {
          assert ms == [ms[0]] + ms[1..];
          MovesJoin([ms[0]], ms[1..], k);
        }
      } else {
        assert ms[..0 + 1] == [ms[0]];
        assert !FitsAfter(k => At(b, k), ms[..0 + 1], ms[0].slot);
      }
    }
  }

  lemma {:induction false} DoJoin(b: Ledger, ms: seq<Move>, ns: seq<Move>)
    ensures Do(b, ms + ns) == match Do(b, ms) case None => None case Some(b') => Do(b', ns)
    decreases |ms|
  {
    if ms == [] {
      assert ms + ns == ns;
    } else {
      assert (ms + ns)[1..] == ms[1..] + ns;
      if DoOne(b, ms[0]).Some? {
        DoJoin(DoOne(b, ms[0]).value, ms[1..], ns);
      }
    }
  }

  // ---------------------------------------------------------------------------
  // Applying a batch
  // ---------------------------------------------------------------------------

  predicate Listed(wallets: seq<Address>, adjs: seq<Adjustment>) {
    forall a | a in adjs :: a.wallet < |wallets|
  }

  predicate AllListed(wallets: seq<Address>, lists: seq<TokenList>) {
    forall l | l in lists :: Listed(wallets, l.increments) && Listed(wallets, l.decrements)
  }

  lemma {:induction false} IncrementsAreMoves(b: Ledger, wallets: seq<Address>, token: Address, adjs: seq<Adjustment>)
    ensures ApplyIncrements(b, wallets, token, adjs)
         == if Listed(wallets, adjs) then Do(b, MovesOf(wallets, token, adjs, true)) else None
    decreases |adjs|
  {
    if adjs != [] && adjs[0].wallet < |wallets| {
      assert forall a | a in adjs :: a == adjs[0] || a in adjs[1..];
      var b1 := Add(b, wallets[adjs[0].wallet], token, adjs[0].amount);
      if b1.Some? {
        IncrementsAreMoves(b1.value, wallets, token, adjs[1..]);
      }
    }
  }

  lemma {:induction false} DecrementsAreMoves(b: Ledger, wallets: seq<Address>, token: Address, adjs: seq<Adjustment>)
    ensures ApplyDecrements(b, wallets, token, adjs)
         == if Listed(wallets, adjs) then Do(b, MovesOf(wallets, token, adjs, false)) else None
    decreases |adjs|
  {
    if adjs != [] && adjs[0].wallet < |wallets| {
      assert forall a | a in adjs :: a == adjs[0] || a in adjs[1..];
      var b1 := Sub(b, wallets[adjs[0].wallet], token, adjs[0].amount);
      if b1.Some? {
        DecrementsAreMoves(b1.value, wallets, token, adjs[1..]);
      }
    }
  }

  lemma ListIsMoves(b: Ledger, wallets: seq<Address>, feeAccount: Address, l: TokenList)
    ensures ApplyList(b, wallets, feeAccount, l)
         == if Listed(wallets, l.increments) && Listed(wallets, l.decrements)
            then Do(b, ListMoves(wallets, feeAccount, l)) else None
  {
    var inc, dec := MovesOf(wallets, l.token, l.increments, true), MovesOf(wallets, l.token, l.decrements, false);
    var fee := if l.fee != 0 then [Move((feeAccount, l.token), l.fee, true)] else [];
    IncrementsAreMoves(b, wallets, l.token, l.increments);
    DoJoin(b, inc, dec + fee);
    if Listed(wallets, l.increments) && Do(b, inc).Some? {
      var b1 := Do(b, inc).value;
      DecrementsAreMoves(b1, wallets, l.token, l.decrements);
      DoJoin(b1, dec, fee);
      if Do(b1, dec).Some? && l.fee != 0 {
        assert fee[1..] == [];
        var b2 := Do(b1, dec).value;
        assert Do(b2, fee) == match DoOne(b2, fee[0]) case None => None case Some(b3) => Do(b3, []);
      }
    }
  }

  lemma {:induction false} ListsAreMoves(b: Ledger, wallets: seq<Address>, feeAccount: Address, lists: seq<TokenList>)
    ensures ApplyLists(b, wallets, feeAccount, lists)
         == if AllListed(wallets, lists) then Do(b, BatchMoves(wallets, feeAccount, lists)) else None
    decreases |lists|
  {
    if lists != [] {
      ListIsMoves(b, wallets, feeAccount, lists[0]);
      DoJoin(b, ListMoves(wallets, feeAccount, lists[0]), BatchMoves(wallets, feeAccount, lists[1..]));
      assert forall l | l in lists :: l == lists[0] || l in lists[1..];
      if ApplyList(b, wallets, feeAccount, lists[0]).Some? {
        ListsAreMoves(ApplyList(b, wallets, feeAccount, lists[0]).value, wallets, feeAccount, lists[1..]);
      }
    }
  }

  /** Exactly when a batch applies: every wallet that it names is listed, there are no
      more trade lists than wallets, and each credit and debit fits when its turn
      comes. */
  lemma ApplyIff(b: Ledger, feeAccount: Address, batch: Batch)
    ensures Apply(b, feeAccount, batch).Some?
        <==> && AllListed(batch.wallets, batch.lists) && batch.tradeLists <= |batch.wallets|
             && RunningFits(k => At(b, k), BatchMoves(batch.wallets, feeAccount, batch.lists))
  {
    ListsAreMoves(b, batch.wallets, feeAccount, batch.lists);
    DoIff(b, BatchMoves(batch.wallets, feeAccount, batch.lists));
  }

  /** And what it does: every slot moves by the increments and decrements whose wallet
      and token are its own, and the fee account by the fees of each token. */
  lemma ApplySlot(b: Ledger, feeAccount: Address, batch: Batch, k: Slot)
    requires Apply(b, feeAccount, batch).Some?
    ensures var ms := BatchMoves(batch.wallets, feeAccount, batch.lists);
            At(Apply(b, feeAccount, batch).value, k) + DebitsTo(ms, k) == At(b, k) + CreditsTo(ms, k)
  {
    ListsAreMoves(b, batch.wallets, feeAccount, batch.lists);
    DoIff(b, BatchMoves(batch.wallets, feeAccount, batch.lists));
  }

  // ---------------------------------------------------------------------------
  // Checking a batch
  // ---------------------------------------------------------------------------

  /** The conversion keeps the value up to a multiple of 2^256, inside int256. */
  lemma CastIs(a: Uint256)
    ensures InInt256(Cast(a)) && (Cast(a) - a) % U256 == 0
  {
  }

  function SumOf(xs: seq<int>): int {
    if xs == [] then 0 else xs[0] + SumOf(xs[1..])
  }

  predicate InInt256(x: int) {
    -U255 <= x < U255
  }

  /** The amounts as the contract adds them up, with this sign. */
  function Casts(adjs: seq<Adjustment>, sign: int): seq<int> {
    if adjs == [] then [] else [sign * Cast(adjs[0].amount)] + Casts(adjs[1..], sign)
  }

  /** The fee, the increments and the decrements of a list, in the order of the sum. */
  function Summands(l: TokenList): seq<int> {
    [Cast(l.fee)] + (Casts(l.increments, 1) + Casts(l.decrements, -1))
  }

  /** The sum comes to zero and leaves the range of int256 nowhere on the way. */
  ghost predicate Nets(l: TokenList) {
    var xs := Summands(l);
    SumOf(xs) == 0 && forall n | 0 < n <= |xs| :: InInt256(SumOf(xs[..n]))
  }

  /** Every decrement is covered by the balance that its wallet has in the token. */
  ghost predicate AllCovered(b: Ledger, batch: Batch) {
    forall l, a | l in batch.lists && a in l.decrements ::
        a.amount <= At(b, (WalletAt(batch.wallets, a.wallet), l.token))
  }

  /** Adding up, with a revert on overflow. */
  function Running(net: int, xs: seq<int>): Option<int>
    decreases |xs|
  {
    if xs == [] then Some(net) else
    match AddInt(net, xs[0])
    case None => None
    case Some(n) => Running(n, xs[1..])
  }

  lemma {:induction false} SumJoin(xs: seq<int>, ys: seq<int>)
    ensures SumOf(xs + ys) == SumOf(xs) + SumOf(ys)
  {
    if xs == [] {
      assert xs + ys == ys;
    } else {
      assert (xs + ys)[1..] == xs[1..] + ys;
      SumJoin(xs[1..], ys);
    }
  }

  lemma {:induction false} RunningJoin(net: int, xs: seq<int>, ys: seq<int>)
    ensures Running(net, xs + ys) == match Running(net, xs) case None => None case Some(n) => Running(n, ys)
    decreases |xs|
  {
    if xs == [] {
      assert xs + ys == ys;
    } else {
      assert (xs + ys)[1..] == xs[1..] + ys;
      if AddInt(net, xs[0]).Some? {
        RunningJoin(net + xs[0], xs[1..], ys);
      }
    }
  }

  lemma {:induction false} RunningIff(net: int, xs: seq<int>)
    ensures Running(net, xs).Some? <==> forall n | 0 < n <= |xs| :: InInt256(net + SumOf(xs[..n]))
    ensures Running(net, xs).Some? ==> Running(net, xs).value == net + SumOf(xs)
    decreases |xs|
  {
    if xs != [] {
      forall n | 0 < n <= |xs| ensures SumOf(xs[..n]) == xs[0] + SumOf(xs[1..][..n - 1]) {
        assert xs[..n][1..] == xs[1..][..n - 1];
      }
      assert xs[1..][..0] == [] && SumOf(xs[..1]) == xs[0];
      if AddInt(net, xs[0]).Some? {
        RunningIff(net + xs[0], xs[1..]);
        if Running(net, xs).Some? {
          forall n | 0 < n <= |xs| ensures InInt256(net + SumOf(xs[..n])) {
            if n > 1 {
              assert InInt256(net + xs[0] + SumOf(xs[1..][..n - 1]));
            }
          }
        }
        if forall n | 0 < n <= |xs| :: InInt256(net + SumOf(xs[..n])) {
          forall n | 0 < n <= |xs[1..]| ensures InInt256(net + xs[0] + SumOf(xs[1..][..n])) {
            assert InInt256(net + SumOf(xs[..n + 1]));
          }
        }
      }
    }
  }

  lemma {:induction false} IncrementsRun(net: int, adjs: seq<Adjustment>)
    ensures NetIncrements(net, adjs) == Running(net, Casts(adjs, 1))
    decreases |adjs|
  {
    if adjs != [] && AddInt(net, Cast(adjs[0].amount)).Some? {
      IncrementsRun(net + Cast(adjs[0].amount), adjs[1..]);
    }
  }

  ghost predicate CoveredIn(b: Ledger, wallets: seq<Address>, token: Address, adjs: seq<Adjustment>) {
    forall a | a in adjs :: a.amount <= At(b, (WalletAt(wallets, a.wallet), token))
  }

  lemma {:induction false} DecrementsRun(b: Ledger, wallets: seq<Address>, token: Address, n: Netting,
                                         adjs: seq<Adjustment>)
    ensures var r := NetDecrements(b, wallets, token, n, adjs);
            && (r.Some? <==> Listed(wallets, adjs) && Running(n.net, Casts(adjs, -1)).Some?)
            && (r.Some? ==> Some(r.value.net) == Running(n.net, Casts(adjs, -1)))
    decreases |adjs|
  {
    if adjs != [] && AddInt(n.net, -Cast(adjs[0].amount)).Some? && adjs[0].wallet < |wallets| {
      var covered := adjs[0].amount <= BalanceOf(b, wallets[adjs[0].wallet], token);
      DecrementsRun(b, wallets, token, Netting(n.net - Cast(adjs[0].amount), n.covered && covered), adjs[1..]);
      assert forall a | a in adjs :: a == adjs[0] || a in adjs[1..];
    }
  }

  lemma {:induction false} DecrementsCovered(b: Ledger, wallets: seq<Address>, token: Address, n: Netting,
                                             adjs: seq<Adjustment>)
    requires NetDecrements(b, wallets, token, n, adjs).Some?
    ensures NetDecrements(b, wallets, token, n, adjs).value.covered
        <==> n.covered && CoveredIn(b, wallets, token, adjs)
    decreases |adjs|
  {
    if adjs != [] {
      var covered := adjs[0].amount <= BalanceOf(b, wallets[adjs[0].wallet], token);
      DecrementsCovered(b, wallets, token, Netting(n.net - Cast(adjs[0].amount), n.covered && covered), adjs[1..]);
      assert forall a | a in adjs :: a == adjs[0] || a in adjs[1..];
    }
  }

  lemma ListRun(b: Ledger, wallets: seq<Address>, covered: bool, l: TokenList)
    ensures var net := NetIncrements(Cast(l.fee), l.increments);
            && (net.Some? && NetDecrements(b, wallets, l.token, Netting(net.value, covered), l.decrements).Some?
                && NetDecrements(b, wallets, l.token, Netting(net.value, covered), l.decrements).value.net == 0
                <==> Listed(wallets, l.decrements) && Nets(l))
            && (net.Some? && NetDecrements(b, wallets, l.token, Netting(net.value, covered), l.decrements).Some?
                ==> (NetDecrements(b, wallets, l.token, Netting(net.value, covered), l.decrements).value.covered
                     <==> covered && CoveredIn(b, wallets, l.token, l.decrements)))
  {
    var fee, inc, dec := [Cast(l.fee)], Casts(l.increments, 1), Casts(l.decrements, -1);
    IncrementsRun(Cast(l.fee), l.increments);
    RunningJoin(0, fee, inc + dec);
    assert fee[1..] == [] && Running(0, fee) == Some(Cast(l.fee));
    RunningJoin(Cast(l.fee), inc, dec);
    RunningIff(0, Summands(l));
    if Running(Cast(l.fee), inc).Some? {
      var n := Netting(Running(Cast(l.fee), inc).value, covered);
      DecrementsRun(b, wallets, l.token, n, l.decrements);
      if NetDecrements(b, wallets, l.token, n, l.decrements).Some? {
        DecrementsCovered(b, wallets, l.token, n, l.decrements);
      }
    }
  }

  lemma {:induction false} ListsRun(b: Ledger, wallets: seq<Address>, covered: bool, lists: seq<TokenList>)
    ensures var r := NetLists(b, wallets, covered, lists);
            && (r.Some? <==> forall l | l in lists :: Listed(wallets, l.decrements) && Nets(l))
            && (r.Some? ==>
                  (r.value <==> covered && forall l | l in lists :: CoveredIn(b, wallets, l.token, l.decrements)))
    decreases |lists|
  {
    if lists != [] {
      var l := lists[0];
      ListRun(b, wallets, covered, l);
      assert forall k | k in lists :: k == l || k in lists[1..];
      if Listed(wallets, l.decrements) && Nets(l) {
        var net := NetIncrements(Cast(l.fee), l.increments).value;
        var n := NetDecrements(b, wallets, l.token, Netting(net, covered), l.decrements).value;
        ListsRun(b, wallets, n.covered, lists[1..]);
      }
    }
  }

  /** Exactly when the check goes through, and what it says: as many trade lists as
      wallets, listed wallets in all decrements, and lists that net; and then yes if
      and only if every decrement is covered. */
  lemma VerifyIff(b: Ledger, batch: Batch)
    ensures Verify(b, batch).Some?
        <==> |batch.wallets| == batch.tradeLists
             && forall l | l in batch.lists :: Listed(batch.wallets, l.decrements) && Nets(l)
    ensures Verify(b, batch).Some? ==> (Verify(b, batch).value <==> AllCovered(b, batch))
  {
    ListsRun(b, batch.wallets, true, batch.lists);
  }

  // ---------------------------------------------------------------------------
  // A checked batch applies
  // ---------------------------------------------------------------------------

  lemma {:induction false} PrefixSums(ms: seq<Move>, n: nat, k: Slot)
    requires n <= |ms|
    ensures CreditsTo(ms[..n], k) <= CreditsTo(ms, k) && DebitsTo(ms[..n], k) <= DebitsTo(ms, k)
  {
    assert ms == ms[..n] + ms[n..];
    MovesJoin(ms[..n], ms[n..], k);
  }

  /** Moves whose debits are covered together, with room for their credits, fit. */
  lemma CoveredTogether(b: Ledger, ms: seq<Move>)
    requires forall k: Slot :: DebitsTo(ms, k) <= At(b, k) && At(b, k) + CreditsTo(ms, k) < U256
    ensures RunningFits(k => At(b, k), ms)
  {
    forall n | 0 <= n < |ms| ensures FitsAfter(k => At(b, k), ms[..n + 1], ms[n].slot) {
      var k := ms[n].slot;
      PrefixSums(ms, n + 1, k);
      assert DebitsTo(ms, k) <= At(b, k) && At(b, k) + CreditsTo(ms, k) < U256;
    }
  }

  /** No slot is debited twice. */
  ghost predicate DebitsDistinct(ms: seq<Move>) {
    forall i, j | 0 <= i < j < |ms| && !ms[i].credit && !ms[j].credit :: ms[i].slot != ms[j].slot
  }

  lemma {:induction false} OnlyDebit(ms: seq<Move>, k: Slot)
    requires forall i | 0 <= i < |ms| && !ms[i].credit :: ms[i].slot != k
    ensures DebitsTo(ms, k) == 0
  {
    if ms != [] {
      OnlyDebit(ms[1..], k);
    }
  }

  lemma {:induction false} DistinctDebits(b: Ledger, ms: seq<Move>, k: Slot)
    requires DebitsDistinct(ms) && forall m | m in ms && !m.credit :: m.amount <= At(b, m.slot)
    ensures DebitsTo(ms, k) <= At(b, k)
  {
    if ms != [] {
      assert ms[0] in ms && forall m | m in ms[1..] :: m in ms;
      if !ms[0].credit && ms[0].slot == k {
        OnlyDebit(ms[1..], k);
      } else {
        DistinctDebits(b, ms[1..], k);
      }
    }
  }

  lemma {:induction false} MovesCovered(b: Ledger, wallets: seq<Address>, token: Address, adjs: seq<Adjustment>)
    requires CoveredIn(b, wallets, token, adjs)
    ensures forall m | m in MovesOf(wallets, token, adjs, false) :: m.amount <= At(b, m.slot)
  {
    if adjs != [] {
      assert adjs[0] in adjs;
      MovesCovered(b, wallets, token, adjs[1..]);
    }
  }

  lemma {:induction false} AreCredits(wallets: seq<Address>, token: Address, adjs: seq<Adjustment>)
    ensures forall m | m in MovesOf(wallets, token, adjs, true) :: m.credit
  {
    if adjs != [] {
      AreCredits(wallets, token, adjs[1..]);
    }
  }

  lemma {:induction false} BatchCovered(b: Ledger, wallets: seq<Address>, feeAccount: Address, lists: seq<TokenList>)
    requires forall l | l in lists :: CoveredIn(b, wallets, l.token, l.decrements)
    ensures forall m | m in BatchMoves(wallets, feeAccount, lists) && !m.credit :: m.amount <= At(b, m.slot)
  {
    if lists != [] {
      var l := lists[0];
      assert l in lists && forall k | k in lists[1..] :: k in lists;
      AreCredits(wallets, l.token, l.increments);
      MovesCovered(b, wallets, l.token, l.decrements);
      BatchCovered(b, wallets, feeAccount, lists[1..]);
    }
  }

  /** A batch that was found covered, and debits no slot twice, applies to any ledger
      in which no balance that it debits has fallen since, if it names listed wallets
      and there is room for what it credits. */
  lemma CheckedApplies(checkedIn: Ledger, b: Ledger, feeAccount: Address, batch: Batch)
    requires Verify(checkedIn, batch) == Some(true) && AllListed(batch.wallets, batch.lists)
    requires var ms := BatchMoves(batch.wallets, feeAccount, batch.lists);
             && DebitsDistinct(ms) && (forall m | m in ms && !m.credit :: At(checkedIn, m.slot) <= At(b, m.slot))
             && forall k: Slot :: At(b, k) + CreditsTo(ms, k) < U256
    ensures Apply(b, feeAccount, batch).Some?
  {
    var ms := BatchMoves(batch.wallets, feeAccount, batch.lists);
    VerifyIff(checkedIn, batch);
    BatchCovered(checkedIn, batch.wallets, feeAccount, batch.lists);
    forall k: Slot ensures DebitsTo(ms, k) <= At(b, k) {
      DistinctDebits(b, ms, k);
    }
    CoveredTogether(b, ms);
    ApplyIff(b, feeAccount, batch);
  }
}
