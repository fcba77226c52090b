/** The two-key ledger and the two-phase settlement code that Exchange.sol and
    CoinProxy.sol share line for line.  A reverted call is `None`. */
module SolidityLedger {
  import opened Wrappers
  import opened Sums

  const U256: int := 0x1_0000000000000000_0000000000000000_0000000000000000_0000000000000000
  const U255: int := 0x8000000000000000_0000000000000000_0000000000000000_0000000000000000

  type Uint256 = x: int | 0 <= x < U256
  type Address = nat
  type Bytes = seq<nat>
  /** A wallet's balance in one token. */
  type Slot = (Address, Address)
  type Ledger = map<Slot, Uint256>

  /** The token key of the chain's own currency. */
  const NATIVE: Address := 0

  /** keccak256 as a free constructor: injective, and never the zero word that
      marks "no batch".  `OfHashes` is the digest of a list of digests. */
  datatype Hash = Zero | Keccak(preimage: Bytes) | OfHashes(hashes: seq<Hash>)

  /** The batch that a batch hash is waiting for. */
  function Preimage(h: Hash): Option<Bytes> {
    if h.Keccak? then Some(h.preimage) else None
  }

  datatype Adjustment = Adjustment(wallet: nat, amount: Uint256)
  datatype TokenList = TokenList(token: Address, increments: seq<Adjustment>,
                                 decrements: seq<Adjustment>, fee: Uint256)
  datatype Batch = Batch(wallets: seq<Address>, tradeLists: nat, lists: seq<TokenList>)

  function BalanceOf(b: Ledger, wallet: Address, token: Address): Uint256 {
    if (wallet, token) in b then b[(wallet, token)] else 0
  }

  function At(b: Ledger, k: Slot): Uint256 {
    BalanceOf(b, k.0, k.1)
  }

  /** `+=` on a balance; checked arithmetic reverts on overflow. */
  function Add(b: Ledger, wallet: Address, token: Address, amount: Uint256): Option<Ledger> {
    if BalanceOf(b, wallet, token) + amount < U256
    then Some(b[(wallet, token) := BalanceOf(b, wallet, token) + amount]) else None
  }

  /** `-=` on a balance; checked arithmetic reverts on underflow. */
  function Sub(b: Ledger, wallet: Address, token: Address, amount: Uint256): Option<Ledger> {
    if amount <= BalanceOf(b, wallet, token)
    then Some(b[(wallet, token) := BalanceOf(b, wallet, token) - amount]) else None
  }

  ghost function OfToken(token: Address): ((Address, Address), Uint256) -> nat {
    (k: (Address, Address), v: Uint256) => if k.1 == token then v else 0
  }

  /** Everything the ledger owes in one token. */
  ghost function Owed(b: Ledger, token: Address): nat {
    Total(b, OfToken(token))
  }

  lemma OwedAfterStore(b: Ledger, wallet: Address, token: Address, v: Uint256, t: Address)
    ensures Owed(b[(wallet, token) := v], t)
         == Owed(b, t) + (if t == token then v - BalanceOf(b, wallet, token) else 0)
  {
    TotalUpdate(b, OfToken(t), (wallet, token), v);
  }

  lemma BalanceAtMostOwed(b: Ledger, wallet: Address, token: Address)
    ensures BalanceOf(b, wallet, token) <= Owed(b, token)
  {
    if (wallet, token) in b {
      EntryAtMostTotal(b, OfToken(token), (wallet, token));
    }
  }

  // ---------------------------------------------------------------------------
  // prepareSettlementBatch: netting and cover
  // ---------------------------------------------------------------------------

  /** The unchecked conversion int256(uint256). */
  function Cast(a: Uint256): int {
    if a < U255 then a else a - U256
  }

  /** Checked int256 addition. */
  function AddInt(x: int, y: int): Option<int> {
    if -U255 <= x + y < U255 then Some(x + y) else None
  }

  function NetIncrements(net: int, adjs: seq<Adjustment>): Option<int>
    decreases |adjs|
  {
    if adjs == [] then Some(net) else
    match AddInt(net, Cast(adjs[0].amount))
    case None => None
    case Some(n) => NetIncrements(n, adjs[1..])
  }

  datatype Netting = Netting(net: int, covered: bool)

  /** The decrement loop: the running net amount, and whether every decrement so
      far is covered by the balance it names. */
  function NetDecrements(b: Ledger, wallets: seq<Address>, token: Address, n: Netting,
                         adjs: seq<Adjustment>): Option<Netting>
    decreases |adjs|
  {
    if adjs == [] then Some(n) else
    match AddInt(n.net, -Cast(adjs[0].amount))
    case None => None
    case Some(net) =>
      if adjs[0].wallet >= |wallets| then None else
      var covered := adjs[0].amount <= BalanceOf(b, wallets[adjs[0].wallet], token);
      NetDecrements(b, wallets, token, Netting(net, n.covered && covered), adjs[1..])
  }

  function NetLists(b: Ledger, wallets: seq<Address>, covered: bool, lists: seq<TokenList>): Option<bool>
    decreases |lists|
  {
    if lists == [] then Some(covered) else
    var l := lists[0];
    match NetIncrements(Cast(l.fee), l.increments)
    case None => None
    case Some(net) =>
      match NetDecrements(b, wallets, l.token, Netting(net, covered), l.decrements)
      case None => None
      case Some(n) => if n.net != 0 then None else NetLists(b, wallets, n.covered, lists[1..])
  }

  /** The whole check: reverts, or says whether every decrement is covered. */
  function Verify(b: Ledger, batch: Batch): Option<bool> {
    if |batch.wallets| != batch.tradeLists then None else NetLists(b, batch.wallets, true, batch.lists)
  }

  method VerifyBatch(balances: Ledger, batch: Batch) returns (r: Option<bool>)
    ensures r == Verify(balances, batch)
  {
    if |batch.wallets| != batch.tradeLists {
      return None;
    }
    var succeeded := true;
    var i := 0;
    while i < |batch.lists|
      invariant 0 <= i <= |batch.lists|
      invariant Verify(balances, batch) == NetLists(balances, batch.wallets, succeeded, batch.lists[i..])
    {
      var list := batch.lists[i];
      assert batch.lists[i..][1..] == batch.lists[i + 1..];
      var netAmount := Cast(list.fee);
      var j := 0;
      while j < |list.increments|
        invariant 0 <= j <= |list.increments|
        invariant NetIncrements(Cast(list.fee), list.increments) == NetIncrements(netAmount, list.increments[j..])
      {
        assert list.increments[j..][1..] == list.increments[j + 1..];
        var n := AddInt(netAmount, Cast(list.increments[j].amount));
        if n.None? {
          return None;
        }
        netAmount := n.value;
        j := j + 1;
      }
      ghost var start := Netting(netAmount, succeeded);
      j := 0;
      while j < |list.decrements|
        invariant 0 <= j <= |list.decrements|
        invariant NetDecrements(balances, batch.wallets, list.token, start, list.decrements)
               == NetDecrements(balances, batch.wallets, list.token, Netting(netAmount, succeeded),
                   list.decrements[j..])
      {
        assert list.decrements[j..][1..] == list.decrements[j + 1..];
        var adjustment := list.decrements[j];
        var n := AddInt(netAmount, -Cast(adjustment.amount));
        if n.None? || adjustment.wallet >= |batch.wallets| {
          return None;
        }
        netAmount := n.value;
        if adjustment.amount > BalanceOf(balances, batch.wallets[adjustment.wallet], list.token) {
          succeeded := false;
        }
        j := j + 1;
      }
      if netAmount != 0 {
        return None;
      }
      i := i + 1;
    }
    r := Some(succeeded);
  }

  // ---------------------------------------------------------------------------
  // submitSettlementBatch: applying a batch
  // ---------------------------------------------------------------------------

  function ApplyIncrements(b: Ledger, wallets: seq<Address>, token: Address, adjs: seq<Adjustment>): Option<Ledger>
    decreases |adjs|
  {
    if adjs == [] then Some(b) else
    if adjs[0].wallet >= |wallets| then None else
    match Add(b, wallets[adjs[0].wallet], token, adjs[0].amount)
    case None => None
    case Some(b') => ApplyIncrements(b', wallets, token, adjs[1..])
  }

  function ApplyDecrements(b: Ledger, wallets: seq<Address>, token: Address, adjs: seq<Adjustment>): Option<Ledger>
    decreases |adjs|
  {
    if adjs == [] then Some(b) else
    if adjs[0].wallet >= |wallets| then None else
    match Sub(b, wallets[adjs[0].wallet], token, adjs[0].amount)
    case None => None
    case Some(b') => ApplyDecrements(b', wallets, token, adjs[1..])
  }

  function ApplyList(b: Ledger, wallets: seq<Address>, feeAccount: Address, l: TokenList): Option<Ledger> {
    match ApplyIncrements(b, wallets, l.token, l.increments)
    case None => None
    case Some(b1) =>
      match ApplyDecrements(b1, wallets, l.token, l.decrements)
      case None => None
      case Some(b2) => if l.fee != 0 then Add(b2, feeAccount, l.token, l.fee) else Some(b2)
  }

  function ApplyLists(b: Ledger, wallets: seq<Address>, feeAccount: Address, lists: seq<TokenList>): Option<Ledger>
    decreases |lists|
  {
    if lists == [] then Some(b) else
    match ApplyList(b, wallets, feeAccount, lists[0])
    case None => None
    case Some(b') => ApplyLists(b', wallets, feeAccount, lists[1..])
  }

  /** Every trade list has a wallet to be reported against. */
  function Apply(b: Ledger, feeAccount: Address, batch: Batch): Option<Ledger> {
    match ApplyLists(b, batch.wallets, feeAccount, batch.lists)
    case None => None
    case Some(b') => if batch.tradeLists <= |batch.wallets| then Some(b') else None
  }

  /** One round of the outer loop: credits, then debits, then the fee. */
  method ApplyTokenList(balances: Ledger, wallets: seq<Address>, feeAccount: Address, list: TokenList)
    returns (r: Option<Ledger>)
    ensures r == ApplyList(balances, wallets, feeAccount, list)
  {
    var b: Ledger := balances;
    var j := 0;
    while j < |list.increments|
      invariant 0 <= j <= |list.increments|
      invariant ApplyIncrements(balances, wallets, list.token, list.increments)
             == ApplyIncrements(b, wallets, list.token, list.increments[j..])
    {
      assert list.increments[j..][1..] == list.increments[j + 1..];
      if list.increments[j].wallet >= |wallets| {
        return None;
      }
      var b' := Add(b, wallets[list.increments[j].wallet], list.token, list.increments[j].amount);
      if b'.None? {
        return None;
      }
      b := b'.value;
      j := j + 1;
    }
    ghost var credited: Ledger := b;
    j := 0;
    while j < |list.decrements|
      invariant 0 <= j <= |list.decrements|
      invariant ApplyDecrements(credited, wallets, list.token, list.decrements)
             == ApplyDecrements(b, wallets, list.token, list.decrements[j..])
    {
      assert list.decrements[j..][1..] == list.decrements[j + 1..];
      if list.decrements[j].wallet >= |wallets| {
        return None;
      }
      var b' := Sub(b, wallets[list.decrements[j].wallet], list.token, list.decrements[j].amount);
      if b'.None? {
        return None;
      }
      b := b'.value;
      j := j + 1;
    }
    if list.fee != 0 {
      r := Add(b, feeAccount, list.token, list.fee);
    } else {
      r := Some(b);
    }
  }

  method ApplyBatch(balances: Ledger, feeAccount: Address, batch: Batch) returns (r: Option<Ledger>)
    ensures r == Apply(balances, feeAccount, batch)
  {
    var b: Ledger := balances;
    var i := 0;
    while i < |batch.lists|
      invariant 0 <= i <= |batch.lists|
      invariant ApplyLists(balances, batch.wallets, feeAccount, batch.lists)
             == ApplyLists(b, batch.wallets, feeAccount, batch.lists[i..])
    {
      assert batch.lists[i..][1..] == batch.lists[i + 1..];
      var b' := ApplyTokenList(b, batch.wallets, feeAccount, batch.lists[i]);
      if b'.None? {
        return None;
      }
      b := b'.value;
      i := i + 1;
    }
    if batch.tradeLists > |batch.wallets| {
      return None;
    }
    r := Some(b);
  }

  // ---------------------------------------------------------------------------
  // What a settlement does to the money owed
  // ---------------------------------------------------------------------------

  function Sum(adjs: seq<Adjustment>): nat {
    if adjs == [] then 0 else adjs[0].amount + Sum(adjs[1..])
  }

  /** Does the int256 cast turn this amount negative? */
  function Big(a: Uint256): nat {
    if a < U255 then 0 else 1
  }

  function BigCount(adjs: seq<Adjustment>): nat {
    if adjs == [] then 0 else Big(adjs[0].amount) + BigCount(adjs[1..])
  }

  /** How many more credits than debits of a list are too large for int256. */
  function Imbalance(l: TokenList): int {
    Big(l.fee) + BigCount(l.increments) - BigCount(l.decrements)
  }

  /** The true difference between what a list credits and what it debits. */
  function Surplus(l: TokenList): int {
    l.fee + Sum(l.increments) - Sum(l.decrements)
  }

  function TokenImbalance(lists: seq<TokenList>, token: Address): int {
    if lists == [] then 0 else
    (if lists[0].token == token then Imbalance(lists[0]) else 0) + TokenImbalance(lists[1..], token)
  }

  /** Each token list nets to zero up to the amounts that the int256 cast wraps. */
  ghost predicate NetsToZero(lists: seq<TokenList>) {
    forall l | l in lists :: Surplus(l) == U256 * Imbalance(l)
  }

  /** A stored batch hash is the hash of a batch whose token lists net to zero. */
  ghost predicate PendingNets(decode: Bytes -> Option<Batch>, h: Hash) {
    h != Zero ==>
      && h.Keccak?
      && decode(h.preimage).Some?
      && NetsToZero(decode(h.preimage).value.lists)
  }

  lemma {:induction false} NetIncrementsValue(net: int, adjs: seq<Adjustment>)
    requires NetIncrements(net, adjs).Some?
    ensures NetIncrements(net, adjs).value == net + Sum(adjs) - U256 * BigCount(adjs)
    decreases |adjs|
  {
    if adjs != [] {
      NetIncrementsValue(net + Cast(adjs[0].amount), adjs[1..]);
    }
  }

  lemma {:induction false} NetDecrementsValue(b: Ledger, wallets: seq<Address>, token: Address, n: Netting,
                                              adjs: seq<Adjustment>)
    requires NetDecrements(b, wallets, token, n, adjs).Some?
    ensures NetDecrements(b, wallets, token, n, adjs).value.net == n.net - Sum(adjs) + U256 * BigCount(adjs)
    decreases |adjs|
  {
    if adjs != [] {
      var covered := adjs[0].amount <= BalanceOf(b, wallets[adjs[0].wallet], token);
      NetDecrementsValue(b, wallets, token, Netting(n.net - Cast(adjs[0].amount), n.covered && covered), adjs[1..]);
    }
  }

  /** A batch that passes the netting check nets to zero, token list by token list. */
  lemma {:induction false} VerifiedNets(b: Ledger, wallets: seq<Address>, covered: bool, lists: seq<TokenList>)
    requires NetLists(b, wallets, covered, lists).Some?
    ensures NetsToZero(lists)
    decreases |lists|
  {
    if lists != [] {
      var l := lists[0];
      NetIncrementsValue(Cast(l.fee), l.increments);
      var net := NetIncrements(Cast(l.fee), l.increments).value;
      NetDecrementsValue(b, wallets, l.token, Netting(net, covered), l.decrements);
      var n := NetDecrements(b, wallets, l.token, Netting(net, covered), l.decrements).value;
      VerifiedNets(b, wallets, n.covered, lists[1..]);
      assert Surplus(l) == U256 * Imbalance(l);
      assert forall k | k in lists :: k == l || k in lists[1..];
    }
  }

  lemma {:induction false} IncrementsOwed(b: Ledger, wallets: seq<Address>, token: Address, adjs: seq<Adjustment>,
                                          t: Address)
    requires ApplyIncrements(b, wallets, token, adjs).Some?
    ensures Owed(ApplyIncrements(b, wallets, token, adjs).value, t)
        == Owed(b, t) + (if t == token then Sum(adjs) else 0)
    decreases |adjs|
  {
    if adjs != [] {
      var wallet := wallets[adjs[0].wallet];
      OwedAfterStore(b, wallet, token, BalanceOf(b, wallet, token) + adjs[0].amount, t);
      IncrementsOwed(Add(b, wallet, token, adjs[0].amount).value, wallets, token, adjs[1..], t);
    }
  }

  lemma {:induction false} DecrementsOwed(b: Ledger, wallets: seq<Address>, token: Address, adjs: seq<Adjustment>,
                                          t: Address)
    requires ApplyDecrements(b, wallets, token, adjs).Some?
    ensures Owed(ApplyDecrements(b, wallets, token, adjs).value, t)
        == Owed(b, t) - (if t == token then Sum(adjs) else 0)
    decreases |adjs|
  {
    if adjs != [] {
      var wallet := wallets[adjs[0].wallet];
      OwedAfterStore(b, wallet, token, BalanceOf(b, wallet, token) - adjs[0].amount, t);
      DecrementsOwed(Sub(b, wallet, token, adjs[0].amount).value, wallets, token, adjs[1..], t);
    }
  }

  lemma ListOwed(b: Ledger, wallets: seq<Address>, feeAccount: Address, l: TokenList, t: Address)
    requires ApplyList(b, wallets, feeAccount, l).Some?
    ensures Owed(ApplyList(b, wallets, feeAccount, l).value, t) == Owed(b, t) + (if t == l.token then Surplus(l) else 0)
  {
    IncrementsOwed(b, wallets, l.token, l.increments, t);
    var b1 := ApplyIncrements(b, wallets, l.token, l.increments).value;
    DecrementsOwed(b1, wallets, l.token, l.decrements, t);
    var b2 := ApplyDecrements(b1, wallets, l.token, l.decrements).value;
    if l.fee != 0 {
      OwedAfterStore(b2, feeAccount, l.token, BalanceOf(b2, feeAccount, l.token) + l.fee, t);
    }
  }

  /** Applying lists that net to zero moves the money owed in a token by exactly
      2^256 for each unit of cast imbalance in that token's lists. */
  lemma {:induction false} ListsOwed(b: Ledger, wallets: seq<Address>, feeAccount: Address, lists: seq<TokenList>,
                                     t: Address)
    requires NetsToZero(lists) && ApplyLists(b, wallets, feeAccount, lists).Some?
    ensures Owed(ApplyLists(b, wallets, feeAccount, lists).value, t) == Owed(b, t) + U256 * TokenImbalance(lists, t)
    decreases |lists|
  {
    if lists != [] {
      ListOwed(b, wallets, feeAccount, lists[0], t);
      ListsOwed(ApplyList(b, wallets, feeAccount, lists[0]).value, wallets, feeAccount, lists[1..], t);
    }
  }

  /** A settlement that passed the netting check, whenever it is applied, leaves
      the money owed in a token unchanged if and only if the credits and debits
      of that token beyond int256 are equally many. */
  lemma SettlementConservesIff(checkedIn: Ledger, b: Ledger, feeAccount: Address, batch: Batch, t: Address)
    requires Verify(checkedIn, batch).Some? && Apply(b, feeAccount, batch).Some?
    ensures Owed(Apply(b, feeAccount, batch).value, t) == Owed(b, t) <==> TokenImbalance(batch.lists, t) == 0
  {
    VerifiedNets(checkedIn, batch.wallets, true, batch.lists);
    ListsOwed(b, batch.wallets, feeAccount, batch.lists, t);
  }

  /** All amounts of a list are in the range where int256(uint256) is exact. */
  predicate FitsInt256(l: TokenList) {
    l.fee < U255 && (forall a | a in l.increments :: a.amount < U255)
        && (forall a | a in l.decrements :: a.amount < U255)
  }

  lemma {:induction false} SmallNotBig(adjs: seq<Adjustment>)
    requires forall a | a in adjs :: a.amount < U255
    ensures BigCount(adjs) == 0
  {
    if adjs != [] {
      SmallNotBig(adjs[1..]);
    }
  }

  lemma {:induction false} SmallBatchBalanced(lists: seq<TokenList>, t: Address)
    requires forall l | l in lists :: FitsInt256(l)
    ensures TokenImbalance(lists, t) == 0
  {
    if lists != [] {
      assert FitsInt256(lists[0]);
      SmallNotBig(lists[0].increments);
      SmallNotBig(lists[0].decrements);
      SmallBatchBalanced(lists[1..], t);
    }
  }

  /** Outside that range the check lets a batch through that creates money: one
      credit of 2^256 - 5 and a fee of 5, and nothing debited. */
  lemma CastMintsWitness()
    ensures var batch := Batch([1], 1, [TokenList(7, [Adjustment(0, U256 - 5)], [], 5)]);
            && Verify(map[], batch) == Some(true)
            && Apply(map[], 2, batch) == Some(map[(1, 7) := U256 - 5, (2, 7) := 5])
            && TokenImbalance(batch.lists, 7) == 1
  {
    var empty: Ledger := map[];
    var l := TokenList(7, [Adjustment(0, U256 - 5)], [], 5);
    assert l.increments[1..] == [] && [l][1..] == [];
    assert NetIncrements(5, l.increments) == NetIncrements(0, []) == Some(0);
    assert NetDecrements(empty, [1], 7, Netting(0, true), []) == Some(Netting(0, true));
    assert NetLists(empty, [1], true, [l]) == NetLists(empty, [1], true, []) == Some(true);
    var credited: Ledger := map[(1, 7) := U256 - 5];
    assert ApplyIncrements(empty, [1], 7, l.increments) == ApplyIncrements(credited, [1], 7, []) == Some(credited);
    assert ApplyList(empty, [1], 2, l) == Some(credited[(2, 7) := 5]);
    assert ApplyLists(empty, [1], 2, [l]) == ApplyLists(credited[(2, 7) := 5], [1], 2, []);
  }
}
