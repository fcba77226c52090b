/** Small histories of one exchange, from its setup on: where money is lost, made,
    or stuck.  Every state here is reached from the ledger without accounts by
    transactions that go through. */
module ArchWitness {
  import opened Machine
  import opened Wrappers
  import opened ArchTypes
  import opened ArchCodec
  import opened ArchLedger
  import opened ArchFrames
  import opened ArchInvariants
  import opened ArchMoney
  import opened ArchGrowth

  // ---------------------------------------------------------------------------
  // One exchange
  // ---------------------------------------------------------------------------

  /** Foreign code at its plainest, with any hash: whatever is long enough is an
      address of every network, and no token is a rune. */
  function Plain(sha: Bytes -> Hash): Env {
    Env(sha, s => |s| >= 4 && 0 !in s, (_, _) => true, (a, _) => a, _ => None, _ => Some(FundingTx([], 0)), _ => true,
        k => k, _ => 0, _ => [], _ => [])
  }

  lemma PlainAddresses(sha: Bytes -> Hash)
    ensures Addresses(Plain(sha))
  {
  }

  function KeyOf(b: u8): Key {
    seq(32, _ => b)
  }

  /** The program account, the withdraw account, and two token accounts. */
  const P: Key := KeyOf(1)
  const W: Key := KeyOf(2)
  const K: Key := KeyOf(3)
  const F: Key := KeyOf(4)

  lemma KeysDiffer()
    ensures P != W && P != K && P != F && W != K && W != F && K != F
  {
    assert P[0] == 1 && W[0] == 2 && K[0] == 3 && F[0] == 4;
  }

  /** The fee address and a customer's address. */
  const FEE: Bytes := [1, 1, 1, 1]
  const CUSTOMER: Bytes := [2, 2, 2, 2]

  const FEE_WALLET: AddressIndex := AddressIndex(0, FEE)
  const WALLET: AddressIndex := AddressIndex(1, CUSTOMER)

  lemma Texts()
    ensures UpToNul(FEE) == FEE && UpToNul(CUSTOMER) == CUSTOMER && UpToNul([7]) == [7]
  {
    UpToNulWhole(FEE);
    UpToNulWhole(CUSTOMER);
    UpToNulWhole([7]);
  }

  const STATE: ProgramState := NewProgram(W, FEE, FEE, Bitcoin)

  /** The slots of an account with a fee wallet, and a customer's wallet behind it. */
  function Coins(x: u64, y: u64): TokenState {
    TokenState(P, [7], 2, [Slot(FEE, x), Slot(CUSTOMER, y)] + NoSlots(99), 10240)
  }

  function OnlyFees(z: u64): TokenState {
    TokenState(P, [7], 1, [Slot(FEE, z)] + NoSlots(100), 10240)
  }

  lemma CoinsSet(x: u64, y: u64, v: u64)
    ensures |Coins(x, y).slots| == 101 && Coins(x, y).slots[0] == Slot(FEE, x)
        && Coins(x, y).slots[1] == Slot(CUSTOMER, y)
    ensures SetAmount(Coins(x, y), 0, v) == Coins(v, y) && SetAmount(Coins(x, y), 1, v) == Coins(x, v)
  {
    assert SetAmount(Coins(x, y), 0, v).slots == Coins(v, y).slots;
    assert SetAmount(Coins(x, y), 1, v).slots == Coins(x, v).slots;
  }

  lemma CoinsIndexes(x: u64, y: u64)
    ensures ValidatedIndex(Coins(x, y), FEE_WALLET) == Ok(0) && ValidatedIndex(Coins(x, y), WALLET) == Ok(1)
  {
    Texts();
    CoinsSet(x, y, 0);
    assert FEE[0..] == FEE && CUSTOMER[0..] == CUSTOMER;
  }

  lemma NothingInNoSlots(n: nat)
    ensures SlotSum(NoSlots(n)) == 0
  {
    if n > 0 {
      assert NoSlots(n)[1..] == NoSlots(n - 1);
      NothingInNoSlots(n - 1);
    }
  }

  lemma CoinsMoney(x: u64, y: u64)
    ensures Money(Coins(x, y)) == x + y
  {
    NothingInNoSlots(99);
    SlotSumAppend([Slot(FEE, x), Slot(CUSTOMER, y)], NoSlots(99));
    assert [Slot(FEE, x), Slot(CUSTOMER, y)][1..] == [Slot(CUSTOMER, y)] && [Slot(CUSTOMER, y)][1..] == [];
    assert SlotSum([Slot(CUSTOMER, y)]) == y + SlotSum([]);
  }

  /** The exchange with one token: its program state, its withdrawal hash, and what
      the two wallets hold. */
  function Exchange(p: ProgramState, hash: Hash, x: u64, y: u64): World {
    map[P := Program(p), W := Withdraw(P, hash), K := Token(Coins(x, y))]
  }

  lemma ExchangeAt(p: ProgramState, hash: Hash, x: u64, y: u64)
    ensures var w := Exchange(p, hash, x, y);
            At(w, P) == Program(p) && At(w, W) == Withdraw(P, hash) && At(w, K) == Token(Coins(x, y))
  {
    KeysDiffer();
  }

  lemma ExchangeStores(p: ProgramState, hash: Hash, x: u64, y: u64, p': ProgramState, hash': Hash, x': u64, y': u64)
    ensures var w := Exchange(p, hash, x, y);
            && w[P := Program(p')] == Exchange(p', hash, x, y)
            && w[W := Withdraw(P, hash')] == Exchange(p, hash', x, y)
            && w[K := Token(Coins(x', y'))] == Exchange(p, hash, x', y')
  {
    KeysDiffer();
  }

  lemma ExchangeMoney(p: ProgramState, hash: Hash, x: u64, y: u64)
    ensures TotalMoney(Exchange(p, hash, x, y)) == x + y
  {
    KeysDiffer();
    var w0: World := map[];
    var w1, w2 := w0[P := Program(p)], w0[P := Program(p)][W := Withdraw(P, hash)];
    StoreMoney(w0, P, Program(p));
    StoreMoney(w1, W, Withdraw(P, hash));
    StoreMoney(w2, K, Token(Coins(x, y)));
    CoinsMoney(x, y);
    assert w2[K := Token(Coins(x, y))] == Exchange(p, hash, x, y);
  }

  // ---------------------------------------------------------------------------
  // Transactions
  // ---------------------------------------------------------------------------

  function TxOf(metas: seq<Meta>, i: Instruction): Tx {
    Tx(metas, P, Write(i))
  }

  /** An instruction, encoded, decoded and performed. */
  lemma Goes(env: Env, w: World, metas: seq<Meta>, i: Instruction, w': World)
    requires Fits(i) && Perform(env, w, metas, P, i, WriteParams(i)) == Ok(w') && Storable(w')
    ensures Succeeds(env, w, TxOf(metas, i)) && Step(env, w, TxOf(metas, i)) == w'
    ensures InstructionOf(TxOf(metas, i)) == Some(i)
  {
    InstructionRoundTrip(i, []);
    assert Write(i) + [] == Write(i) && Write(i)[1..] == WriteParams(i);
  }

  lemma Fails(env: Env, w: World, metas: seq<Meta>, i: Instruction)
    requires Fits(i) && Perform(env, w, metas, P, i, WriteParams(i)).Err?
    ensures !Succeeds(env, w, TxOf(metas, i)) && Step(env, w, TxOf(metas, i)) == w
  {
    InstructionRoundTrip(i, []);
    assert Write(i) + [] == Write(i) && Write(i)[1..] == WriteParams(i);
  }

  lemma RunOn(env: Env, w: World, txs: seq<Tx>, tx: Tx)
    ensures Run(env, w, txs + [tx]) == Step(env, Run(env, w, txs), tx)
  {
    var all := txs + [tx];
    assert all[..|all| - 1] == txs && all[|all| - 1] == tx;
  }

  // ---------------------------------------------------------------------------
  // Setting it up
  // ---------------------------------------------------------------------------

  const SET_UP_PROGRAM: Tx := TxOf([Meta(P, true, true), Meta(W, false, true)], InitProgramState(FEE, FEE, Bitcoin))
  const WITH_TOKEN: seq<Meta> := [Meta(P, true, false), Meta(K, false, true)]
  const SET_UP_TOKEN: Tx := TxOf(WITH_TOKEN, InitTokenState([7]))
  const SET_UP_WALLET: Tx := TxOf(WITH_TOKEN, InitWalletBalances([TokenSetup(1, [CUSTOMER])]))

  function Credit2(x: u64, y: u64): Tx {
    TxOf(WITH_TOKEN, BatchDeposit([TokenDeposits(1, [Adjustment(FEE_WALLET, x), Adjustment(WALLET, y)])]))
  }

  /** Four transactions after which the two wallets hold `x` and `y`. */
  function SetUp(x: u64, y: u64): seq<Tx> {
    [SET_UP_PROGRAM, SET_UP_TOKEN, SET_UP_WALLET, Credit2(x, y)]
  }

  const NO_TOKEN: World := map[P := Program(STATE), W := Withdraw(P, EMPTY_HASH)]
  const NO_CUSTOMER: World := map[P := Program(STATE), W := Withdraw(P, EMPTY_HASH), K := Token(OnlyFees(0))]

  lemma ProgramSetUp(env: Env, sha: Bytes -> Hash)
    requires env == Plain(sha)
    ensures Step(env, map[], SET_UP_PROGRAM) == NO_TOKEN
  {
    KeysDiffer();
    var metas := [Meta(P, true, true), Meta(W, false, true)];
    var w1: World := map[P := Program(STATE)];
    assert w1[W := Withdraw(P, EMPTY_HASH)] == NO_TOKEN;
    Goes(env, map[], metas, InitProgramState(FEE, FEE, Bitcoin), NO_TOKEN);
  }

  lemma FirstSlot(t: TokenState)
    requires t == TokenState(P, [7], 1, NoSlots(SlotsIn(10240)), 10240)
    ensures SetAddress(t, 0, FEE) == Ok(OnlyFees(0))
  {
    assert SlotsIn(10240) == 101;
    assert NoSlots(101)[0 := Slot(FEE, 0)] == [Slot(FEE, 0)] + NoSlots(100);
  }

  lemma TokenSetUp(env: Env, sha: Bytes -> Hash)
    requires env == Plain(sha)
    ensures Step(env, NO_TOKEN, SET_UP_TOKEN) == NO_CUSTOMER
  {
    KeysDiffer();
    Texts();
    FirstSlot(TokenState(P, [7], 1, NoSlots(SlotsIn(10240)), 10240));
    assert NO_TOKEN[K := Token(OnlyFees(0))] == NO_CUSTOMER;
    Goes(env, NO_TOKEN, WITH_TOKEN, InitTokenState([7]), NO_CUSTOMER);
  }

  lemma SecondSlot(env: Env, sha: Bytes -> Hash)
    requires env == Plain(sha)
    ensures AddWallets(env, OnlyFees(0), 10240, [CUSTOMER], Bitcoin) == Ok(Coins(0, 0))
  {
    var t := OnlyFees(0);
    assert [CUSTOMER][1..] == [];
    assert SetAddresses(env, t, 1, [CUSTOMER], Bitcoin)
        == SetAddresses(env, SetAddress(t, 1, CUSTOMER).value, 2, [], Bitcoin);
    assert SetAddress(t, 1, CUSTOMER).value.slots == Coins(0, 0).slots;
  }

  lemma WalletSetUp(env: Env, sha: Bytes -> Hash)
    requires env == Plain(sha)
    ensures Step(env, NO_CUSTOMER, SET_UP_WALLET) == Exchange(STATE, EMPTY_HASH, 0, 0)
  {
    KeysDiffer();
    SecondSlot(env, sha);
    var setups := [TokenSetup(1, [CUSTOMER])];
    assert setups[1..] == [] && NO_CUSTOMER[K := Token(Coins(0, 0))] == Exchange(STATE, EMPTY_HASH, 0, 0);
    assert SetUpTokens(env, NO_CUSTOMER, NO_CUSTOMER, WITH_TOKEN, setups, Bitcoin)
        == SetUpTokens(env, NO_CUSTOMER, Exchange(STATE, EMPTY_HASH, 0, 0), WITH_TOKEN, [], Bitcoin);
    assert forall x | x in setups :: |x.wallets| < U16 && forall a | a in x.wallets :: |a| < U16;
    Goes(env, NO_CUSTOMER, WITH_TOKEN, InitWalletBalances(setups), Exchange(STATE, EMPTY_HASH, 0, 0));
  }

  lemma NoWrap(a: u64, b: u64)
    requires a + b < U64
    ensures WrapAdd(a, b) == a + b
  {
  }

  lemma FeesCredited(x: u64, y: u64, v: u64, x': u64)
    requires x + v == x'
    ensures Credit(Coins(x, y), 0, v) == Ok(Coins(x', y))
  {
    CoinsSet(x, y, x');
    NoWrap(x, v);
  }

  lemma WalletCredited(x: u64, y: u64, v: u64, y': u64)
    requires y + v == y'
    ensures Credit(Coins(x, y), 1, v) == Ok(Coins(x, y'))
  {
    CoinsSet(x, y, y');
    NoWrap(y, v);
  }

  lemma FeesDebited(x: u64, y: u64, v: u64)
    ensures Debit(Coins(x, y), 0, v) == if v <= x then Ok(Coins(x - v, y)) else Err(Custom(ERROR_INSUFFICIENT_BALANCE))
  {
    CoinsSet(x, y, if v <= x then x - v else 0);
  }

  lemma WalletDebited(x: u64, y: u64, v: u64)
    ensures Debit(Coins(x, y), 1, v) == if v <= y then Ok(Coins(x, y - v)) else Err(Custom(ERROR_INSUFFICIENT_BALANCE))
  {
    CoinsSet(x, y, if v <= y then y - v else 0);
  }

  lemma OneAdjusted(t: TokenState, a: Adjustment, increment: bool, t': TokenState, rest: seq<Adjustment>)
    requires AdjustOne(t, a, increment) == Ok(t')
    ensures Adjust(t, [a] + rest, increment) == Adjust(t', rest, increment)
  {
    assert ([a] + rest)[1..] == rest;
  }

  /** Two credits in a row. */
  lemma TwoCredited(t: TokenState, a: Adjustment, b: Adjustment, i: nat, j: nat, t1: TokenState, t2: TokenState)
    requires ValidatedIndex(t, a.address) == Ok(i) && Credit(t, i, a.amount) == Ok(t1)
    requires ValidatedIndex(t1, b.address) == Ok(j) && Credit(t1, j, b.amount) == Ok(t2)
    ensures Adjust(t, [a, b], true) == Ok(t2)
  {
    OneAdjusted(t, a, true, t1, [b]);
    OneAdjusted(t1, b, true, t2, []);
    assert [a] + [b] == [a, b] && [b] + [] == [b];
  }

  /** Deposits into one account. */
  lemma DepositGoes(env: Env, w: World, metas: seq<Meta>, d: TokenDeposits, t: TokenState, t': TokenState)
    requires AdjustmentsFit(d.deposits) && ExpectProgram(w, metas, false, None).Ok?
    requires ExpectToken(w, metas, d.account, true) == Ok(t) && Adjust(t, d.deposits, true) == Ok(t')
    requires Storable(w[metas[d.account].key := Token(t')])
    ensures Step(env, w, TxOf(metas, BatchDeposit([d]))) == w[metas[d.account].key := Token(t')]
  {
    assert [d][1..] == [];
    assert DepositAll(w, metas, [d]) == DepositAll(w[metas[d.account].key := Token(t')], metas, []);
    Goes(env, w, metas, BatchDeposit([d]), w[metas[d.account].key := Token(t')]);
  }

  lemma TwoDepositsGo(env: Env, w: World, metas: seq<Meta>, account: u8, a: Adjustment, b: Adjustment, i: nat, j: nat,
                      t: TokenState, t1: TokenState, t2: TokenState)
    requires AddressFits(a.address) && AddressFits(b.address) && ExpectProgram(w, metas, false, None).Ok?
    requires ExpectToken(w, metas, account, true) == Ok(t)
    requires ValidatedIndex(t, a.address) == Ok(i) && Credit(t, i, a.amount) == Ok(t1)
    requires ValidatedIndex(t1, b.address) == Ok(j) && Credit(t1, j, b.amount) == Ok(t2)
    requires Storable(w[metas[account].key := Token(t2)])
    ensures Step(env, w, TxOf(metas, BatchDeposit([TokenDeposits(account, [a, b])])))
        == w[metas[account].key := Token(t2)]
  {
    TwoCredited(t, a, b, i, j, t1, t2);
    DepositGoes(env, w, metas, TokenDeposits(account, [a, b]), t, t2);
  }

  lemma ExchangeStorable(p: ProgramState, hash: Hash, x: u64, y: u64)
    requires p.runeReceiver.None?
    ensures Storable(Exchange(p, hash, x, y))
  {
  }

  lemma TokenListed(x: u64, y: u64)
    ensures var w := Exchange(STATE, EMPTY_HASH, x, y);
            ExpectProgram(w, WITH_TOKEN, false, None).Ok? && ExpectToken(w, WITH_TOKEN, 1, true) == Ok(Coins(x, y))
  {
    ExchangeAt(STATE, EMPTY_HASH, x, y);
  }

  lemma WalletsCredited(env: Env, sha: Bytes -> Hash, x: u64, y: u64)
    requires env == Plain(sha)
    ensures Step(env, Exchange(STATE, EMPTY_HASH, 0, 0), Credit2(x, y)) == Exchange(STATE, EMPTY_HASH, x, y)
  {
    CoinsIndexes(0, 0);
    CoinsIndexes(x, 0);
    FeesCredited(0, 0, x, x);
    WalletCredited(x, 0, y, y);
    TokenListed(0, 0);
    ExchangeStores(STATE, EMPTY_HASH, 0, 0, STATE, EMPTY_HASH, x, y);
    ExchangeStorable(STATE, EMPTY_HASH, x, y);
    TwoDepositsGo(env, Exchange(STATE, EMPTY_HASH, 0, 0), WITH_TOKEN, 1, Adjustment(FEE_WALLET, x),
        Adjustment(WALLET, y), 0, 1, Coins(0, 0), Coins(x, 0), Coins(x, y));
  }

  /** The exchange is reached from the ledger without accounts. */
  lemma Reached(env: Env, sha: Bytes -> Hash, x: u64, y: u64)
    requires env == Plain(sha)
    ensures Run(env, map[], SetUp(x, y)) == Exchange(STATE, EMPTY_HASH, x, y)
        && Good(env, Exchange(STATE, EMPTY_HASH, x, y))
  {
    ProgramSetUp(env, sha);
    TokenSetUp(env, sha);
    WalletSetUp(env, sha);
    WalletsCredited(env, sha, x, y);
    var txs1, txs2 := [SET_UP_PROGRAM], [SET_UP_PROGRAM, SET_UP_TOKEN];
    var txs3 := [SET_UP_PROGRAM, SET_UP_TOKEN, SET_UP_WALLET];
    RunOn(env, map[], [], SET_UP_PROGRAM);
    RunOn(env, map[], txs1, SET_UP_TOKEN);
    RunOn(env, map[], txs2, SET_UP_WALLET);
    RunOn(env, map[], txs3, Credit2(x, y));
    assert [] + [SET_UP_PROGRAM] == txs1 && txs1 + [SET_UP_TOKEN] == txs2 && txs2 + [SET_UP_WALLET] == txs3;
    assert txs3 + [Credit2(x, y)] == SetUp(x, y);
    PlainAddresses(sha);
    EmptyWorldGood(env);
    RunGood(env, map[], SetUp(x, y));
  }

  // ---------------------------------------------------------------------------
  // A settlement that loses money
  // ---------------------------------------------------------------------------

  /** One unit moves from the customer to a fee wallet that is full. */
  const WRAPPING: seq<Settlement> := [Settlement(1, [Adjustment(FEE_WALLET, 1)], [Adjustment(WALLET, 1)], 0)]

  const PREPARE_WRAPPING: Tx := TxOf([Meta(P, true, true), Meta(K, false, false)], PrepareBatchSettlement(WRAPPING))
  const SUBMIT_WRAPPING: Tx := TxOf([Meta(P, true, true), Meta(K, false, true)], SubmitBatchSettlement(WRAPPING))

  function RawOfWrapping(): Bytes {
    WriteVec(WRAPPING, WriteSettlement)
  }

  lemma WrappingFits()
    ensures Fits(PrepareBatchSettlement(WRAPPING)) && Fits(SubmitBatchSettlement(WRAPPING))
    ensures WriteParams(PrepareBatchSettlement(WRAPPING)) == RawOfWrapping()
        == WriteParams(SubmitBatchSettlement(WRAPPING))
  {
    var s := WRAPPING[0];
    assert AdjustmentsFit(s.increments) && AdjustmentsFit(s.decrements);
  }

  lemma WrappingVerified(p: ProgramState)
    ensures VerifyDecrements(Coins(U64 - 1, 1), 1, [Adjustment(WALLET, 1)], Tally(0, p)) == Ok(Tally(1, p))
    ensures VerifyIncrements(Coins(U64 - 1, 1), [Adjustment(FEE_WALLET, 1)], 0) == Ok(1)
  {
    CoinsIndexes(U64 - 1, 1);
    CoinsSet(U64 - 1, 1, 0);
    assert [Adjustment(WALLET, 1)][1..] == [] && [Adjustment(FEE_WALLET, 1)][1..] == [];
    NoWrap(0, 1);
  }

  lemma WrappingNets(w: World, metas: seq<Meta>, p: ProgramState)
    requires ExpectToken(w, metas, 1, false) == Ok(Coins(U64 - 1, 1))
    ensures VerifySettlements(w, metas, WRAPPING, Netting(0, p)) == Ok(Netting(0, p))
  {
    WrappingVerified(p);
    assert WRAPPING[1..] == [];
    NoWrap(1, 0);
    assert ToI64(0 + ToI64(ToI64(1) - ToI64(1))) == 0;
  }

  /** The program state while the settlement is prepared, and after it. */
  function Preparing(sha: Bytes -> Hash): ProgramState {
    STATE.(settlementHash := sha(RawOfWrapping()))
  }

  function Settled(sha: Bytes -> Hash): ProgramState {
    STATE.(lastSettlementHash := sha(RawOfWrapping()), settlementHash := EMPTY_HASH)
  }

  lemma WrappingPrepared(env: Env, sha: Bytes -> Hash)
    requires env == Plain(sha)
    ensures Step(env, Exchange(STATE, EMPTY_HASH, U64 - 1, 1), PREPARE_WRAPPING)
        == Exchange(Preparing(sha), EMPTY_HASH, U64 - 1, 1)
  {
    var w := Exchange(STATE, EMPTY_HASH, U64 - 1, 1);
    var metas := [Meta(P, true, true), Meta(K, false, false)];
    ExchangeAt(STATE, EMPTY_HASH, U64 - 1, 1);
    ExchangeStores(STATE, EMPTY_HASH, U64 - 1, 1, Preparing(sha), EMPTY_HASH, 0, 0);
    assert ClearEvents(STATE) == STATE;
    WrappingNets(w, metas, STATE);
    WrappingFits();
    Goes(env, w, metas, PrepareBatchSettlement(WRAPPING), Exchange(Preparing(sha), EMPTY_HASH, U64 - 1, 1));
  }

  /** A settlement of one token, from one wallet to another. */
  lemma SettlementGoes(env: Env, w: World, metas: seq<Meta>, account: u8, a: Adjustment, b: Adjustment, i: nat, j: nat,
                       t: TokenState, t1: TokenState, t2: TokenState, p: ProgramState, raw: Bytes)
    requires ExpectProgram(w, metas, true, None) == Ok(p) && p.settlementHash == env.sha(raw) != EMPTY_HASH
    requires ExpectToken(w, metas, account, true) == Ok(t)
    requires ValidatedIndex(t, a.address) == Ok(i) && Credit(t, i, a.amount) == Ok(t1)
    requires ValidatedIndex(t1, b.address) == Ok(j) && Debit(t1, j, b.amount) == Ok(t2)
    ensures SubmitSettlement(env, w, metas, [Settlement(account, [a], [b], 0)], raw)
         == Ok(w[metas[account].key := Token(t2)][metas[0].key :=
                 Program(p.(lastSettlementHash := env.sha(raw), settlementHash := EMPTY_HASH))])
  {
    var s := Settlement(account, [a], [b], 0);
    OneAdjusted(t, a, true, t1, []);
    OneAdjusted(t1, b, false, t2, []);
    assert [a] + [] == [a] && [b] + [] == [b] && [s][1..] == [];
    assert SettleToken(t, s) == Ok(t2);
    assert SettleAll(w, metas, [s]) == SettleAll(w[metas[account].key := Token(t2)], metas, []);
  }

  lemma TokenWritable(p: ProgramState, x: u64, y: u64)
    ensures var w, metas := Exchange(p, EMPTY_HASH, x, y), [Meta(P, true, true), Meta(K, false, true)];
            ExpectProgram(w, metas, true, None) == Ok(p) && ExpectToken(w, metas, 1, true) == Ok(Coins(x, y))
  {
    ExchangeAt(p, EMPTY_HASH, x, y);
  }

  lemma FullWallet()
    ensures Credit(Coins(U64 - 1, 1), 0, 1) == Ok(Coins(0, 1))
  {
    CoinsSet(U64 - 1, 1, 0);
  }

  lemma WrappingSubmitted(env: Env, sha: Bytes -> Hash)
    requires env == Plain(sha) && sha(RawOfWrapping()) != EMPTY_HASH
    ensures Step(env, Exchange(Preparing(sha), EMPTY_HASH, U64 - 1, 1), SUBMIT_WRAPPING)
        == Exchange(Settled(sha), EMPTY_HASH, 0, 0)
  {
    var w := Exchange(Preparing(sha), EMPTY_HASH, U64 - 1, 1);
    var metas := [Meta(P, true, true), Meta(K, false, true)];
    TokenWritable(Preparing(sha), U64 - 1, 1);
    ExchangeStores(Preparing(sha), EMPTY_HASH, U64 - 1, 1, Settled(sha), EMPTY_HASH, 0, 0);
    ExchangeStores(Preparing(sha), EMPTY_HASH, 0, 0, Settled(sha), EMPTY_HASH, 0, 0);
    CoinsIndexes(U64 - 1, 1);
    CoinsIndexes(0, 1);
    FullWallet();
    WalletDebited(0, 1, 1);
    SettlementGoes(env, w, metas, 1, Adjustment(FEE_WALLET, 1), Adjustment(WALLET, 1), 0, 1,
                   Coins(U64 - 1, 1), Coins(0, 1), Coins(0, 0), Preparing(sha), RawOfWrapping());
    WrappingFits();
    ExchangeStorable(Settled(sha), EMPTY_HASH, 0, 0);
    Goes(env, w, metas, SubmitBatchSettlement(WRAPPING), Exchange(Settled(sha), EMPTY_HASH, 0, 0));
  }

  /** A run from the ledger without accounts in which a settlement that nets to
      zero goes through, and 2^64 are lost: the fee wallet is full, and one unit
      moves to it from the customer. */
  lemma SettlementLosesMoney(env: Env, sha: Bytes -> Hash)
    requires env == Plain(sha) && sha(RawOfWrapping()) != EMPTY_HASH
    ensures var txs := SetUp(U64 - 1, 1);
            && TotalMoney(Run(env, map[], txs)) == U64
            && TotalMoney(Run(env, map[], txs + [PREPARE_WRAPPING])) == U64
            && TotalMoney(Run(env, map[], txs + [PREPARE_WRAPPING] + [SUBMIT_WRAPPING])) == 0
  {
    Reached(env, sha, U64 - 1, 1);
    WrappingPrepared(env, sha);
    WrappingSubmitted(env, sha);
    RunOn(env, map[], SetUp(U64 - 1, 1), PREPARE_WRAPPING);
    RunOn(env, map[], SetUp(U64 - 1, 1) + [PREPARE_WRAPPING], SUBMIT_WRAPPING);
    ExchangeMoney(STATE, EMPTY_HASH, U64 - 1, 1);
    ExchangeMoney(Preparing(sha), EMPTY_HASH, U64 - 1, 1);
    ExchangeMoney(Settled(sha), EMPTY_HASH, 0, 0);
  }

  // ---------------------------------------------------------------------------
  // Withdrawals
  // ---------------------------------------------------------------------------

  /** The program account, the withdraw account and the token, as each phase of a
      withdrawal asks for them. */
  const PREPARING: seq<Meta> := [Meta(P, true, true), Meta(W, false, true), Meta(K, false, true)]
  const SUBMITTING: seq<Meta> := [Meta(P, true, false), Meta(W, true, true), Meta(K, false, false)]
  const ROLLING_BACK: seq<Meta> := [Meta(P, true, false), Meta(W, false, true), Meta(K, false, true)]

  function Batch(ds: seq<Withdrawal>): WithdrawBatch {
    WithdrawBatch([], 0, [TokenWithdrawals(2, ds)], [])
  }

  /** From the customer's wallet, with a fee from there. */
  function FromCustomer(amount: u64, fee: u64): Withdrawal {
    Withdrawal(WALLET, amount, 2, WALLET, fee)
  }

  /** From the fee wallet, with a fee from there. */
  function FromFees(amount: u64, fee: u64): Withdrawal {
    Withdrawal(FEE_WALLET, amount, 2, FEE_WALLET, fee)
  }

  lemma BatchFitsIt(ds: seq<Withdrawal>)
    requires |ds| < U16 && forall d | d in ds :: WithdrawalFits(d)
    ensures Fits(PrepareBatchWithdraw(Batch(ds))) && Fits(SubmitBatchWithdraw(Batch(ds)))
    ensures Fits(RollbackBatchWithdraw(Batch(ds).tokens))
    ensures WriteParams(PrepareBatchWithdraw(Batch(ds))) == WriteParams(SubmitBatchWithdraw(Batch(ds)))
  {
  }

  lemma CoinsPayable(env: Env, sha: Bytes -> Hash, x: u64, y: u64)
    requires env == Plain(sha)
    ensures ValidatedWithdrawIndex(env, Coins(x, y), FEE_WALLET, Bitcoin) == Ok(0)
    ensures ValidatedWithdrawIndex(env, Coins(x, y), WALLET, Bitcoin) == Ok(1)
  {
    CoinsIndexes(x, y);
    CoinsSet(x, y, 0);
    Texts();
  }

  lemma VerifiedAt(env: Env, w: World, metas: seq<Meta>, account: u8, t: TokenState, f: TokenState, d: Withdrawal,
                   network: Network, i: nat, j: nat)
    requires ExpectToken(w, metas, d.feeAccount, true) == Ok(f)
    requires ValidatedWithdrawIndex(env, t, d.address, network) == Ok(i)
        && ValidatedWithdrawIndex(env, f, d.feeAddress, network) == Ok(j)
    requires d.amount <= t.slots[i].amount && d.feeAmount <= f.slots[j].amount
    ensures VerifyOne(env, w, metas, account, t, d, network) == Ok(None)
  {
  }

  /** A withdrawal from the customer's wallet or the fee wallet, with a fee from
      there, that the wallet covers. */
  predicate Affordable(x: u64, y: u64, d: Withdrawal) {
    || (d == FromCustomer(d.amount, d.feeAmount) && d.amount <= y && d.feeAmount <= y)
    || (d == FromFees(d.amount, d.feeAmount) && d.amount <= x && d.feeAmount <= x)
  }

  lemma Verified(env: Env, sha: Bytes -> Hash, w: World, x: u64, y: u64, d: Withdrawal)
    requires env == Plain(sha) && ExpectToken(w, PREPARING, 2, true) == Ok(Coins(x, y)) && Affordable(x, y, d)
    ensures VerifyOne(env, w, PREPARING, 2, Coins(x, y), d, Bitcoin) == Ok(None)
  {
    CoinsPayable(env, sha, x, y);
    CoinsSet(x, y, 0);
    var i := if d == FromCustomer(d.amount, d.feeAmount) then 1 else 0;
    VerifiedAt(env, w, PREPARING, 2, Coins(x, y), Coins(x, y), d, Bitcoin, i, i);
  }

  lemma {:induction false} AllVerified(env: Env, sha: Bytes -> Hash, w: World, x: u64, y: u64, ds: seq<Withdrawal>,
                                       p: ProgramState)
    requires env == Plain(sha) && ExpectToken(w, PREPARING, 2, true) == Ok(Coins(x, y))
        && forall d | d in ds :: Affordable(x, y, d)
    ensures VerifyToken(env, w, PREPARING, 2, Coins(x, y), ds, Bitcoin, p) == Ok(p)
    decreases |ds|
  {
    if ds != [] {
      assert ds[0] in ds && forall d | d in ds[1..] :: d in ds;
      Verified(env, sha, w, x, y, ds[0]);
      AllVerified(env, sha, w, x, y, ds[1..], p);
    }
  }

  lemma BatchChecked(env: Env, sha: Bytes -> Hash, x: u64, y: u64, ds: seq<Withdrawal>)
    requires env == Plain(sha) && forall d | d in ds :: Affordable(x, y, d)
    ensures CheckWithdraw(env, Exchange(STATE, EMPTY_HASH, x, y), PREPARING, Batch(ds)) == Ok(STATE)
  {
    var w := Exchange(STATE, EMPTY_HASH, x, y);
    ExchangeAt(STATE, EMPTY_HASH, x, y);
    assert ClearEvents(STATE) == STATE && Batch(ds).tokens[1..] == [];
    AllVerified(env, sha, w, x, y, ds, STATE);
    assert VerifyWithdrawals(env, w, PREPARING, Batch(ds).tokens, Bitcoin, STATE)
        == VerifyWithdrawals(env, w, PREPARING, [], Bitcoin, STATE);
  }

  lemma CustomerCharged(x: u64, y: u64, amount: u64, fee: u64)
    requires amount <= y && x + fee < U64
    ensures ChargeOne(Exchange(STATE, EMPTY_HASH, x, y), PREPARING, 2, FromCustomer(amount, fee), FEE)
         == Ok(Exchange(STATE, EMPTY_HASH, x + fee, y - amount))
  {
    Texts();
    ExchangeAt(STATE, EMPTY_HASH, x, y);
    WalletDebited(x, y, amount);
    ExchangeStores(STATE, EMPTY_HASH, x, y, STATE, EMPTY_HASH, x, y - amount);
    ExchangeAt(STATE, EMPTY_HASH, x, y - amount);
    CoinsSet(x, y - amount, 0);
    FeesCredited(x, y - amount, fee, x + fee);
    ExchangeStores(STATE, EMPTY_HASH, x, y - amount, STATE, EMPTY_HASH, x + fee, y - amount);
  }

  lemma FeesWithdrawn(x: u64, y: u64, amount: u64)
    requires amount <= x
    ensures ChargeOne(Exchange(STATE, EMPTY_HASH, x, y), PREPARING, 2, FromFees(amount, 0), FEE)
         == Ok(Exchange(STATE, EMPTY_HASH, x - amount, y))
  {
    ExchangeAt(STATE, EMPTY_HASH, x, y);
    FeesDebited(x, y, amount);
    ExchangeStores(STATE, EMPTY_HASH, x, y, STATE, EMPTY_HASH, x - amount, y);
  }

  /** What the transaction pays for one withdrawal. */
  function PaidOut(d: Withdrawal): TxOut {
    TxOut(WrapSub(d.amount, d.feeAmount), if d.address == WALLET then CUSTOMER else FEE)
  }

  lemma PaysOut(env: Env, sha: Bytes -> Hash, x: u64, y: u64, d: Withdrawal, o: Payout)
    requires env == Plain(sha) && (d == FromCustomer(d.amount, d.feeAmount) || d == FromFees(d.amount, d.feeAmount))
    ensures Pay(env, Coins(x, y), d, Bitcoin, o) == Ok(o.(outputs := o.outputs + [PaidOut(d)]))
  {
    Texts();
    CoinsSet(x, y, 0);
  }

  lemma OnePrepared(env: Env, sha: Bytes -> Hash, x: u64, y: u64, x': u64, y': u64, d: Withdrawal,
                    ds: seq<Withdrawal>, o: Payout)
    requires env == Plain(sha) && (d == FromCustomer(d.amount, d.feeAmount) || d == FromFees(d.amount, d.feeAmount))
    requires ChargeOne(Exchange(STATE, EMPTY_HASH, x, y), PREPARING, 2, d, FEE)
        == Ok(Exchange(STATE, EMPTY_HASH, x', y'))
    ensures PrepareToken(env, Draft(Exchange(STATE, EMPTY_HASH, x, y), o), PREPARING, 2, [d] + ds, FEE, Bitcoin)
         == PrepareToken(env, Draft(Exchange(STATE, EMPTY_HASH, x', y'), o.(outputs := o.outputs + [PaidOut(d)])),
             PREPARING, 2, ds, FEE, Bitcoin)
  {
    assert ([d] + ds)[1..] == ds;
    ExchangeAt(STATE, EMPTY_HASH, x', y');
    PaysOut(env, sha, x', y', d, o);
  }

  /** A batch that is checked and drafted goes through, whatever its digest. */
  lemma BatchAccepted(env: Env, x: u64, y: u64, b: WithdrawBatch, raw: Bytes, x': u64, y': u64, o: Payout)
    requires CheckWithdraw(env, Exchange(STATE, EMPTY_HASH, x, y), PREPARING, b) == Ok(STATE)
    requires DraftWithdraw(env, Exchange(STATE, EMPTY_HASH, x, y), PREPARING, b, STATE)
        == Ok(Draft(Exchange(STATE, EMPTY_HASH, x', y'), o))
    ensures PrepareWithdraw(env, Exchange(STATE, EMPTY_HASH, x, y), PREPARING, b, raw)
        == Ok(Exchange(STATE, env.sha(raw), x', y'))
  {
    ExchangeAt(STATE, EMPTY_HASH, x, y);
    ExchangeStores(STATE, EMPTY_HASH, x, y, STATE, EMPTY_HASH, x, y);
    ExchangeStores(STATE, EMPTY_HASH, x', y', STATE, env.sha(raw), x', y');
  }

  lemma BatchDrafted(env: Env, x: u64, y: u64, ds: seq<Withdrawal>, x': u64, y': u64, o: Payout)
    requires o.outputs != [] && o.edicts == []
    requires PrepareToken(env, Draft(Exchange(STATE, EMPTY_HASH, x, y), NO_PAYOUT), PREPARING, 2, ds, FEE, Bitcoin)
          == Ok(Draft(Exchange(STATE, EMPTY_HASH, x', y'), o))
    ensures DraftWithdraw(env, Exchange(STATE, EMPTY_HASH, x, y), PREPARING, Batch(ds), STATE)
         == Ok(Draft(Exchange(STATE, EMPTY_HASH, x', y'), o))
  {
    var w, tokens := Exchange(STATE, EMPTY_HASH, x, y), Batch(ds).tokens;
    Texts();
    ExchangeAt(STATE, EMPTY_HASH, x, y);
    assert tokens[1..] == [];
    assert PrepareAll(env, Draft(w, NO_PAYOUT), PREPARING, tokens, FEE, Bitcoin)
        == PrepareAll(env, Draft(Exchange(STATE, EMPTY_HASH, x', y'), o), PREPARING, [], FEE, Bitcoin);
  }

  ghost predicate AllAffordable(x: u64, y: u64, ds: seq<Withdrawal>) {
    |ds| < U16 && forall d | d in ds :: Affordable(x, y, d)
  }

  lemma AffordableFits(x: u64, y: u64, ds: seq<Withdrawal>)
    requires AllAffordable(x, y, ds)
    ensures Fits(PrepareBatchWithdraw(Batch(ds)))
  {
    assert forall d | d in ds :: WithdrawalFits(d);
  }

  lemma BatchPrepared(env: Env, sha: Bytes -> Hash, x: u64, y: u64, ds: seq<Withdrawal>, x': u64, y': u64, o: Payout)
    requires env == Plain(sha) && AllAffordable(x, y, ds) && o.outputs != [] && o.edicts == []
    requires PrepareToken(env, Draft(Exchange(STATE, EMPTY_HASH, x, y), NO_PAYOUT), PREPARING, 2, ds, FEE, Bitcoin)
          == Ok(Draft(Exchange(STATE, EMPTY_HASH, x', y'), o))
    ensures var tx := TxOf(PREPARING, PrepareBatchWithdraw(Batch(ds)));
            && Succeeds(env, Exchange(STATE, EMPTY_HASH, x, y), tx)
            && Step(env, Exchange(STATE, EMPTY_HASH, x, y), tx)
                == Exchange(STATE, sha(WriteWithdrawBatch(Batch(ds))), x', y')
  {
    var w, b, raw := Exchange(STATE, EMPTY_HASH, x, y), Batch(ds), WriteWithdrawBatch(Batch(ds));
    BatchChecked(env, sha, x, y, ds);
    BatchDrafted(env, x, y, ds, x', y', o);
    BatchAccepted(env, x, y, b, raw, x', y', o);
    AffordableFits(x, y, ds);
    Goes(env, w, PREPARING, PrepareBatchWithdraw(b), Exchange(STATE, sha(raw), x', y'));
  }

  // ---------------------------------------------------------------------------
  // A withdrawal that pays what was not debited
  // ---------------------------------------------------------------------------

  /** An amount of 1, and a fee of 2. */
  const OVERCHARGED: seq<Withdrawal> := [FromCustomer(1, 2)]
  const PREPARE_OVERCHARGED: Tx := TxOf(PREPARING, PrepareBatchWithdraw(Batch(OVERCHARGED)))
  const SUBMIT_OVERCHARGED: Tx := TxOf(SUBMITTING, SubmitBatchWithdraw(Batch(OVERCHARGED)))

  function RawOfOvercharged(): Bytes {
    WriteWithdrawBatch(Batch(OVERCHARGED))
  }

  lemma OverchargedPrepared(env: Env, sha: Bytes -> Hash)
    requires env == Plain(sha)
    ensures Step(env, Exchange(STATE, EMPTY_HASH, 0, 2), PREPARE_OVERCHARGED)
        == Exchange(STATE, sha(RawOfOvercharged()), 2, 1)
  {
    var d := FromCustomer(1, 2);
    var o := Payout([PaidOut(d)], []);
    assert [] + [PaidOut(d)] == [PaidOut(d)] && [d] + [] == OVERCHARGED;
    CustomerCharged(0, 2, 1, 2);
    OnePrepared(env, sha, 0, 2, 2, 1, d, [], NO_PAYOUT);
    assert AllAffordable(0, 2, OVERCHARGED);
    BatchPrepared(env, sha, 0, 2, OVERCHARGED, 2, 1, o);
  }

  lemma OneWithdrawalPays(env: Env, w: World, metas: seq<Meta>, t: TokenState, d: Withdrawal, network: Network,
                          o: Payout, o': Payout)
    requires ExpectToken(w, metas, d.feeAccount, false).Ok? && ValidatedIndex(t, d.address).Ok?
        && Pay(env, t, d, network, o) == Ok(o')
    ensures PayToken(env, w, metas, t, [d], network, o) == Ok(o')
  {
    assert [d][1..] == [];
  }

  lemma OneTokenPays(env: Env, w: World, metas: seq<Meta>, x: TokenWithdrawals, t: TokenState, network: Network,
                     o: Payout, o': Payout)
    requires ExpectToken(w, metas, x.account, false) == Ok(t)
        && PayToken(env, w, metas, t, x.withdrawals, network, o) == Ok(o')
    ensures PayAll(env, w, metas, [x], network, o) == Ok(o')
  {
    assert [x][1..] == [];
  }

  lemma TokenSubmitted(p: ProgramState, hash: Hash, x: u64, y: u64)
    ensures ExpectToken(Exchange(p, hash, x, y), SUBMITTING, 2, false) == Ok(Coins(x, y))
  {
    ExchangeAt(p, hash, x, y);
  }

  lemma OverchargedPaid(env: Env, sha: Bytes -> Hash, o: Payout)
    requires env == Plain(sha)
    ensures ValidatedIndex(Coins(2, 1), FromCustomer(1, 2).address).Ok?
    ensures Pay(env, Coins(2, 1), FromCustomer(1, 2), Bitcoin, o)
        == Ok(o.(outputs := o.outputs + [TxOut(U64 - 1, CUSTOMER)]))
  {
    CoinsIndexes(2, 1);
    PaysOut(env, sha, 2, 1, FromCustomer(1, 2), o);
    assert PaidOut(FromCustomer(1, 2)) == TxOut(U64 - 1, CUSTOMER);
  }

  lemma OverchargedPays(env: Env, sha: Bytes -> Hash, w: World, o: Payout)
    requires env == Plain(sha) && w == Exchange(STATE, sha(RawOfOvercharged()), 2, 1)
    ensures PayAll(env, w, SUBMITTING, Batch(OVERCHARGED).tokens, Bitcoin, o)
        == Ok(o.(outputs := o.outputs + [TxOut(U64 - 1, CUSTOMER)]))
  {
    var d, o' := FromCustomer(1, 2), o.(outputs := o.outputs + [TxOut(U64 - 1, CUSTOMER)]);
    TokenSubmitted(STATE, sha(RawOfOvercharged()), 2, 1);
    OverchargedPaid(env, sha, o);
    OneWithdrawalPays(env, w, SUBMITTING, Coins(2, 1), d, Bitcoin, o, o');
    OneTokenPays(env, w, SUBMITTING, TokenWithdrawals(2, OVERCHARGED), Coins(2, 1), Bitcoin, o, o');
  }

  lemma OneStateUtxo(env: Env, sha: Bytes -> Hash)
    requires env == Plain(sha)
    ensures StateInputs(SUBMITTING) == [StateInput(W)] && StateOutputs(env, SUBMITTING) == [TxOut(0, W)]
  {
    var rest := [Meta(W, true, true), Meta(K, false, false)];
    assert SUBMITTING[1..] == rest && rest[1..] == [Meta(K, false, false)] && [Meta(K, false, false)][1..] == [];
    assert StateInputs([Meta(K, false, false)]) == [] + StateInputs([]);
    assert StateOutputs(env, [Meta(K, false, false)]) == [] + StateOutputs(env, []);
    assert StateInputs(rest) == [StateInput(W)] + [] && StateOutputs(env, rest) == [TxOut(0, W)] + [];
  }

  lemma SubmittedIf(env: Env, w: World, b: WithdrawBatch, raw: Bytes, tx: ToSign)
    requires At(w, P) == Program(STATE) && At(w, W) == Withdraw(P, env.sha(raw)) && At(w, K).Token?
    requires BuildTransaction(env, w, SUBMITTING, P, b, STATE) == Ok(tx)
    ensures SubmitWithdraw(env, w, SUBMITTING, P, b, raw) == Ok(Submitted(w[W := Withdraw(P, EMPTY_HASH)], tx))
  {
  }

  lemma OverchargedSubmitted(env: Env, sha: Bytes -> Hash, w: World)
    requires env == Plain(sha) && w == Exchange(STATE, sha(RawOfOvercharged()), 2, 1)
    ensures SubmitWithdraw(env, w, SUBMITTING, P, Batch(OVERCHARGED), RawOfOvercharged())
         == Ok(Submitted(w[W := Withdraw(P, EMPTY_HASH)],
                         ToSign([StateInput(W)], [TxOut(0, W), TxOut(U64 - 1, CUSTOMER)], [], [InputToSign(0, W)])))
  {
    var b, o := Batch(OVERCHARGED), Payout([TxOut(0, W)], []);
    var outputs := [TxOut(0, W), TxOut(U64 - 1, CUSTOMER)];
    ExchangeAt(STATE, sha(RawOfOvercharged()), 2, 1);
    OneStateUtxo(env, sha);
    OverchargedPays(env, sha, w, o);
    assert o.outputs + [TxOut(U64 - 1, CUSTOMER)] == outputs;
    CoinsBuilt(env, w, b, Payout(outputs, []));
    SubmittedIf(env, w, b, RawOfOvercharged(), ToSign([StateInput(W)], outputs, [], [InputToSign(0, W)]));
  }

  /** Without runes, change or further funding, the transaction is the state
      transition and the outputs. */
  lemma CoinsBuilt(env: Env, w: World, b: WithdrawBatch, o: Payout)
    requires At(w, K).Token? && env.fundingTx(b.tx) == Some(FundingTx([], 0)) && b.changeAmount == 0 && o.edicts == []
    requires StateInputs(SUBMITTING) == [StateInput(W)]
    requires PayAll(env, w, SUBMITTING, b.tokens, Bitcoin, Payout(StateOutputs(env, SUBMITTING), [])) == Ok(o)
    ensures BuildTransaction(env, w, SUBMITTING, P, b, STATE)
        == Ok(ToSign([StateInput(W)], o.outputs, [], [InputToSign(0, W)]))
  {
    var inputs := StateInputs(SUBMITTING) + Fundings([]);
    assert inputs == [StateInput(W)] && |inputs| == 1;
    assert Signers(0, b.inputTypes, P, SUBMITTING) == Ok([]);
    assert Signers(1, b.inputTypes, P, SUBMITTING) == Ok([] + [InputToSign(0, W)]);
    assert [] + [InputToSign(0, W)] == [InputToSign(0, W)];
  }

  lemma OverchargedSubmits(env: Env, sha: Bytes -> Hash)
    requires env == Plain(sha)
    ensures var w := Exchange(STATE, sha(RawOfOvercharged()), 2, 1);
            Succeeds(env, w, SUBMIT_OVERCHARGED)
                && Step(env, w, SUBMIT_OVERCHARGED) == Exchange(STATE, EMPTY_HASH, 2, 1)
  {
    var w := Exchange(STATE, sha(RawOfOvercharged()), 2, 1);
    OverchargedSubmitted(env, sha, w);
    ExchangeStores(STATE, sha(RawOfOvercharged()), 2, 1, STATE, EMPTY_HASH, 2, 1);
    ExchangeStorable(STATE, EMPTY_HASH, 2, 1);
    BatchFitsIt(OVERCHARGED);
    Goes(env, w, SUBMITTING, SubmitBatchWithdraw(Batch(OVERCHARGED)), Exchange(STATE, EMPTY_HASH, 2, 1));
  }

  /** A run from the ledger without accounts in which a withdrawal is charged a fee
      above its amount: its account gains 1, and the transaction that is submitted
      pays out 2^64 - 1. */
  lemma WithdrawalPaysWhatItDidNotDebit(env: Env, sha: Bytes -> Hash)
    requires env == Plain(sha)
    ensures var w := Run(env, map[], SetUp(0, 2)); var w1 := Run(env, map[], SetUp(0, 2) + [PREPARE_OVERCHARGED]);
            && MoneyIn(K, At(w, K)) == 2 && MoneyIn(K, At(w1, K)) == 3
            && Succeeds(env, w1, SUBMIT_OVERCHARGED)
            && var r := SubmitWithdraw(env, w1, SUBMITTING, P, Batch(OVERCHARGED), RawOfOvercharged());
               && r.Ok? && Step(env, w1, SUBMIT_OVERCHARGED) == r.value.w
               && r.value.toSign.outputs == [TxOut(0, W), TxOut(U64 - 1, CUSTOMER)]
  {
    OverchargedSubmits(env, sha);
    ExchangeStores(STATE, sha(RawOfOvercharged()), 2, 1, STATE, EMPTY_HASH, 2, 1);
    Reached(env, sha, 0, 2);
    OverchargedPrepared(env, sha);
    RunOn(env, map[], SetUp(0, 2), PREPARE_OVERCHARGED);
    ExchangeAt(STATE, EMPTY_HASH, 0, 2);
    ExchangeAt(STATE, sha(RawOfOvercharged()), 2, 1);
    CoinsMoney(0, 2);
    CoinsMoney(2, 1);
    OverchargedSubmitted(env, sha, Exchange(STATE, sha(RawOfOvercharged()), 2, 1));
  }

  // ---------------------------------------------------------------------------
  // A rollback that is refused
  // ---------------------------------------------------------------------------

  /** The fee wallet collects a fee of 5, and then pays out all it has in two
      withdrawals, each of which it can afford by itself. */
  const STUCK: seq<Withdrawal> := [FromCustomer(5, 5), FromFees(5, 0), FromFees(5, 0)]
  const PREPARE_STUCK: Tx := TxOf(PREPARING, PrepareBatchWithdraw(Batch(STUCK)))
  const ROLL_BACK_STUCK: Tx := TxOf(ROLLING_BACK, RollbackBatchWithdraw(Batch(STUCK).tokens))

  function RawOfStuck(): Bytes {
    WriteWithdrawBatch(Batch(STUCK))
  }

  function Paid(o: Payout, d: Withdrawal): Payout {
    o.(outputs := o.outputs + [PaidOut(d)])
  }

  lemma StuckDrafted(env: Env, sha: Bytes -> Hash) returns (o: Payout)
    requires env == Plain(sha)
    ensures o.outputs != [] && o.edicts == []
    ensures PrepareToken(env, Draft(Exchange(STATE, EMPTY_HASH, 5, 5), NO_PAYOUT), PREPARING, 2, STUCK, FEE, Bitcoin)
         == Ok(Draft(Exchange(STATE, EMPTY_HASH, 0, 0), o))
  {
    var d1, d2 := FromCustomer(5, 5), FromFees(5, 0);
    var o1 := Paid(NO_PAYOUT, d1);
    var o2 := Paid(o1, d2);
    o := Paid(o2, d2);
    CustomerCharged(5, 5, 5, 5);
    FeesWithdrawn(10, 0, 5);
    FeesWithdrawn(5, 0, 5);
    OnePrepared(env, sha, 5, 5, 10, 0, d1, [d2, d2], NO_PAYOUT);
    OnePrepared(env, sha, 10, 0, 5, 0, d2, [d2], o1);
    OnePrepared(env, sha, 5, 0, 0, 0, d2, [], o2);
    assert [d1] + [d2, d2] == STUCK && [d2] + [d2] == [d2, d2] && [d2] + [] == [d2];
  }

  lemma StuckAffordable()
    ensures AllAffordable(5, 5, STUCK) && forall d | d in STUCK :: WithdrawalFits(d)
  {
  }

  lemma StuckPrepared(env: Env, sha: Bytes -> Hash)
    requires env == Plain(sha)
    ensures Succeeds(env, Exchange(STATE, EMPTY_HASH, 5, 5), PREPARE_STUCK)
    ensures Step(env, Exchange(STATE, EMPTY_HASH, 5, 5), PREPARE_STUCK) == Exchange(STATE, sha(RawOfStuck()), 0, 0)
  {
    var o := StuckDrafted(env, sha);
    StuckAffordable();
    BatchPrepared(env, sha, 5, 5, STUCK, 0, 0, o);
  }

  lemma StuckRefused(env: Env, sha: Bytes -> Hash)
    requires env == Plain(sha)
    ensures RollbackWithdraw(Exchange(STATE, sha(RawOfStuck()), 0, 0), ROLLING_BACK, Batch(STUCK).tokens)
         == Err(Custom(ERROR_INSUFFICIENT_BALANCE))
  {
    var h := sha(RawOfStuck());
    var w, d1 := Exchange(STATE, h, 0, 0), FromCustomer(5, 5);
    Texts();
    ExchangeAt(STATE, h, 0, 0);
    ExchangeAt(STATE, h, 0, 5);
    ExchangeStores(STATE, h, 0, 0, STATE, h, 0, 5);
    CoinsIndexes(0, 0);
    CoinsSet(0, 5, 0);
    WalletCredited(0, 0, 5, 5);
    FeesDebited(0, 5, 5);
    assert RefundOne(w, ROLLING_BACK, 2, d1, FEE) == Err(Custom(ERROR_INSUFFICIENT_BALANCE));
    assert RefundToken(w, ROLLING_BACK, 2, STUCK, FEE) == Err(Custom(ERROR_INSUFFICIENT_BALANCE));
    assert RefundAll(w, ROLLING_BACK, Batch(STUCK).tokens, FEE) == Err(Custom(ERROR_INSUFFICIENT_BALANCE));
  }

  /** A run from the ledger without accounts in which a withdrawal batch is
      prepared and its rollback is refused: nothing is left in the fee wallet when
      the first refund asks for the fee back. */
  lemma RollbackCanFail(env: Env, sha: Bytes -> Hash)
    requires env == Plain(sha)
    ensures var w := Run(env, map[], SetUp(5, 5) + [PREPARE_STUCK]);
            && Succeeds(env, Run(env, map[], SetUp(5, 5)), PREPARE_STUCK) && At(w, W) == Withdraw(P, sha(RawOfStuck()))
            && !Succeeds(env, w, ROLL_BACK_STUCK)
            && RollbackWithdraw(w, ROLLING_BACK, Batch(STUCK).tokens) == Err(Custom(ERROR_INSUFFICIENT_BALANCE))
  {
    Reached(env, sha, 5, 5);
    StuckPrepared(env, sha);
    RunOn(env, map[], SetUp(5, 5), PREPARE_STUCK);
    ExchangeAt(STATE, sha(RawOfStuck()), 0, 0);
    ExchangeAt(STATE, EMPTY_HASH, 5, 5);
    StuckRefused(env, sha);
    StuckAffordable();
    BatchFitsIt(STUCK);
    Fails(env, Exchange(STATE, sha(RawOfStuck()), 0, 0), ROLLING_BACK, RollbackBatchWithdraw(Batch(STUCK).tokens));
  }

  // ---------------------------------------------------------------------------
  // A rollback that nothing was prepared for
  // ---------------------------------------------------------------------------

  const WITH_FEES: seq<Meta> := [Meta(P, true, false), Meta(F, false, true)]
  const SET_UP_FEES: Tx := TxOf(WITH_FEES, InitTokenState([7]))
  const CREDIT_FEES: Tx := TxOf(WITH_FEES, BatchDeposit([TokenDeposits(1, [Adjustment(FEE_WALLET, 1)])]))

  /** The exchange with a second token. */
  function Exchange2(y: u64, f: TokenState): World {
    Exchange(STATE, EMPTY_HASH, 0, y)[F := Token(f)]
  }

  lemma Exchange2At(y: u64, f: TokenState)
    ensures var w := Exchange2(y, f);
            && At(w, P) == Program(STATE) && At(w, W) == Withdraw(P, EMPTY_HASH)
            && At(w, K) == Token(Coins(0, y)) && At(w, F) == Token(f)
  {
    KeysDiffer();
  }

  lemma Exchange2Stores(y: u64, f: TokenState, y': u64, f': TokenState)
    ensures Exchange2(y, f)[K := Token(Coins(0, y'))] == Exchange2(y', f)
        && Exchange2(y, f)[F := Token(f')] == Exchange2(y, f')
    ensures Exchange2(y, f)[W := Withdraw(P, EMPTY_HASH)] == Exchange2(y, f)
  {
    KeysDiffer();
  }

  lemma Exchange2Storable(y: u64, f: TokenState)
    requires f.size == 10240
    ensures Storable(Exchange2(y, f))
  {
  }

  lemma FeesSetUp(env: Env, sha: Bytes -> Hash)
    requires env == Plain(sha)
    ensures Step(env, Exchange(STATE, EMPTY_HASH, 0, 0), SET_UP_FEES) == Exchange2(0, OnlyFees(0))
  {
    KeysDiffer();
    Texts();
    ExchangeAt(STATE, EMPTY_HASH, 0, 0);
    FirstSlot(TokenState(P, [7], 1, NoSlots(SlotsIn(10240)), 10240));
    Goes(env, Exchange(STATE, EMPTY_HASH, 0, 0), WITH_FEES, InitTokenState([7]), Exchange2(0, OnlyFees(0)));
  }

  lemma FeesAt(z: u64, v: u64)
    ensures |OnlyFees(z).slots| == 101 && OnlyFees(z).slots[0] == Slot(FEE, z) && OnlyFees(z).slots[50] == NO_SLOT
    ensures SetAmount(OnlyFees(z), 0, v) == OnlyFees(v) && ValidatedIndex(OnlyFees(z), FEE_WALLET) == Ok(0)
  {
    Texts();
    assert FEE[0..] == FEE;
    assert SetAmount(OnlyFees(z), 0, v).slots == OnlyFees(v).slots;
  }

  lemma OneFeeCredited()
    ensures Adjust(OnlyFees(0), [Adjustment(FEE_WALLET, 1)], true) == Ok(OnlyFees(1))
  {
    FeesAt(0, 1);
    NoWrap(0, 1);
    OneAdjusted(OnlyFees(0), Adjustment(FEE_WALLET, 1), true, OnlyFees(1), []);
    assert [Adjustment(FEE_WALLET, 1)] + [] == [Adjustment(FEE_WALLET, 1)];
  }

  lemma FeesListed(f: TokenState)
    requires f.program == P
    ensures var w := Exchange2(0, f);
            ExpectProgram(w, WITH_FEES, false, None).Ok? && ExpectToken(w, WITH_FEES, 1, true) == Ok(f)
  {
    Exchange2At(0, f);
  }

  lemma FeesDeposited(env: Env, sha: Bytes -> Hash)
    requires env == Plain(sha)
    ensures Step(env, Exchange2(0, OnlyFees(0)), CREDIT_FEES) == Exchange2(0, OnlyFees(1))
  {
    FeesListed(OnlyFees(0));
    OneFeeCredited();
    Exchange2Stores(0, OnlyFees(0), 0, OnlyFees(1));
    Exchange2Storable(0, OnlyFees(1));
    DepositGoes(env, Exchange2(0, OnlyFees(0)), WITH_FEES, TokenDeposits(1, [Adjustment(FEE_WALLET, 1)]), OnlyFees(0),
        OnlyFees(1));
  }

  /** A withdrawal of 7 that nobody made, with a fee of 1 from a wallet of the
      second token that is not assigned. */
  const UNMATCHED: Withdrawal := Withdrawal(WALLET, 7, 3, AddressIndex(50, [0, 0, 0, 0]), 1)
  const ROLLING_BACK2: seq<Meta> :=
      [Meta(P, true, false), Meta(W, false, true), Meta(K, false, true), Meta(F, false, true)]
  const ROLL_BACK_UNMATCHED: Tx := TxOf(ROLLING_BACK2, RollbackBatchWithdraw([TokenWithdrawals(2, [UNMATCHED])]))

  /** The fee account after it: the fee is in slot 50. */
  function Strayed(): TokenState {
    SetAmount(OnlyFees(0), 50, 1)
  }

  /** A refund to one account, with its fee from another. */
  lemma RefundedIf(w: World, metas: seq<Meta>, account: u8, d: Withdrawal, feeAddress: Bytes,
                   t: TokenState, t': TokenState, i: nat, f: TokenState, f1: TokenState, f': TokenState)
    requires account as nat < |metas| && At(w, metas[account].key) == Token(t) && ValidatedIndex(t, d.address) == Ok(i)
    requires Credit(t, i, d.amount) == Ok(t') && d.feeAmount > 0
    requires ExpectToken(w, metas, d.feeAccount, true) == Ok(f) && metas[d.feeAccount].key != metas[account].key
    requires 0 < |f.slots| && UpToNul(f.slots[0].address) == feeAddress
    requires Debit(f, 0, d.feeAmount) == Ok(f1) && Credit(f1, d.feeAddress.index, d.feeAmount) == Ok(f')
    requires 0 < |metas| && metas[account].key != metas[0].key
    ensures RefundOne(w, metas, account, d, feeAddress)
        == Ok(w[metas[account].key := Token(t')][metas[d.feeAccount].key := Token(f')])
  {
    var w1 := w[metas[account].key := Token(t')];
    assert ExpectToken(w1, metas, d.feeAccount, true) == Ok(f);
  }

  lemma UnmatchedListed()
    ensures var w := Exchange2(0, OnlyFees(1));
            && At(w, K) == Token(Coins(0, 0)) && ExpectToken(w, ROLLING_BACK2, 2, true) == Ok(Coins(0, 0))
            && ExpectToken(w, ROLLING_BACK2, 3, true) == Ok(OnlyFees(1))
  {
    Exchange2At(0, OnlyFees(1));
  }

  lemma FeeStrays()
    ensures Debit(OnlyFees(1), 0, 1) == Ok(OnlyFees(0)) && Credit(OnlyFees(0), 50, 1) == Ok(Strayed())
    ensures |OnlyFees(1).slots| == 101 && UpToNul(OnlyFees(1).slots[0].address) == FEE
  {
    Texts();
    FeesAt(1, 0);
    FeesAt(0, 0);
    NoWrap(0, 1);
  }

  lemma UnmatchedRefunded()
    ensures RefundOne(Exchange2(0, OnlyFees(1)), ROLLING_BACK2, 2, UNMATCHED, FEE) == Ok(Exchange2(7, Strayed()))
  {
    KeysDiffer();
    UnmatchedListed();
    CoinsIndexes(0, 0);
    WalletCredited(0, 0, 7, 7);
    FeeStrays();
    Exchange2Stores(0, OnlyFees(1), 7, OnlyFees(1));
    Exchange2Stores(7, OnlyFees(1), 7, Strayed());
    RefundedIf(Exchange2(0, OnlyFees(1)), ROLLING_BACK2, 2, UNMATCHED, FEE, Coins(0, 0), Coins(0, 7), 1,
               OnlyFees(1), OnlyFees(0), Strayed());
  }

  lemma OneRefunded(w: World, w': World, metas: seq<Meta>, account: u8, d: Withdrawal, feeAddress: Bytes)
    requires ExpectToken(w, metas, account, true).Ok? && RefundOne(w, metas, account, d, feeAddress) == Ok(w')
    ensures RefundAll(w, metas, [TokenWithdrawals(account, [d])], feeAddress) == Ok(w')
  {
    assert [d][1..] == [] && [TokenWithdrawals(account, [d])][1..] == [];
    assert RefundToken(w, metas, account, [d], feeAddress) == RefundToken(w', metas, account, [], feeAddress);
  }

  /** A rollback of one withdrawal. */
  lemma RollbackGoes(env: Env, w: World, metas: seq<Meta>, account: u8, d: Withdrawal, p: ProgramState, w': World)
    requires WithdrawalFits(d) && ExpectProgram(w, metas, false, Some(1)) == Ok(p)
        && ExpectWithdraw(w, metas, false).Ok?
    requires ExpectToken(w, metas, account, true).Ok?
        && RefundOne(w, metas, account, d, UpToNul(p.feeAccount)) == Ok(w')
    requires Storable(w'[metas[1].key := Withdraw(metas[0].key, EMPTY_HASH)])
    ensures var tx := TxOf(metas, RollbackBatchWithdraw([TokenWithdrawals(account, [d])]));
            Succeeds(env, w, tx) && Step(env, w, tx) == w'[metas[1].key := Withdraw(metas[0].key, EMPTY_HASH)]
  {
    OneRefunded(w, w', metas, account, d, UpToNul(p.feeAccount));
    Goes(env, w, metas, RollbackBatchWithdraw([TokenWithdrawals(account, [d])]),
        w'[metas[1].key := Withdraw(metas[0].key, EMPTY_HASH)]);
  }

  lemma ProgramListed()
    ensures var w := Exchange2(0, OnlyFees(1));
            ExpectProgram(w, ROLLING_BACK2, false, Some(1)) == Ok(STATE) && ExpectWithdraw(w, ROLLING_BACK2, false).Ok?
    ensures UpToNul(STATE.feeAccount) == FEE
  {
    Texts();
    Exchange2At(0, OnlyFees(1));
  }

  lemma UnmatchedRolledBack(env: Env, sha: Bytes -> Hash)
    requires env == Plain(sha)
    ensures Succeeds(env, Exchange2(0, OnlyFees(1)), ROLL_BACK_UNMATCHED)
    ensures Step(env, Exchange2(0, OnlyFees(1)), ROLL_BACK_UNMATCHED) == Exchange2(7, Strayed())
  {
    ProgramListed();
    UnmatchedListed();
    UnmatchedRefunded();
    Exchange2Stores(7, Strayed(), 7, Strayed());
    Exchange2Storable(7, Strayed());
    RollbackGoes(env, Exchange2(0, OnlyFees(1)), ROLLING_BACK2, 2, UNMATCHED, STATE, Exchange2(7, Strayed()));
  }

  lemma Exchange2Money(y: u64, f: TokenState)
    ensures TotalMoney(Exchange2(y, f)) == y + Money(f)
  {
    KeysDiffer();
    ExchangeMoney(STATE, EMPTY_HASH, 0, y);
    StoreMoney(Exchange(STATE, EMPTY_HASH, 0, y), F, Token(f));
  }

  lemma FeesMoney()
    ensures Money(OnlyFees(1)) == 1 && Money(Strayed()) == 1
  {
    NothingInNoSlots(100);
    assert [Slot(FEE, 1)][1..] == [] && [Slot(FEE, 0)][1..] == [];
    SlotSumAppend([Slot(FEE, 1)], NoSlots(100));
    SlotSumAppend([Slot(FEE, 0)], NoSlots(100));
    assert SlotSum([Slot(FEE, 1)]) == 1 + SlotSum([]) && SlotSum([Slot(FEE, 0)]) == 0 + SlotSum([]);
    FeesAt(0, 0);
    SlotSumSet(OnlyFees(0).slots, 50, Slot([], 1));
  }

  lemma FeesClean()
    ensures CleanTail(Coins(0, 0)) && CleanTail(OnlyFees(1)) && !CleanTail(Strayed())
  {
    FeesAt(0, 0);
    assert Strayed().slots[50] == Slot([], 1);
  }

  lemma Exchange2Clean()
    ensures Clean(Exchange2(0, OnlyFees(1))) && !Clean(Exchange2(7, Strayed()))
  {
    FeesClean();
    KeysDiffer();
    Exchange2At(7, Strayed());
    var a := At(Exchange2(7, Strayed()), F);
    assert a.Token? && !CleanTail(a.t);
  }

  lemma UnmatchedEnds()
    ensures At(Exchange2(0, OnlyFees(1)), W) == Withdraw(P, EMPTY_HASH)
    ensures TotalMoney(Exchange2(0, OnlyFees(1))) == 1 && TotalMoney(Exchange2(7, Strayed())) == 8
  {
    Exchange2At(0, OnlyFees(1));
    Exchange2Money(0, OnlyFees(1));
    Exchange2Money(7, Strayed());
    FeesMoney();
  }

  lemma UnmatchedRun(env: Env, sha: Bytes -> Hash)
    requires env == Plain(sha)
    ensures var txs := SetUp(0, 0) + [SET_UP_FEES] + [CREDIT_FEES];
            && Run(env, map[], txs) == Exchange2(0, OnlyFees(1))
            && Run(env, map[], txs + [ROLL_BACK_UNMATCHED]) == Exchange2(7, Strayed())
  {
    var txs := SetUp(0, 0) + [SET_UP_FEES] + [CREDIT_FEES];
    Reached(env, sha, 0, 0);
    FeesSetUp(env, sha);
    FeesDeposited(env, sha);
    UnmatchedRolledBack(env, sha);
    RunOn(env, map[], SetUp(0, 0), SET_UP_FEES);
    RunOn(env, map[], SetUp(0, 0) + [SET_UP_FEES], CREDIT_FEES);
    RunOn(env, map[], txs, ROLL_BACK_UNMATCHED);
  }

  /** A run from the ledger without accounts that rolls back a withdrawal while
      none is prepared: it goes through, 7 that nobody was charged appear in a
      wallet, and the fee of 1 ends up behind the assigned wallets. */
  lemma UnmatchedRollbackMints(env: Env, sha: Bytes -> Hash)
    requires env == Plain(sha)
    ensures var txs := SetUp(0, 0) + [SET_UP_FEES] + [CREDIT_FEES]; var w := Run(env, map[], txs);
            && At(w, W) == Withdraw(P, EMPTY_HASH) && Succeeds(env, w, ROLL_BACK_UNMATCHED)
            && TotalMoney(w) == 1 && TotalMoney(Run(env, map[], txs + [ROLL_BACK_UNMATCHED])) == 8
            && Clean(w) && !Clean(Run(env, map[], txs + [ROLL_BACK_UNMATCHED]))
  {
    UnmatchedRun(env, sha);
    UnmatchedRolledBack(env, sha);
    UnmatchedEnds();
    Exchange2Clean();
  }
}
