/** What each instruction of the Arch exchange program does to the accounts, as a
    function from the accounts before it to the accounts after it
    (program/src/lib.rs, model/src/state.rs).  The handlers themselves, over
    mutable accounts, are in ArchProgram. */
module ArchLedger {
  import opened Machine
  import opened Wrappers
  import opened ArchTypes
  import opened ArchCodec

  /** One entry of the account list of a transaction.  The same account may be
      listed more than once. */
  datatype Meta = Meta(key: Key, signer: bool, writable: bool)

  type World = map<Key, Account>

  datatype TxIn = StateInput(key: Key) | Funding(outpoint: Bytes)
  datatype TxOut = TxOut(value: u64, script: Bytes)
  datatype Edict = Edict(rune: RuneId, amount: nat, output: u32)
  datatype FundingTx = FundingTx(inputs: seq<Bytes>, outputs: nat)
  datatype InputToSign = InputToSign(index: nat, signer: Key)
  datatype ToSign = ToSign(inputs: seq<TxIn>, outputs: seq<TxOut>, edicts: seq<Edict>, signers: seq<InputToSign>)

  /** Foreign code: hashing, address and rune parsing, Bitcoin decoding, and the
      order in which a hash set of rune ids is visited. */
  datatype Env = Env(
    sha: Bytes -> Hash,
    parses: Bytes -> bool,
    onNetwork: (Bytes, Network) -> bool,
    script: (Bytes, Network) -> Bytes,
    rune: Bytes -> Option<RuneId>,
    fundingTx: Bytes -> Option<FundingTx>,
    txIdParses: Bytes -> bool,
    accountScript: Key -> Bytes,
    stateValue: Key -> u64,
    runestone: seq<Edict> -> Bytes,
    order: set<RuneId> -> seq<RuneId>)

  function At(w: World, k: Key): Account {
    if k in w then w[k] else Empty
  }

  function SizeOf(a: Account): nat {
    match a
    case Empty => 0
    case Program(p) => if p.runeReceiver.None? then RUNE_RECEIVER_OFFSET else RUNE_RECEIVER_OFFSET + 32
    case Token(t) => t.size
    case Withdraw(_, _) => 69
    case RuneReceiver(_) => 37
  }

  // ---------------------------------------------------------------------------
  // Account checks
  // ---------------------------------------------------------------------------

  datatype Kind = ProgramKind | TokenKind | WithdrawKind | RuneReceiverKind

  predicate IsKind(a: Account, kind: Kind) {
    match kind
    case ProgramKind => a.Program?
    case TokenKind => a.Token?
    case WithdrawKind => a.Withdraw?
    case RuneReceiverKind => a.RuneReceiver?
  }

  /** The key of the account that this one is bound to. */
  function RelatedKey(a: Account): Key
    requires !a.Empty?
  {
    match a
    case Program(p) => p.withdrawAccount
    case Token(t) => t.program
    case Withdraw(program, _) => program
    case RuneReceiver(program) => program
  }

  function Flagged(w: World, metas: seq<Meta>, index: nat, signer: bool, writable: bool): Result<Account> {
    if index >= |metas| then Err(Custom(ERROR_INVALID_ACCOUNT_INDEX))
    else if metas[index].signer != signer || metas[index].writable != writable
    then Err(Custom(ERROR_INVALID_ACCOUNT_FLAGS))
    else Ok(At(w, metas[index].key))
  }

  /** validate_account without an account type. */
  function ExpectEmpty(w: World, metas: seq<Meta>, index: nat, signer: bool, writable: bool): Result<()> {
    var a :- Flagged(w, metas, index, signer, writable);
    if a.Empty? then Ok(()) else Err(Custom(ERROR_ALREADY_INITIALIZED))
  }

  /** validate_account with an account type.  Reading the type byte of an empty
      account is out of bounds. */
  function Expect(w: World, metas: seq<Meta>, index: nat, signer: bool, writable: bool,
                  kind: Kind, related: Option<nat>): (r: Result<Account>)
    ensures r.Ok? ==> index < |metas| && r.value == At(w, metas[index].key) && IsKind(r.value, kind)
    ensures r.Ok? && related.Some? ==> related.value < |metas| && RelatedKey(r.value) == metas[related.value].key
  {
    var a :- Flagged(w, metas, index, signer, writable);
    if a.Empty? then Err(Panic)
    else if !IsKind(a, kind) then Err(Custom(ERROR_INVALID_ACCOUNT_TYPE))
    else if related.None? then Ok(a)
    else if related.value >= |metas| then Err(Panic)
    else if RelatedKey(a) != metas[related.value].key then Err(Custom(ERROR_STATE_ACCOUNT_MISMATCH))
    else Ok(a)
  }

  function ExpectToken(w: World, metas: seq<Meta>, index: nat, writable: bool): (r: Result<TokenState>)
    ensures r.Ok? ==> index < |metas| && At(w, metas[index].key) == Token(r.value) && r.value.program == metas[0].key
  {
    var a :- Expect(w, metas, index, false, writable, TokenKind, Some(0));
    Ok(a.t)
  }

  function ExpectProgram(w: World, metas: seq<Meta>, writable: bool, related: Option<nat>): (r: Result<ProgramState>)
    ensures r.Ok? ==> 0 < |metas| && At(w, metas[0].key) == Program(r.value)
  {
    var a :- Expect(w, metas, 0, true, writable, ProgramKind, related);
    Ok(a.p)
  }

  /** The withdraw account, which must be bound to the first account. */
  function ExpectWithdraw(w: World, metas: seq<Meta>, signer: bool): (r: Result<Hash>)
    ensures r.Ok? ==> 1 < |metas| && At(w, metas[1].key) == Withdraw(metas[0].key, r.value)
  {
    var a :- Expect(w, metas, 1, signer, true, WithdrawKind, Some(0));
    Ok(a.hash)
  }

  /** Does the third account collect rune change? */
  function HasReceiver(w: World, metas: seq<Meta>, signer: bool): (r: Result<bool>)
    ensures r.Ok? ==> 2 < |metas|
  {
    if |metas| < 3 || At(w, metas[2].key).Empty? then Err(Panic)
    else if !At(w, metas[2].key).RuneReceiver? then Ok(false)
    else var _ :- Expect(w, metas, 2, signer, false, RuneReceiverKind, Some(0)); Ok(true)
  }

  function ValidAddress(env: Env, address: Bytes, network: Network, strict: bool): Result<()> {
    if !env.parses(address) then Err(Custom(ERROR_INVALID_ADDRESS))
    else if (strict || network == Bitcoin) && !env.onNetwork(address, network)
    then Err(Custom(ERROR_INVALID_ADDRESS_NETWORK))
    else Ok(())
  }

  // ---------------------------------------------------------------------------
  // Balance slots
  // ---------------------------------------------------------------------------

  function SetAmount(t: TokenState, i: nat, v: u64): TokenState
    requires i < |t.slots|
  {
    t.(slots := t.slots[i := t.slots[i].(amount := v)])
  }

  /** increment_wallet_balance: a slot outside the data is a panic, and the sum
      wraps around. */
  function Credit(t: TokenState, i: nat, amount: u64): Result<TokenState> {
    if i >= |t.slots| then Err(Panic) else Ok(SetAmount(t, i, WrapAdd(t.slots[i].amount, amount)))
  }

  /** decrement_wallet_balance. */
  function Debit(t: TokenState, i: nat, amount: u64): Result<TokenState> {
    if i >= |t.slots| then Err(Panic)
    else if amount > t.slots[i].amount then Err(Custom(ERROR_INSUFFICIENT_BALANCE))
    else Ok(SetAmount(t, i, t.slots[i].amount - amount))
  }

  /** The last four bytes of a stored address; a shorter address is a panic. */
  function Last4(address: Bytes): Result<Bytes> {
    var s := UpToNul(address);
    if |s| < 4 then Err(Panic) else Ok(s[|s| - 4..])
  }

  function ValidatedIndex(t: TokenState, a: AddressIndex): (r: Result<nat>)
    ensures r.Ok? ==> r.value == a.index < t.count && a.index < |t.slots|
  {
    if a.index >= t.count then Err(Custom(ERROR_INVALID_ADDRESS_INDEX))
    else if a.index >= |t.slots| then Err(Panic)
    else
      var last4 :- Last4(t.slots[a.index].address);
      if last4 != a.last4 then Err(Custom(ERROR_WALLET_LAST4_MISMATCH)) else Ok(a.index)
  }

  function TokenName(t: TokenState): Bytes {
    UpToNul(t.tokenId)
  }

  /** Rune tokens still waiting for their id have block 0. */
  predicate CanWithdraw(env: Env, t: TokenState) {
    var r := env.rune(TokenName(t));
    r.None? || r.value.block != 0
  }

  function ValidatedWithdrawIndex(env: Env, t: TokenState, a: AddressIndex, network: Network): (r: Result<nat>)
    ensures r.Ok? ==> r == ValidatedIndex(t, a)
    ensures r.Ok? ==> ValidAddress(env, UpToNul(t.slots[r.value].address), network, true).Ok?
  {
    var i :- ValidatedIndex(t, a);
    var _ :- ValidAddress(env, UpToNul(t.slots[i].address), network, true);
    if CanWithdraw(env, t) then Ok(i) else Err(Custom(ERROR_WITHDRAWAL_NOT_ALLOWED))
  }

  function AdjustOne(t: TokenState, a: Adjustment, increment: bool): Result<TokenState> {
    var i :- ValidatedIndex(t, a.address);
    if increment then Credit(t, i, a.amount) else Debit(t, i, a.amount)
  }

  function Adjust(t: TokenState, adjs: seq<Adjustment>, increment: bool): Result<TokenState>
    decreases |adjs|
  {
    if adjs == [] then Ok(t) else
    var t' :- AdjustOne(t, adjs[0], increment);
    Adjust(t', adjs[1..], increment)
  }

  // ---------------------------------------------------------------------------
  // The event region
  // ---------------------------------------------------------------------------

  function WriteEvent(e: Event): (s: Bytes)
    ensures |s| == EVENT_SIZE
  {
    match e
    case FailedSettlement(account, address, requested, balance, code) =>
      [0, account] + ToLE(address, 4) + ToLE(requested, 8) + ToLE(balance, 8) + ToLE(code, 4) + Zeros(38)
    case FailedWithdrawal(account, address, feeAccount, feeAddress, requested, fee, balance, feeBalance, code) =>
      [1, account] + ToLE(address, 4) + [feeAccount] + ToLE(feeAddress, 4) + ToLE(requested, 8)
      + ToLE(fee, 8) + ToLE(balance, 8) + ToLE(feeBalance, 8) + ToLE(code, 4) + Zeros(17)
  }

  function WriteEvents(es: seq<Event>): (s: Bytes)
    ensures |s| == EVENT_SIZE * |es|
  {
    if es == [] then [] else WriteEvent(es[0]) + WriteEvents(es[1..])
  }

  /** Only the count is reset; the bytes stay behind. */
  function ClearEvents(p: ProgramState): ProgramState {
    p.(events := [], stale := WriteEvents(p.events) + p.stale)
  }

  function EmitEvent(p: ProgramState, e: Event): Result<ProgramState> {
    if |p.events| == MAX_EVENTS then Err(Custom(ERROR_VALUE_TOO_LARGE))
    else Ok(p.(events := p.events + [e], stale := if |p.stale| < EVENT_SIZE then [] else p.stale[EVENT_SIZE..]))
  }

  // ---------------------------------------------------------------------------
  // Setting up accounts
  // ---------------------------------------------------------------------------

  /** Where slot `i` begins: BALANCES_OFFSET + i * BALANCE_SIZE. */
  function SlotOffset(i: nat): nat {
    73 + 100 * i
  }

  /** How many whole slots fit into data of this size. */
  function SlotsIn(size: nat): nat {
    if size < 73 then 0 else (size - 73) / 100
  }

  function NoSlots(n: int): seq<Slot> {
    if n <= 0 then [] else seq(n, _ => NO_SLOT)
  }

  /** grow_balance_accounts_if_needed: room for one more step of growth beyond the
      length that the account had when the transaction began, filled with zeros. */
  function Grow(t: TokenState, originalSize: nat, additional: nat): TokenState {
    var size := originalSize + MAX_PERMITTED_DATA_INCREASE;
    if SlotOffset(t.count + additional) <= originalSize || size == t.size then t
    else t.(size := size, slots := t.slots + NoSlots(SlotsIn(size) - |t.slots|))
  }

  /** set_wallet_address: an address that does not fit is an error, a slot outside
      the data is a panic; the amount in the slot stays. */
  function SetAddress(t: TokenState, i: nat, address: Bytes): Result<TokenState> {
    if |address| >= MAX_ADDRESS_SIZE then Err(Custom(ERROR_VALUE_TOO_LARGE))
    else if i >= |t.slots| then Err(Panic)
    else Ok(t.(slots := t.slots[i := t.slots[i].(address := address)]))
  }

  function SetAddresses(env: Env, t: TokenState, i: nat, wallets: seq<Bytes>, network: Network): Result<TokenState>
    decreases |wallets|
  {
    if wallets == [] then Ok(t) else
    var _ :- ValidAddress(env, wallets[0], network, false);
    var t' :- SetAddress(t, i, wallets[0]);
    SetAddresses(env, t', i + 1, wallets[1..], network)
  }

  /** Grow if needed, write the addresses, and store the new count as a u32. */
  function AddWallets(env: Env, t: TokenState, originalSize: nat, wallets: seq<Bytes>,
                      network: Network): Result<TokenState> {
    var t' :- SetAddresses(env, Grow(t, originalSize, |wallets|), t.count, wallets, network);
    Ok(t'.(count := (t.count + |wallets|) % U32))
  }

  function InitToken(env: Env, w: World, metas: seq<Meta>, tokenId: Bytes): Result<World> {
    var p :- ExpectProgram(w, metas, false, None);
    var _ :- ExpectEmpty(w, metas, 1, false, true);
    if |tokenId| >= MAX_TOKEN_ID_SIZE then Err(Custom(ERROR_VALUE_TOO_LARGE)) else
    var t := TokenState(metas[0].key, tokenId, 0, NoSlots(SlotsIn(MAX_PERMITTED_DATA_INCREASE)),
        MAX_PERMITTED_DATA_INCREASE);
    if env.rune(tokenId).Some? then Ok(w[metas[1].key := Token(t)]) else
    var t' :- SetAddress(t.(count := 1), 0, UpToNul(p.feeAccount));
    Ok(w[metas[1].key := Token(t')])
  }

  function SetRuneId(env: Env, w: World, metas: seq<Meta>, runeId: Bytes): Result<World> {
    var _ :- ExpectProgram(w, metas, false, None);
    var t :- ExpectToken(w, metas, 1, true);
    if env.rune(runeId).None? then Err(Custom(ERROR_INVALID_RUNE_ID))
    else if |runeId| >= MAX_TOKEN_ID_SIZE then Err(Custom(ERROR_VALUE_TOO_LARGE))
    else Ok(w[metas[1].key := Token(t.(tokenId := runeId))])
  }

  /** `original` is the world as the transaction began. */
  function SetUpTokens(env: Env, original: World, w: World, metas: seq<Meta>, setups: seq<TokenSetup>,
                       network: Network): Result<World>
    decreases |setups|
  {
    if setups == [] then Ok(w) else
    var t :- ExpectToken(w, metas, setups[0].account, true);
    var key := metas[setups[0].account].key;
    var t' :- AddWallets(env, t, SizeOf(At(original, key)), setups[0].wallets, network);
    SetUpTokens(env, original, w[key := Token(t')], metas, setups[1..], network)
  }

  function InitWallets(env: Env, w: World, metas: seq<Meta>, setups: seq<TokenSetup>): Result<World> {
    var p :- ExpectProgram(w, metas, false, None);
    SetUpTokens(env, w, w, metas, setups, p.network)
  }

  function NewProgram(withdrawAccount: Key, feeAccount: Bytes, changeAddress: Bytes, network: Network): ProgramState {
    ProgramState(withdrawAccount, feeAccount, changeAddress, network, EMPTY_HASH, EMPTY_HASH, [],
                 Zeros(EVENT_SIZE * MAX_EVENTS), None)
  }

  /** RuneReceiverState::initialize(accounts, 1), for an empty second account. */
  function AddReceiver(w: World, metas: seq<Meta>, p: ProgramState): World
    requires |metas| > 1
  {
    var w' := w[metas[1].key := RuneReceiver(metas[0].key)];
    if p.runeReceiver.None? then w'[metas[0].key := Program(p.(runeReceiver := Some(metas[1].key)))] else w'
  }

  /** With three accounts the code sizes the second account but types the third,
      which goes through only when they are the same account. */
  function InitProgram(env: Env, w: World, metas: seq<Meta>, feeAccount: Bytes, changeAddress: Bytes,
                       network: Network): Result<World> {
    var _ :- ExpectEmpty(w, metas, 0, true, true);
    var _ :- ExpectEmpty(w, metas, 1, false, true);
    var _ :- if |metas| == 3 then ExpectEmpty(w, metas, 2, false, true) else Ok(());
    var _ :- ValidAddress(env, changeAddress, network, true);
    var _ :- ValidAddress(env, feeAccount, network, true);
    if |feeAccount| > MAX_ADDRESS_SIZE || |changeAddress| > MAX_ADDRESS_SIZE then Err(Panic) else
    var p := NewProgram(metas[1].key, feeAccount, changeAddress, network);
    var w' := w[metas[0].key := Program(p)];
    if |metas| == 3 then
      if metas[2].key != metas[1].key then Err(Panic) else Ok(AddReceiver(w', metas, p))
    else Ok(w'[metas[1].key := Withdraw(metas[0].key, EMPTY_HASH)])
  }

  function InitRuneReceiver(w: World, metas: seq<Meta>): Result<World> {
    var p :- ExpectProgram(w, metas, true, None);
    var _ :- ExpectEmpty(w, metas, 1, false, true);
    Ok(AddReceiver(w, metas, p))
  }

  // ---------------------------------------------------------------------------
  // Deposits and settlement
  // ---------------------------------------------------------------------------

  function DepositAll(w: World, metas: seq<Meta>, ds: seq<TokenDeposits>): Result<World>
    decreases |ds|
  {
    if ds == [] then Ok(w) else
    var t :- ExpectToken(w, metas, ds[0].account, true);
    var t' :- Adjust(t, ds[0].deposits, true);
    DepositAll(w[metas[ds[0].account].key := Token(t')], metas, ds[1..])
  }

  function DepositBatch(w: World, metas: seq<Meta>, ds: seq<TokenDeposits>): Result<World> {
    var _ :- ExpectProgram(w, metas, false, None);
    DepositAll(w, metas, ds)
  }

  /** Reinterpret a u64 as an i64, and any integer as the i64 it wraps to. */
  function ToI64(x: int): int {
    (x + 0x8000_0000_0000_0000) % U64 - 0x8000_0000_0000_0000
  }

  datatype Tally = Tally(total: u64, p: ProgramState)

  /** verify_decrements: sums the amounts and reports each one that the balance it
      names does not cover. */
  function VerifyDecrements(t: TokenState, account: u8, adjs: seq<Adjustment>, y: Tally): Result<Tally>
    decreases |adjs|
  {
    if adjs == [] then Ok(y) else
    var a := adjs[0];
    var i :- ValidatedIndex(t, a.address);
    var balance := t.slots[i].amount;
    var p :- if a.amount > balance
             then EmitEvent(y.p,
                 FailedSettlement(account, a.address.index, a.amount, balance, ERROR_INSUFFICIENT_BALANCE))
             else Ok(y.p);
    VerifyDecrements(t, account, adjs[1..], Tally(WrapAdd(y.total, a.amount), p))
  }

  function VerifyIncrements(t: TokenState, adjs: seq<Adjustment>, total: u64): Result<u64>
    decreases |adjs|
  {
    if adjs == [] then Ok(total) else
    var _ :- ValidatedIndex(t, adjs[0].address);
    VerifyIncrements(t, adjs[1..], WrapAdd(total, adjs[0].amount))
  }

  datatype Netting = Netting(total: int, p: ProgramState)

  /** The running i64 total, behind one more settlement. */
  function NetOf(total: int, credits: u64, fee: u64, debits: u64): int {
    ToI64(total + ToI64(ToI64(WrapAdd(credits, fee)) - ToI64(debits)))
  }

  /** One settlement of a batch: its decrements and increments, and the running total. */
  function VerifySettlement(t: TokenState, s: Settlement, n: Netting): Result<Netting> {
    var debits :- VerifyDecrements(t, s.account, s.decrements, Tally(0, n.p));
    var credits :- VerifyIncrements(t, s.increments, 0);
    Ok(Netting(NetOf(n.total, credits, s.feeAmount, debits.total), debits.p))
  }

  function VerifySettlements(w: World, metas: seq<Meta>, ss: seq<Settlement>, n: Netting): Result<Netting>
    decreases |ss|
  {
    if ss == [] then Ok(n) else
    var t :- ExpectToken(w, metas, ss[0].account, false);
    var n' :- VerifySettlement(t, ss[0], n);
    VerifySettlements(w, metas, ss[1..], n')
  }

  function PrepareSettlement(env: Env, w: World, metas: seq<Meta>, ss: seq<Settlement>, raw: Bytes): Result<World> {
    var p :- ExpectProgram(w, metas, true, None);
    if p.settlementHash != EMPTY_HASH then Err(Custom(ERROR_SETTLEMENT_IN_PROGRESS)) else
    var n :- VerifySettlements(w, metas, ss, Netting(0, ClearEvents(p)));
    if n.total != 0 then Err(Custom(ERROR_NETTING)) else
    Ok(w[metas[0].key := Program(if n.p.events == [] then n.p.(settlementHash := env.sha(raw)) else n.p)])
  }

  /** The fee goes to slot 0, whatever address is there. */
  function CreditFee(t: TokenState, fee: u64): Result<TokenState> {
    if fee == 0 then Ok(t)
    else if |t.slots| == 0 then Err(Panic)
    else
      var last4 :- Last4(t.slots[0].address);
      Adjust(t, [Adjustment(AddressIndex(0, last4), fee)], true)
  }

  function SettleToken(t: TokenState, s: Settlement): Result<TokenState> {
    var t1 :- CreditFee(t, s.feeAmount);
    var t2 :- Adjust(t1, s.increments, true);
    Adjust(t2, s.decrements, false)
  }

  function SettleAll(w: World, metas: seq<Meta>, ss: seq<Settlement>): Result<World>
    decreases |ss|
  {
    if ss == [] then Ok(w) else
    var t :- ExpectToken(w, metas, ss[0].account, true);
    var t' :- SettleToken(t, ss[0]);
    SettleAll(w[metas[ss[0].account].key := Token(t')], metas, ss[1..])
  }

  function SubmitSettlement(env: Env, w: World, metas: seq<Meta>, ss: seq<Settlement>, raw: Bytes): Result<World> {
    var p :- ExpectProgram(w, metas, true, None);
    if p.settlementHash == EMPTY_HASH then Err(Custom(ERROR_NO_SETTLEMENT_IN_PROGRESS))
    else if p.settlementHash != env.sha(raw) then Err(Custom(ERROR_SETTLEMENT_BATCH_MISMATCH))
    else
      var w' :- SettleAll(w, metas, ss);
      Ok(w'[metas[0].key := Program(p.(lastSettlementHash := env.sha(raw), settlementHash := EMPTY_HASH))])
  }

  function RollbackSettlement(w: World, metas: seq<Meta>): Result<World> {
    var p :- ExpectProgram(w, metas, true, None);
    Ok(w[metas[0].key := Program(p.(settlementHash := EMPTY_HASH))])
  }

  // ---------------------------------------------------------------------------
  // Withdrawals
  // ---------------------------------------------------------------------------

  /** verify_withdrawals, one entry: nothing, the event that reports why the
      withdrawal cannot be made, or an error that fails the instruction.  A bad
      wallet index is reported; a bad fee index is an error. */
  function VerifyOne(env: Env, w: World, metas: seq<Meta>, account: u8, t: TokenState, d: Withdrawal,
                     network: Network): Result<Option<Event>> {
    var index := ValidatedWithdrawIndex(env, t, d.address, network);
    if index.Err? && !index.error.Custom? then Err(index.error) else
    var feeToken :- ExpectToken(w, metas, d.feeAccount, true);
    match index
    case Err(e) =>
      Ok(Some(FailedWithdrawal(account, d.address.index, d.feeAccount, d.feeAddress.index, d.amount, d.feeAmount, 0, 0,
          e.code % U32)))
    case Ok(i) =>
      var feeIndex :- ValidatedWithdrawIndex(env, feeToken, d.feeAddress, network);
      var balance, feeBalance := t.slots[i].amount, feeToken.slots[feeIndex].amount;
      Ok(if d.amount > balance || d.feeAmount > feeBalance
         then Some(FailedWithdrawal(account, d.address.index, d.feeAccount, d.feeAddress.index, d.amount, d.feeAmount,
                                    balance, feeBalance, ERROR_INSUFFICIENT_BALANCE))
         else None)
  }

  function Report(p: ProgramState, e: Option<Event>): Result<ProgramState> {
    if e.None? then Ok(p) else EmitEvent(p, e.value)
  }

  function VerifyToken(env: Env, w: World, metas: seq<Meta>, account: u8, t: TokenState, ds: seq<Withdrawal>,
                       network: Network, p: ProgramState): Result<ProgramState>
    decreases |ds|
  {
    if ds == [] then Ok(p) else
    var e :- VerifyOne(env, w, metas, account, t, ds[0], network);
    var p' :- Report(p, e);
    VerifyToken(env, w, metas, account, t, ds[1..], network, p')
  }

  function VerifyWithdrawals(env: Env, w: World, metas: seq<Meta>, tokens: seq<TokenWithdrawals>, network: Network,
                             p: ProgramState): Result<ProgramState>
    decreases |tokens|
  {
    if tokens == [] then Ok(p) else
    var t :- ExpectToken(w, metas, tokens[0].account, true);
    var p' :- VerifyToken(env, w, metas, tokens[0].account, t, tokens[0].withdrawals, network, p);
    VerifyWithdrawals(env, w, metas, tokens[1..], network, p')
  }

  /** What a batch pays out: transaction outputs, and edicts that move runes to
      the output they name. */
  datatype Payout = Payout(outputs: seq<TxOut>, edicts: seq<Edict>)

  const NO_PAYOUT: Payout := Payout([], [])

  /** add_edict_and_output. */
  function PayRune(o: Payout, rune: RuneId, script: Bytes, amount: u64): Payout {
    Payout(o.outputs + [TxOut(DUST_THRESHOLD, script)], o.edicts + [Edict(rune, amount, |o.outputs| % U32)])
  }

  /** add_withdrawal_output. */
  function Pay(env: Env, t: TokenState, d: Withdrawal, network: Network, o: Payout): Result<Payout> {
    if d.address.index >= |t.slots| then Err(Panic) else
    var address := UpToNul(t.slots[d.address.index].address);
    if !env.parses(address) || !env.onNetwork(address, network) then Err(Panic) else
    var script := env.script(address, network);
    match env.rune(TokenName(t))
    case Some(rune) => Ok(PayRune(o, rune, script, d.amount))
    case None => Ok(o.(outputs := o.outputs + [TxOut(WrapSub(d.amount, d.feeAmount), script)]))
  }

  /** The token state of an account that an earlier check has seen to be one. */
  function TokenAt(w: World, metas: seq<Meta>, index: nat): (r: Result<TokenState>)
    ensures r.Ok? ==> index < |metas| && At(w, metas[index].key) == Token(r.value)
  {
    if index >= |metas| || !At(w, metas[index].key).Token? then Err(Panic) else Ok(At(w, metas[index].key).t)
  }

  /** The fee of a withdrawal is credited to slot 0 of the fee account, and taken
      from there too unless the fee account is the account withdrawn from. */
  function ChargeFee(w: World, metas: seq<Meta>, account: u8, d: Withdrawal, feeAddress: Bytes): Result<World> {
    if d.feeAmount == 0 then Ok(w) else
    var f :- TokenAt(w, metas, d.feeAccount);
    if |f.slots| == 0 then Err(Panic)
    else if UpToNul(f.slots[0].address) != feeAddress then Err(Custom(ERROR_ADDRESS_MISMATCH)) else
    var f1 :- Credit(f, 0, d.feeAmount);
    var f2 :- if account as nat < |metas| && metas[d.feeAccount].key == metas[account].key then Ok(f1)
              else Debit(f1, d.feeAddress.index, d.feeAmount);
    Ok(w[metas[d.feeAccount].key := Token(f2)])
  }

  function ChargeOne(w: World, metas: seq<Meta>, account: u8, d: Withdrawal, feeAddress: Bytes): Result<World> {
    var t :- TokenAt(w, metas, account);
    var t' :- Debit(t, d.address.index, d.amount);
    ChargeFee(w[metas[account].key := Token(t')], metas, account, d, feeAddress)
  }

  datatype Draft = Draft(w: World, o: Payout)

  function PrepareOne(env: Env, x: Draft, metas: seq<Meta>, account: u8, d: Withdrawal, feeAddress: Bytes,
                      network: Network): Result<Draft> {
    var w' :- ChargeOne(x.w, metas, account, d, feeAddress);
    var t :- TokenAt(w', metas, account);
    var o :- Pay(env, t, d, network, x.o);
    Ok(Draft(w', o))
  }

  function PrepareToken(env: Env, x: Draft, metas: seq<Meta>, account: u8, ds: seq<Withdrawal>, feeAddress: Bytes,
                        network: Network): Result<Draft>
    decreases |ds|
  {
    if ds == [] then Ok(x) else
    var x' :- PrepareOne(env, x, metas, account, ds[0], feeAddress, network);
    PrepareToken(env, x', metas, account, ds[1..], feeAddress, network)
  }

  function PrepareAll(env: Env, x: Draft, metas: seq<Meta>, tokens: seq<TokenWithdrawals>, feeAddress: Bytes,
                      network: Network): Result<Draft>
    decreases |tokens|
  {
    if tokens == [] then Ok(x) else
    var x' :- PrepareToken(env, x, metas, tokens[0].account, tokens[0].withdrawals, feeAddress, network);
    PrepareAll(env, x', metas, tokens[1..], feeAddress, network)
  }

  /** The part of prepare_withdraw_batch before any balance is touched: the
      program state with the report in it. */
  function CheckWithdraw(env: Env, w: World, metas: seq<Meta>, b: WithdrawBatch): Result<ProgramState> {
    var p :- ExpectProgram(w, metas, true, Some(1));
    var hash :- ExpectWithdraw(w, metas, false);
    var _ :- HasReceiver(w, metas, false);
    if p.settlementHash != EMPTY_HASH then Err(Custom(ERROR_SETTLEMENT_IN_PROGRESS))
    else if hash != EMPTY_HASH then Err(Custom(ERROR_WITHDRAWAL_IN_PROGRESS))
    else
      match env.fundingTx(b.tx)
      case None => Err(Custom(ERROR_INVALID_INPUT_TX))
      case Some(tx) =>
        if tx.outputs > 0 then Err(Custom(ERROR_NO_OUTPUTS_ALLOWED))
        else if |tx.inputs| != |b.inputTypes| then Err(Custom(ERROR_INVALID_UTXO_TYPES))
        else VerifyWithdrawals(env, w, metas, b.tokens, p.network, ClearEvents(p))
  }

  /** The rest of it, for a batch with nothing to report. */
  function DraftWithdraw(env: Env, w: World, metas: seq<Meta>, b: WithdrawBatch, p: ProgramState): Result<Draft> {
    var hasReceiver :- HasReceiver(w, metas, false);
    var x :- PrepareAll(env, Draft(w, NO_PAYOUT), metas, b.tokens, UpToNul(p.feeAccount), p.network);
    if x.o.edicts != [] && !hasReceiver then Err(Custom(ERROR_NO_RUNE_RECEIVER))
    else if x.o.outputs == [] then Err(Custom(ERROR_NO_TX_OUTPUTS))
    else Ok(x)
  }

  function PrepareWithdraw(env: Env, w: World, metas: seq<Meta>, b: WithdrawBatch, raw: Bytes): Result<World> {
    var p :- CheckWithdraw(env, w, metas, b);
    var _ :- ExpectWithdraw(w, metas, false);
    var w' := w[metas[0].key := Program(p)];
    if p.events != [] then Ok(w') else
    var x :- DraftWithdraw(env, w', metas, b, p);
    Ok(x.w[metas[1].key := Withdraw(metas[0].key, env.sha(raw))])
  }

  // Submitting ------------------------------------------------------------------

  function PayToken(env: Env, w: World, metas: seq<Meta>, t: TokenState, ds: seq<Withdrawal>, network: Network,
                    o: Payout): Result<Payout>
    decreases |ds|
  {
    if ds == [] then Ok(o) else
    var _ :- ExpectToken(w, metas, ds[0].feeAccount, false);
    var _ :- ValidatedIndex(t, ds[0].address);
    var o' :- Pay(env, t, ds[0], network, o);
    PayToken(env, w, metas, t, ds[1..], network, o')
  }

  function PayAll(env: Env, w: World, metas: seq<Meta>, tokens: seq<TokenWithdrawals>, network: Network,
                  o: Payout): Result<Payout>
    decreases |tokens|
  {
    if tokens == [] then Ok(o) else
    var t :- ExpectToken(w, metas, tokens[0].account, false);
    var o' :- PayToken(env, w, metas, t, tokens[0].withdrawals, network, o);
    PayAll(env, w, metas, tokens[1..], network, o')
  }

  /** get_state_transition_tx: one input and one output per writable entry. */
  function StateInputs(metas: seq<Meta>): seq<TxIn> {
    if metas == [] then [] else (if metas[0].writable then [StateInput(metas[0].key)] else []) + StateInputs(metas[1..])
  }

  function StateOutputs(env: Env, metas: seq<Meta>): seq<TxOut> {
    if metas == [] then [] else
    (if metas[0].writable then [TxOut(env.stateValue(metas[0].key), env.accountScript(metas[0].key))] else [])
    + StateOutputs(env, metas[1..])
  }

  function Fundings(outpoints: seq<Bytes>): seq<TxIn> {
    seq(|outpoints|, i requires 0 <= i < |outpoints| => Funding(outpoints[i]))
  }

  function RuneIds(edicts: seq<Edict>): set<RuneId> {
    set e | e in edicts :: e.rune
  }

  /** One zero edict per rune collects what is left of it. */
  function PayChange(o: Payout, runes: seq<RuneId>, script: Bytes): Payout
    decreases |runes|
  {
    if runes == [] then o else PayChange(PayRune(o, runes[0], script, 0), runes[1..], script)
  }

  function Finish(env: Env, o: Payout, programId: Key, change: u64, receiver: Key): Payout {
    var o1 := if change > 0 then o.(outputs := o.outputs + [TxOut(change, env.accountScript(programId))]) else o;
    if o.edicts == [] then o1 else
    var o2 := PayChange(o1, env.order(RuneIds(o1.edicts)), env.accountScript(receiver));
    o2.(outputs := o2.outputs + [TxOut(0, env.runestone(o2.edicts))])
  }

  /** The signer of each input: the withdraw account signs the first one, and the
      type list says who signs each of the others. */
  function Signers(inputs: nat, types: seq<InputUtxoType>, programId: Key, metas: seq<Meta>): Result<seq<InputToSign>>
    requires |metas| > 2
  {
    if inputs == 0 then Ok([]) else
    var front :- Signers(inputs - 1, types, programId, metas);
    var i := inputs - 1;
    if i == 0 then Ok(front + [InputToSign(0, metas[1].key)])
    else if i > |types| then Err(Panic)
    else Ok(front + [InputToSign(i, if types[i - 1] == BitcoinUtxo then programId else metas[2].key)])
  }

  function BuildTransaction(env: Env, w: World, metas: seq<Meta>, programId: Key, b: WithdrawBatch,
                            p: ProgramState): Result<ToSign> {
    var hasReceiver :- HasReceiver(w, metas, true);
    match env.fundingTx(b.tx)
    case None => Err(Custom(ERROR_INVALID_INPUT_TX))
    case Some(tx) =>
      var o :- PayAll(env, w, metas, b.tokens, p.network, Payout(StateOutputs(env, metas), []));
      if o.edicts != [] && !hasReceiver then Err(Custom(ERROR_NO_RUNE_RECEIVER)) else
      var done := Finish(env, o, programId, b.changeAmount, metas[2].key);
      var inputs := StateInputs(metas) + Fundings(tx.inputs);
      var signers :- Signers(|inputs|, b.inputTypes, programId, metas);
      Ok(ToSign(inputs, done.outputs, done.edicts, signers))
  }

  datatype Submitted = Submitted(w: World, toSign: ToSign)

  function SubmitWithdraw(env: Env, w: World, metas: seq<Meta>, programId: Key, b: WithdrawBatch,
                          raw: Bytes): Result<Submitted> {
    var p :- ExpectProgram(w, metas, false, Some(1));
    var hash :- ExpectWithdraw(w, metas, true);
    var _ :- HasReceiver(w, metas, true);
    if hash != env.sha(raw) then Err(Custom(ERROR_WITHDRAWAL_BATCH_MISMATCH)) else
    var tx :- BuildTransaction(env, w, metas, programId, b, p);
    Ok(Submitted(w[metas[1].key := Withdraw(metas[0].key, EMPTY_HASH)], tx))
  }

  // Rolling back ----------------------------------------------------------------

  /** The wallet index is validated; the index that gets the fee back is not. */
  function RefundFee(w: World, metas: seq<Meta>, account: u8, d: Withdrawal, feeAddress: Bytes): Result<World> {
    if d.feeAmount == 0 then Ok(w) else
    var f :- ExpectToken(w, metas, d.feeAccount, true);
    if |f.slots| == 0 then Err(Panic)
    else if UpToNul(f.slots[0].address) != feeAddress then Err(Custom(ERROR_ADDRESS_MISMATCH)) else
    var f1 :- Debit(f, 0, d.feeAmount);
    var f2 :- if account as nat < |metas| && metas[d.feeAccount].key == metas[account].key then Ok(f1)
              else Credit(f1, d.feeAddress.index, d.feeAmount);
    Ok(w[metas[d.feeAccount].key := Token(f2)])
  }

  function RefundOne(w: World, metas: seq<Meta>, account: u8, d: Withdrawal, feeAddress: Bytes): Result<World> {
    var t :- TokenAt(w, metas, account);
    var i :- ValidatedIndex(t, d.address);
    var t' :- Credit(t, i, d.amount);
    RefundFee(w[metas[account].key := Token(t')], metas, account, d, feeAddress)
  }

  function RefundToken(w: World, metas: seq<Meta>, account: u8, ds: seq<Withdrawal>, feeAddress: Bytes): Result<World>
    decreases |ds|
  {
    if ds == [] then Ok(w) else
    var w' :- RefundOne(w, metas, account, ds[0], feeAddress);
    RefundToken(w', metas, account, ds[1..], feeAddress)
  }

  function RefundAll(w: World, metas: seq<Meta>, tokens: seq<TokenWithdrawals>, feeAddress: Bytes): Result<World>
    decreases |tokens|
  {
    if tokens == [] then Ok(w) else
    var _ :- ExpectToken(w, metas, tokens[0].account, true);
    var w' :- RefundToken(w, metas, tokens[0].account, tokens[0].withdrawals, feeAddress);
    RefundAll(w', metas, tokens[1..], feeAddress)
  }

  function RollbackWithdraw(w: World, metas: seq<Meta>, tokens: seq<TokenWithdrawals>): Result<World> {
    var p :- ExpectProgram(w, metas, false, Some(1));
    var _ :- ExpectWithdraw(w, metas, false);
    var w' :- RefundAll(w, metas, tokens, UpToNul(p.feeAccount));
    Ok(w'[metas[1].key := Withdraw(metas[0].key, EMPTY_HASH)])
  }

  /** The state UTXO itself is kept by the node, not in account data. */
  function UpdateUtxo(env: Env, w: World, metas: seq<Meta>, txId: Bytes): Result<World> {
    var _ :- ExpectProgram(w, metas, false, Some(1));
    var _ :- ExpectWithdraw(w, metas, true);
    if env.txIdParses(txId) then Ok(w) else Err(Panic)
  }

  // ---------------------------------------------------------------------------
  // Transactions and runs
  // ---------------------------------------------------------------------------

  function Perform(env: Env, w: World, metas: seq<Meta>, programId: Key, i: Instruction, raw: Bytes): Result<World> {
    match i
    case InitProgramState(fee, change, network) => InitProgram(env, w, metas, fee, change, network)
    case InitTokenState(id) => InitToken(env, w, metas, id)
    case InitWalletBalances(setups) => InitWallets(env, w, metas, setups)
    case BatchDeposit(deposits) => DepositBatch(w, metas, deposits)
    case PrepareBatchWithdraw(batch) => PrepareWithdraw(env, w, metas, batch, raw)
    case PrepareBatchSettlement(settlements) => PrepareSettlement(env, w, metas, settlements, raw)
    case SubmitBatchSettlement(settlements) => SubmitSettlement(env, w, metas, settlements, raw)
    case RollbackBatchSettlement => RollbackSettlement(w, metas)
    case RollbackBatchWithdraw(tokens) => RollbackWithdraw(w, metas, tokens)
    case SubmitBatchWithdraw(batch) =>
      var s :- SubmitWithdraw(env, w, metas, programId, batch, raw);
      Ok(s.w)
    case UpdateWithdrawStateUtxo(txId, _) => UpdateUtxo(env, w, metas, txId)
    case InitRuneReceiverState => InitRuneReceiver(w, metas)
    case SetTokenRuneId(id) => SetRuneId(env, w, metas, id)
  }

  /** process_instruction: decode, then perform; the hash of a batch covers all
      bytes after the tag. */
  function Process(env: Env, w: World, metas: seq<Meta>, programId: Key, data: Bytes): Result<World> {
    match Read(data)
    case Bad => Err(InvalidInstructionData)
    case Got(i, _) => Perform(env, w, metas, programId, i, data[1..])
  }

  datatype Tx = Tx(metas: seq<Meta>, programId: Key, data: Bytes)

  /** The runtime keeps no account larger than the permitted maximum. */
  predicate Storable(w: World) {
    forall k | k in w :: SizeOf(w[k]) <= MAX_PERMITTED_DATA_LENGTH
  }

  /** One transaction: an error or a panic leaves every account as it was. */
  function Step(env: Env, w: World, tx: Tx): World {
    match Process(env, w, tx.metas, tx.programId, tx.data)
    case Err(_) => w
    case Ok(w') => if Storable(w') then w' else w
  }
}
