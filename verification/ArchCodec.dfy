/** The instruction codec (model/src/serialization.rs): what each encoder writes,
    what each decoder reads, and that reading what was written gives it back. */
module ArchCodec {
  import opened Machine
  import opened ArchTypes

  /** A decoder either fails or gives a value and the bytes it left unread. */
  datatype Decoded<+T> = Bad | Got(value: T, rest: Bytes) {
    predicate IsFailure() {
      Bad?
    }
    function PropagateFailure<U>(): Decoded<U>
      requires Bad?
    {
      Bad
    }
    function Extract(): (T, Bytes)
      requires Got?
    {
      (value, rest)
    }
  }

  // Primitives ----------------------------------------------------------------

  function ReadUint(s: Bytes, n: nat): (d: Decoded<nat>)
    ensures d.Got? ==> d.value < Pow256(n) && |d.rest| + n == |s|
  {
    if |s| < n then Bad else Got(FromLE(s[..n]), s[n..])
  }

  function ReadU8(s: Bytes): Decoded<u8> {
    if s == [] then Bad else Got(s[0], s[1..])
  }

  function ReadU16(s: Bytes): Decoded<u16> {
    PowValues();
    var (v, r) :- ReadUint(s, 2);
    Got(v, r)
  }

  function ReadU32(s: Bytes): Decoded<u32> {
    PowValues();
    var (v, r) :- ReadUint(s, 4);
    Got(v, r)
  }

  function ReadU64(s: Bytes): Decoded<u64> {
    PowValues();
    var (v, r) :- ReadUint(s, 8);
    Got(v, r)
  }

  /** `take(n)` followed by reading to the end: a short input is accepted. */
  function TakeUpTo(s: Bytes, n: nat): (Bytes, Bytes) {
    var m := if n <= |s| then n else |s|;
    (s[..m], s[m..])
  }

  function ReadString(s: Bytes): Decoded<Bytes> {
    var (n, r) :- ReadU16(s);
    var (text, rest) := TakeUpTo(r, n);
    Got(text, rest)
  }

  function ReadFixed(s: Bytes, n: nat): Decoded<Bytes> {
    if |s| < n then Bad else Got(s[..n], s[n..])
  }

  function WriteString(s: Bytes): Bytes {
    ToLE(|s|, 2) + s
  }

  function ReadMany<T>(n: nat, read: Bytes -> Decoded<T>, s: Bytes): Decoded<seq<T>> {
    if n == 0 then Got([], s) else
    var (x, r) :- read(s);
    var (xs, rest) :- ReadMany(n - 1, read, r);
    Got([x] + xs, rest)
  }

  function WriteMany<T>(xs: seq<T>, write: T -> Bytes): Bytes {
    if xs == [] then [] else write(xs[0]) + WriteMany(xs[1..], write)
  }

  /** A u16 count followed by that many elements. */
  function ReadVec<T>(read: Bytes -> Decoded<T>, s: Bytes): Decoded<seq<T>> {
    var (n, r) :- ReadU16(s);
    ReadMany(n, read, r)
  }

  function WriteVec<T>(xs: seq<T>, write: T -> Bytes): Bytes {
    ToLE(|xs|, 2) + WriteMany(xs, write)
  }

  lemma UintBack(v: nat, n: nat, rest: Bytes)
    requires v < Pow256(n)
    ensures ReadUint(ToLE(v, n) + rest, n) == Got(v, rest)
  {
    LERoundTrip(v, n);
    assert (ToLE(v, n) + rest)[..n] == ToLE(v, n);
    assert (ToLE(v, n) + rest)[n..] == rest;
  }

  lemma U16Back(v: u16, rest: Bytes)
    ensures ReadU16(ToLE(v, 2) + rest) == Got(v, rest)
  {
    PowValues();
    UintBack(v, 2, rest);
  }

  lemma U32Back(v: u32, rest: Bytes)
    ensures ReadU32(ToLE(v, 4) + rest) == Got(v, rest)
  {
    PowValues();
    UintBack(v, 4, rest);
  }

  lemma U64Back(v: u64, rest: Bytes)
    ensures ReadU64(ToLE(v, 8) + rest) == Got(v, rest)
  {
    PowValues();
    UintBack(v, 8, rest);
  }

  lemma U8Back(v: u8, rest: Bytes)
    ensures ReadU8([v] + rest) == Got(v, rest)
  {
  }

  lemma StringBack(s: Bytes, rest: Bytes)
    requires |s| < U16
    ensures ReadString(WriteString(s) + rest) == Got(s, rest)
  {
    assert WriteString(s) + rest == ToLE(|s|, 2) + (s + rest);
    U16Back(|s|, s + rest);
    assert (s + rest)[..|s|] == s && (s + rest)[|s|..] == rest;
  }

  /** What it takes for a list to be read back: each element is. */
  ghost predicate Invertible<T(!new)>(x: T, write: T -> Bytes, read: Bytes -> Decoded<T>) {
    forall rest: Bytes {:trigger write(x) + rest} :: read(write(x) + rest) == Got(x, rest)
  }

  lemma {:induction false} ManyBack<T(!new)>(xs: seq<T>, write: T -> Bytes, read: Bytes -> Decoded<T>, rest: Bytes)
    requires forall x | x in xs :: Invertible(x, write, read)
    ensures ReadMany(|xs|, read, WriteMany(xs, write) + rest) == Got(xs, rest)
  {
    if xs == [] {
      assert [] + rest == rest;
    } else {
      ManyBack(xs[1..], write, read, rest);
      var tail := WriteMany(xs[1..], write) + rest;
      assert WriteMany(xs, write) + rest == write(xs[0]) + tail;
      assert Invertible(xs[0], write, read);
      assert xs == [xs[0]] + xs[1..];
    }
  }

  lemma VecBack<T(!new)>(xs: seq<T>, write: T -> Bytes, read: Bytes -> Decoded<T>, rest: Bytes)
    requires |xs| < U16 && forall x | x in xs :: Invertible(x, write, read)
    ensures ReadVec(read, WriteVec(xs, write) + rest) == Got(xs, rest)
  {
    assert WriteVec(xs, write) + rest == ToLE(|xs|, 2) + (WriteMany(xs, write) + rest);
    U16Back(|xs|, WriteMany(xs, write) + rest);
    ManyBack(xs, write, read, rest);
  }

  // Reading in a loop ---------------------------------------------------------

  /** A loop that has read `done` ends up where reading all at once does. */
  predicate Continues<T(==)>(whole: Decoded<seq<T>>, done: seq<T>, later: Decoded<seq<T>>) {
    match later
    case Bad => whole == Bad
    case Got(xs, rest) => whole == Got(done + xs, rest)
  }

  lemma NextRead<T>(whole: Decoded<seq<T>>, done: seq<T>, n: nat, read: Bytes -> Decoded<T>, s: Bytes)
    requires n > 0 && Continues(whole, done, ReadMany(n, read, s))
    ensures match read(s)
            case Bad => whole == Bad
            case Got(x, r) => Continues(whole, done + [x], ReadMany(n - 1, read, r))
  {
    if read(s).Got? && ReadMany(n - 1, read, read(s).rest).Got? {
      var x, xs := read(s).value, ReadMany(n - 1, read, read(s).rest).value;
      assert done + ([x] + xs) == done + [x] + xs;
    }
  }

  lemma StartRead<T>(n: nat, read: Bytes -> Decoded<T>, s: Bytes)
    ensures Continues(ReadMany(n, read, s), [], ReadMany(n, read, s))
  {
    if ReadMany(n, read, s).Got? {
      assert [] + ReadMany(n, read, s).value == ReadMany(n, read, s).value;
    }
  }

  lemma AllRead<T>(whole: Decoded<seq<T>>, done: seq<T>, read: Bytes -> Decoded<T>, s: Bytes)
    requires Continues(whole, done, ReadMany(0, read, s))
    ensures whole == Got(done, s)
  {
    assert done + [] == done;
  }

  // Batch entries -------------------------------------------------------------

  function WriteAddressIndex(a: AddressIndex): Bytes {
    ToLE(a.index, 4) + a.last4
  }

  function ReadAddressIndex(s: Bytes): Decoded<AddressIndex> {
    var (index, r1) :- ReadU32(s);
    var (last4, r2) :- ReadFixed(r1, 4);
    Got(AddressIndex(index, last4), r2)
  }

  function WriteAdjustment(a: Adjustment): Bytes {
    WriteAddressIndex(a.address) + ToLE(a.amount, 8)
  }

  function ReadAdjustment(s: Bytes): Decoded<Adjustment> {
    var (address, r1) :- ReadAddressIndex(s);
    var (amount, r2) :- ReadU64(r1);
    Got(Adjustment(address, amount), r2)
  }

  function WriteWithdrawal(w: Withdrawal): Bytes {
    WriteAddressIndex(w.address) + ToLE(w.amount, 8) + [w.feeAccount]
    + WriteAddressIndex(w.feeAddress) + ToLE(w.feeAmount, 8)
  }

  function ReadWithdrawal(s: Bytes): Decoded<Withdrawal> {
    var (address, r1) :- ReadAddressIndex(s);
    var (amount, r2) :- ReadU64(r1);
    var (feeAccount, r3) :- ReadU8(r2);
    var (feeAddress, r4) :- ReadAddressIndex(r3);
    var (feeAmount, r5) :- ReadU64(r4);
    Got(Withdrawal(address, amount, feeAccount, feeAddress, feeAmount), r5)
  }

  function WriteTokenDeposits(d: TokenDeposits): Bytes {
    [d.account] + WriteVec(d.deposits, WriteAdjustment)
  }

  function ReadTokenDeposits(s: Bytes): Decoded<TokenDeposits> {
    var (account, r1) :- ReadU8(s);
    var (deposits, r2) :- ReadVec(ReadAdjustment, r1);
    Got(TokenDeposits(account, deposits), r2)
  }

  function WriteTokenWithdrawals(d: TokenWithdrawals): Bytes {
    [d.account] + WriteVec(d.withdrawals, WriteWithdrawal)
  }

  function ReadTokenWithdrawals(s: Bytes): Decoded<TokenWithdrawals> {
    var (account, r1) :- ReadU8(s);
    var (withdrawals, r2) :- ReadVec(ReadWithdrawal, r1);
    Got(TokenWithdrawals(account, withdrawals), r2)
  }

  function WriteSettlement(d: Settlement): Bytes {
    [d.account] + WriteVec(d.increments, WriteAdjustment) + WriteVec(d.decrements, WriteAdjustment)
        + ToLE(d.feeAmount, 8)
  }

  function ReadSettlement(s: Bytes): Decoded<Settlement> {
    var (account, r1) :- ReadU8(s);
    var (increments, r2) :- ReadVec(ReadAdjustment, r1);
    var (decrements, r3) :- ReadVec(ReadAdjustment, r2);
    var (feeAmount, r4) :- ReadU64(r3);
    Got(Settlement(account, increments, decrements, feeAmount), r4)
  }

  function WriteTokenSetup(d: TokenSetup): Bytes {
    [d.account] + WriteVec(d.wallets, WriteString)
  }

  function ReadTokenSetup(s: Bytes): Decoded<TokenSetup> {
    var (account, r1) :- ReadU8(s);
    var (wallets, r2) :- ReadVec(ReadString, r1);
    Got(TokenSetup(account, wallets), r2)
  }

  function NetworkOf(b: u8): Network {
    match b case 1 => Testnet case 2 => Signet case 3 => Regtest case _ => Bitcoin
  }

  function NetworkByte(n: Network): u8 {
    match n case Bitcoin => 0 case Testnet => 1 case Signet => 2 case Regtest => 3
  }

  function WriteInputType(t: InputUtxoType): Bytes {
    [if t == RuneUtxo then 1 else 0]
  }

  function ReadInputType(s: Bytes): Decoded<InputUtxoType> {
    var (b, r) :- ReadU8(s);
    Got(if b == 1 then RuneUtxo else BitcoinUtxo, r)
  }

  function WriteWithdrawBatch(b: WithdrawBatch): Bytes {
    WriteString(b.tx) + ToLE(b.changeAmount, 8) + WriteVec(b.tokens, WriteTokenWithdrawals)
    + WriteVec(b.inputTypes, WriteInputType)
  }

  function ReadWithdrawBatch(s: Bytes): Decoded<WithdrawBatch> {
    var (tx, r1) :- ReadString(s);
    var (changeAmount, r2) :- ReadU64(r1);
    var (tokens, r3) :- ReadVec(ReadTokenWithdrawals, r2);
    var (inputTypes, r4) :- ReadVec(ReadInputType, r3);
    Got(WithdrawBatch(tx, changeAmount, tokens, inputTypes), r4)
  }

  // Instructions --------------------------------------------------------------

  function Tag(i: Instruction): u8 {
    match i
    case InitProgramState(_, _, _) => 0
    case InitTokenState(_) => 1
    case InitWalletBalances(_) => 2
    case BatchDeposit(_) => 3
    case PrepareBatchWithdraw(_) => 4
    case PrepareBatchSettlement(_) => 5
    case SubmitBatchSettlement(_) => 6
    case RollbackBatchSettlement => 7
    case RollbackBatchWithdraw(_) => 8
    case SubmitBatchWithdraw(_) => 9
    case UpdateWithdrawStateUtxo(_, _) => 10
    case InitRuneReceiverState => 11
    case SetTokenRuneId(_) => 12
  }

  /** The bytes after the tag, which are what a batch hash covers. */
  function WriteParams(i: Instruction): Bytes {
    match i
    case InitProgramState(fee, change, network) => WriteString(fee) + WriteString(change) + [NetworkByte(network)]
    case InitTokenState(id) => WriteString(id)
    case InitWalletBalances(setups) => WriteVec(setups, WriteTokenSetup)
    case BatchDeposit(deposits) => WriteVec(deposits, WriteTokenDeposits)
    case PrepareBatchWithdraw(batch) => WriteWithdrawBatch(batch)
    case PrepareBatchSettlement(settlements) => WriteVec(settlements, WriteSettlement)
    case SubmitBatchSettlement(settlements) => WriteVec(settlements, WriteSettlement)
    case RollbackBatchSettlement => []
    case RollbackBatchWithdraw(tokens) => WriteVec(tokens, WriteTokenWithdrawals)
    case SubmitBatchWithdraw(batch) => WriteWithdrawBatch(batch)
    case UpdateWithdrawStateUtxo(txId, vout) => WriteString(txId) + ToLE(vout, 4)
    case InitRuneReceiverState => []
    case SetTokenRuneId(id) => WriteString(id)
  }

  function Write(i: Instruction): Bytes {
    [Tag(i)] + WriteParams(i)
  }

  function ReadInitProgram(s: Bytes): (d: Decoded<Instruction>)
    ensures d.Got? ==> Tag(d.value) == 0
  {
    var (fee, r1) :- ReadString(s);
    var (change, r2) :- ReadString(r1);
    var (network, r3) :- ReadU8(r2);
    Got(InitProgramState(fee, change, NetworkOf(network)), r3)
  }

  function ReadUpdateUtxo(s: Bytes): (d: Decoded<Instruction>)
    ensures d.Got? ==> Tag(d.value) == 10
  {
    var (txId, r1) :- ReadString(s);
    var (vout, r2) :- ReadU32(r1);
    Got(UpdateWithdrawStateUtxo(txId, vout), r2)
  }

  function ReadParams(tag: u8, s: Bytes): (d: Decoded<Instruction>)
    ensures d.Got? ==> Tag(d.value) == tag
  {
    match tag
    case 0 => ReadInitProgram(s)
    case 1 =>
      var (id, r) :- ReadString(s);
      Got(InitTokenState(id), r)
    case 2 =>
      var (setups, r) :- ReadVec(ReadTokenSetup, s);
      Got(InitWalletBalances(setups), r)
    case 3 =>
      var (deposits, r) :- ReadVec(ReadTokenDeposits, s);
      Got(BatchDeposit(deposits), r)
    case 4 =>
      var (batch, r) :- ReadWithdrawBatch(s);
      Got(PrepareBatchWithdraw(batch), r)
    case 5 =>
      var (settlements, r) :- ReadVec(ReadSettlement, s);
      Got(PrepareBatchSettlement(settlements), r)
    case 6 =>
      var (settlements, r) :- ReadVec(ReadSettlement, s);
      Got(SubmitBatchSettlement(settlements), r)
    case 7 => Got(RollbackBatchSettlement, s)
    case 8 =>
      var (tokens, r) :- ReadVec(ReadTokenWithdrawals, s);
      Got(RollbackBatchWithdraw(tokens), r)
    case 9 =>
      var (batch, r) :- ReadWithdrawBatch(s);
      Got(SubmitBatchWithdraw(batch), r)
    case 10 => ReadUpdateUtxo(s)
    case 11 => Got(InitRuneReceiverState, s)
    case 12 =>
      var (id, r) :- ReadString(s);
      Got(SetTokenRuneId(id), r)
    case _ => Bad
  }

  function Read(s: Bytes): Decoded<Instruction> {
    var (tag, r) :- ReadU8(s);
    ReadParams(tag, r)
  }

  // Round trip ----------------------------------------------------------------

  predicate AddressFits(a: AddressIndex) { |a.last4| == 4 }
  predicate AdjustmentsFit(xs: seq<Adjustment>) { |xs| < U16 && forall x | x in xs :: AddressFits(x.address) }
  predicate WithdrawalFits(w: Withdrawal) { AddressFits(w.address) && AddressFits(w.feeAddress) }
  predicate TokensFit(xs: seq<TokenWithdrawals>) {
    |xs| < U16 && forall x | x in xs :: |x.withdrawals| < U16 && forall w | w in x.withdrawals :: WithdrawalFits(w)
  }
  predicate SettlementsFit(xs: seq<Settlement>) {
    |xs| < U16 && forall x | x in xs :: AdjustmentsFit(x.increments) && AdjustmentsFit(x.decrements)
  }
  predicate BatchFits(b: WithdrawBatch) { |b.tx| < U16 && TokensFit(b.tokens) && |b.inputTypes| < U16 }

  /** Every vector and string is short enough for its u16 count. */
  predicate Fits(i: Instruction) {
    match i
    case InitProgramState(fee, change, _) => |fee| < U16 && |change| < U16
    case InitTokenState(id) => |id| < U16
    case InitWalletBalances(setups) =>
      |setups| < U16 && forall x | x in setups :: |x.wallets| < U16 && forall a | a in x.wallets :: |a| < U16
    case BatchDeposit(deposits) => |deposits| < U16 && forall x | x in deposits :: AdjustmentsFit(x.deposits)
    case PrepareBatchWithdraw(batch) => BatchFits(batch)
    case PrepareBatchSettlement(settlements) => SettlementsFit(settlements)
    case SubmitBatchSettlement(settlements) => SettlementsFit(settlements)
    case RollbackBatchWithdraw(tokens) => TokensFit(tokens)
    case SubmitBatchWithdraw(batch) => BatchFits(batch)
    case UpdateWithdrawStateUtxo(txId, _) => |txId| < U16
    case SetTokenRuneId(id) => |id| < U16
    case _ => true
  }

  lemma AddressIndexBack(a: AddressIndex, rest: Bytes)
    requires AddressFits(a)
    ensures ReadAddressIndex(WriteAddressIndex(a) + rest) == Got(a, rest)
  {
    assert WriteAddressIndex(a) + rest == ToLE(a.index, 4) + (a.last4 + rest);
    U32Back(a.index, a.last4 + rest);
    assert (a.last4 + rest)[..4] == a.last4 && (a.last4 + rest)[4..] == rest;
  }

  lemma AdjustmentBack(a: Adjustment, rest: Bytes)
    requires AddressFits(a.address)
    ensures ReadAdjustment(WriteAdjustment(a) + rest) == Got(a, rest)
  {
    var r1 := ToLE(a.amount, 8) + rest;
    assert WriteAdjustment(a) + rest == WriteAddressIndex(a.address) + r1;
    AddressIndexBack(a.address, r1);
    U64Back(a.amount, rest);
  }

  lemma WithdrawalBack(w: Withdrawal, rest: Bytes)
    requires WithdrawalFits(w)
    ensures ReadWithdrawal(WriteWithdrawal(w) + rest) == Got(w, rest)
  {
    var r4 := ToLE(w.feeAmount, 8) + rest;
    var r3 := WriteAddressIndex(w.feeAddress) + r4;
    var r2 := [w.feeAccount] + r3;
    var r1 := ToLE(w.amount, 8) + r2;
    assert WriteWithdrawal(w) + rest == WriteAddressIndex(w.address) + r1;
    AddressIndexBack(w.address, r1);
    U64Back(w.amount, r2);
    U8Back(w.feeAccount, r3);
    AddressIndexBack(w.feeAddress, r4);
    U64Back(w.feeAmount, rest);
  }

  lemma AdjustmentsBack(xs: seq<Adjustment>, rest: Bytes)
    requires AdjustmentsFit(xs)
    ensures ReadVec(ReadAdjustment, WriteVec(xs, WriteAdjustment) + rest) == Got(xs, rest)
  {
    forall x, tail | x in xs ensures ReadAdjustment(WriteAdjustment(x) + tail) == Got(x, tail) {
      AdjustmentBack(x, tail);
    }
    VecBack(xs, WriteAdjustment, ReadAdjustment, rest);
  }

  lemma TokenDepositsBack(d: TokenDeposits, rest: Bytes)
    requires AdjustmentsFit(d.deposits)
    ensures ReadTokenDeposits(WriteTokenDeposits(d) + rest) == Got(d, rest)
  {
    var r1 := WriteVec(d.deposits, WriteAdjustment) + rest;
    assert WriteTokenDeposits(d) + rest == [d.account] + r1;
    U8Back(d.account, r1);
    AdjustmentsBack(d.deposits, rest);
  }

  lemma TokenWithdrawalsBack(d: TokenWithdrawals, rest: Bytes)
    requires |d.withdrawals| < U16 && forall w | w in d.withdrawals :: WithdrawalFits(w)
    ensures ReadTokenWithdrawals(WriteTokenWithdrawals(d) + rest) == Got(d, rest)
  {
    forall w, tail | w in d.withdrawals ensures ReadWithdrawal(WriteWithdrawal(w) + tail) == Got(w, tail) {
      WithdrawalBack(w, tail);
    }
    var r1 := WriteVec(d.withdrawals, WriteWithdrawal) + rest;
    assert WriteTokenWithdrawals(d) + rest == [d.account] + r1;
    U8Back(d.account, r1);
    VecBack(d.withdrawals, WriteWithdrawal, ReadWithdrawal, rest);
  }

  lemma SettlementBack(d: Settlement, rest: Bytes)
    requires AdjustmentsFit(d.increments) && AdjustmentsFit(d.decrements)
    ensures ReadSettlement(WriteSettlement(d) + rest) == Got(d, rest)
  {
    var r3 := ToLE(d.feeAmount, 8) + rest;
    var r2 := WriteVec(d.decrements, WriteAdjustment) + r3;
    var r1 := WriteVec(d.increments, WriteAdjustment) + r2;
    assert WriteSettlement(d) + rest == [d.account] + r1;
    U8Back(d.account, r1);
    AdjustmentsBack(d.increments, r2);
    AdjustmentsBack(d.decrements, r3);
    U64Back(d.feeAmount, rest);
  }

  lemma TokenSetupBack(d: TokenSetup, rest: Bytes)
    requires |d.wallets| < U16 && forall a | a in d.wallets :: |a| < U16
    ensures ReadTokenSetup(WriteTokenSetup(d) + rest) == Got(d, rest)
  {
    forall a, tail | a in d.wallets ensures ReadString(WriteString(a) + tail) == Got(a, tail) {
      StringBack(a, tail);
    }
    var r1 := WriteVec(d.wallets, WriteString) + rest;
    assert WriteTokenSetup(d) + rest == [d.account] + r1;
    U8Back(d.account, r1);
    VecBack(d.wallets, WriteString, ReadString, rest);
  }

  lemma TokensBack(xs: seq<TokenWithdrawals>, rest: Bytes)
    requires TokensFit(xs)
    ensures ReadVec(ReadTokenWithdrawals, WriteVec(xs, WriteTokenWithdrawals) + rest) == Got(xs, rest)
  {
    forall x, tail | x in xs ensures ReadTokenWithdrawals(WriteTokenWithdrawals(x) + tail) == Got(x, tail) {
      TokenWithdrawalsBack(x, tail);
    }
    VecBack(xs, WriteTokenWithdrawals, ReadTokenWithdrawals, rest);
  }

  lemma SettlementsBack(xs: seq<Settlement>, rest: Bytes)
    requires SettlementsFit(xs)
    ensures ReadVec(ReadSettlement, WriteVec(xs, WriteSettlement) + rest) == Got(xs, rest)
  {
    forall x, tail | x in xs ensures ReadSettlement(WriteSettlement(x) + tail) == Got(x, tail) {
      SettlementBack(x, tail);
    }
    VecBack(xs, WriteSettlement, ReadSettlement, rest);
  }

  lemma WithdrawBatchBack(b: WithdrawBatch, rest: Bytes)
    requires BatchFits(b)
    ensures ReadWithdrawBatch(WriteWithdrawBatch(b) + rest) == Got(b, rest)
  {
    forall x, tail | x in b.inputTypes ensures ReadInputType(WriteInputType(x) + tail) == Got(x, tail) {
      U8Back(if x == RuneUtxo then 1 else 0, tail);
    }
    var r3 := WriteVec(b.inputTypes, WriteInputType) + rest;
    var r2 := WriteVec(b.tokens, WriteTokenWithdrawals) + r3;
    var r1 := ToLE(b.changeAmount, 8) + r2;
    assert WriteWithdrawBatch(b) + rest == WriteString(b.tx) + r1;
    StringBack(b.tx, r1);
    U64Back(b.changeAmount, r2);
    TokensBack(b.tokens, r3);
    VecBack(b.inputTypes, WriteInputType, ReadInputType, rest);
  }

  lemma InitProgramStateBack(fee: Bytes, change: Bytes, network: Network, rest: Bytes)
    requires |fee| < U16 && |change| < U16
    ensures ReadParams(0, WriteString(fee) + WriteString(change) + [NetworkByte(network)] + rest)
         == Got(InitProgramState(fee, change, network), rest)
  {
    var r2 := [NetworkByte(network)] + rest;
    assert WriteString(fee) + WriteString(change) + [NetworkByte(network)] + rest
        == WriteString(fee) + (WriteString(change) + r2);
    StringBack(fee, WriteString(change) + r2);
    StringBack(change, r2);
    U8Back(NetworkByte(network), rest);
  }

  lemma SetupsBack(xs: seq<TokenSetup>, rest: Bytes)
    requires Fits(InitWalletBalances(xs))
    ensures ReadVec(ReadTokenSetup, WriteVec(xs, WriteTokenSetup) + rest) == Got(xs, rest)
  {
    forall x, tail | x in xs ensures ReadTokenSetup(WriteTokenSetup(x) + tail) == Got(x, tail) {
      TokenSetupBack(x, tail);
    }
    VecBack(xs, WriteTokenSetup, ReadTokenSetup, rest);
  }

  lemma DepositsBack(xs: seq<TokenDeposits>, rest: Bytes)
    requires Fits(BatchDeposit(xs))
    ensures ReadVec(ReadTokenDeposits, WriteVec(xs, WriteTokenDeposits) + rest) == Got(xs, rest)
  {
    forall x, tail | x in xs ensures ReadTokenDeposits(WriteTokenDeposits(x) + tail) == Got(x, tail) {
      TokenDepositsBack(x, tail);
    }
    VecBack(xs, WriteTokenDeposits, ReadTokenDeposits, rest);
  }

  lemma UtxoBack(txId: Bytes, vout: u32, rest: Bytes)
    requires |txId| < U16
    ensures ReadParams(10, WriteString(txId) + ToLE(vout, 4) + rest) == Got(UpdateWithdrawStateUtxo(txId, vout), rest)
  {
    assert WriteString(txId) + ToLE(vout, 4) + rest == WriteString(txId) + (ToLE(vout, 4) + rest);
    StringBack(txId, ToLE(vout, 4) + rest);
    U32Back(vout, rest);
  }

  lemma ScalarParamsBack(i: Instruction, rest: Bytes)
    requires Fits(i) && Tag(i) in {0, 1, 7, 10, 11, 12}
    ensures ReadParams(Tag(i), WriteParams(i) + rest) == Got(i, rest)
  {
    match i
    case InitProgramState(fee, change, network) => InitProgramStateBack(fee, change, network, rest);
    case InitTokenState(id) => StringBack(id, rest);
    case SetTokenRuneId(id) => StringBack(id, rest);
    case UpdateWithdrawStateUtxo(txId, vout) => UtxoBack(txId, vout, rest);
    case RollbackBatchSettlement => assert [] + rest == rest;
    case InitRuneReceiverState => assert [] + rest == rest;
  }

  lemma ListParamsBack(i: Instruction, rest: Bytes)
    requires Fits(i) && Tag(i) in {2, 3, 8}
    ensures ReadParams(Tag(i), WriteParams(i) + rest) == Got(i, rest)
  {
    match i
    case InitWalletBalances(setups) => SetupsBack(setups, rest);
    case BatchDeposit(deposits) => DepositsBack(deposits, rest);
    case RollbackBatchWithdraw(tokens) => TokensBack(tokens, rest);
  }

  lemma SettlementParamsBack(i: Instruction, rest: Bytes)
    requires Fits(i) && Tag(i) in {5, 6}
    ensures ReadParams(Tag(i), WriteParams(i) + rest) == Got(i, rest)
  {
    match i
    case PrepareBatchSettlement(settlements) => SettlementsBack(settlements, rest);
    case SubmitBatchSettlement(settlements) => SettlementsBack(settlements, rest);
  }

  lemma WithdrawParamsBack(i: Instruction, rest: Bytes)
    requires Fits(i) && Tag(i) in {4, 9}
    ensures ReadParams(Tag(i), WriteParams(i) + rest) == Got(i, rest)
  {
    match i
    case PrepareBatchWithdraw(batch) => WithdrawBatchBack(batch, rest);
    case SubmitBatchWithdraw(batch) => WithdrawBatchBack(batch, rest);
  }

  lemma ParamsBack(i: Instruction, rest: Bytes)
    requires Fits(i)
    ensures ReadParams(Tag(i), WriteParams(i) + rest) == Got(i, rest)
  {
    if Tag(i) in {2, 3, 8} {
      ListParamsBack(i, rest);
    } else if Tag(i) in {5, 6} {
      SettlementParamsBack(i, rest);
    } else if Tag(i) in {4, 9} {
      WithdrawParamsBack(i, rest);
    } else {
      ScalarParamsBack(i, rest);
    }
  }

  lemma TagBack(data: Bytes, tag: u8, s: Bytes)
    requires data == [tag] + s
    ensures Read(data) == ReadParams(tag, s)
  {
    U8Back(tag, s);
  }

  lemma TagFirst(i: Instruction, rest: Bytes)
    ensures Write(i) + rest == [Tag(i)] + (WriteParams(i) + rest)
  {
    assert Write(i) == [Tag(i)] + WriteParams(i);
  }

  /** Reading an instruction followed by anything gives the instruction and leaves
      exactly what followed: the encoding is invertible and prefix-free. */
  lemma InstructionRoundTrip(i: Instruction, rest: Bytes)
    requires Fits(i)
    ensures Read(Write(i) + rest) == Got(i, rest)
  {
    TagFirst(i, rest);
    TagBack(Write(i) + rest, Tag(i), WriteParams(i) + rest);
    ParamsBack(i, rest);
  }

  /** No encoding is a proper prefix of another, so the bytes that a batch hash
      covers determine the batch. */
  lemma PrefixFree(i: Instruction, j: Instruction, tail: Bytes)
    requires Fits(i) && Fits(j) && Write(i) + tail == Write(j)
    ensures i == j && tail == []
  {
    InstructionRoundTrip(i, tail);
    InstructionRoundTrip(j, []);
    assert Write(j) + [] == Write(j);
  }

  // What a decoder can give ---------------------------------------------------

  lemma {:induction false} ManyGives<T(!new)>(n: nat, read: Bytes -> Decoded<T>, s: Bytes, good: T -> bool)
    requires ReadMany(n, read, s).Got?
    requires forall r: Bytes {:trigger read(r)} :: read(r).Got? ==> good(read(r).value)
    ensures |ReadMany(n, read, s).value| == n && forall x | x in ReadMany(n, read, s).value :: good(x)
  {
    if n > 0 {
      ManyGives(n - 1, read, read(s).rest, good);
    }
  }

  lemma VecGives<T(!new)>(read: Bytes -> Decoded<T>, s: Bytes, good: T -> bool)
    requires ReadVec(read, s).Got?
    requires forall r: Bytes {:trigger read(r)} :: read(r).Got? ==> good(read(r).value)
    ensures |ReadVec(read, s).value| < U16 && forall x | x in ReadVec(read, s).value :: good(x)
  {
    var h := ReadU16(s);
    ManyGives(h.value, read, h.rest, good);
  }

  lemma AdjustmentsGiven(s: Bytes)
    requires ReadVec(ReadAdjustment, s).Got?
    ensures AdjustmentsFit(ReadVec(ReadAdjustment, s).value)
  {
    VecGives(ReadAdjustment, s, (x: Adjustment) => AddressFits(x.address));
  }

  lemma TokensGiven(s: Bytes)
    requires ReadVec(ReadTokenWithdrawals, s).Got?
    ensures TokensFit(ReadVec(ReadTokenWithdrawals, s).value)
  {
    var good := (x: TokenWithdrawals) => |x.withdrawals| < U16 && forall w | w in x.withdrawals :: WithdrawalFits(w);
    forall r: Bytes | ReadTokenWithdrawals(r).Got? ensures good(ReadTokenWithdrawals(r).value) {
      VecGives(ReadWithdrawal, r[1..], WithdrawalFits);
    }
    VecGives(ReadTokenWithdrawals, s, good);
  }

  lemma SettlementsGiven(s: Bytes)
    requires ReadVec(ReadSettlement, s).Got?
    ensures SettlementsFit(ReadVec(ReadSettlement, s).value)
  {
    var good := (x: Settlement) => AdjustmentsFit(x.increments) && AdjustmentsFit(x.decrements);
    forall r: Bytes | ReadSettlement(r).Got? ensures good(ReadSettlement(r).value) {
      AdjustmentsGiven(r[1..]);
      AdjustmentsGiven(ReadVec(ReadAdjustment, r[1..]).rest);
    }
    VecGives(ReadSettlement, s, good);
  }

  lemma DepositsGiven(s: Bytes)
    requires ReadVec(ReadTokenDeposits, s).Got?
    ensures Fits(BatchDeposit(ReadVec(ReadTokenDeposits, s).value))
  {
    var good := (x: TokenDeposits) => AdjustmentsFit(x.deposits);
    forall r: Bytes | ReadTokenDeposits(r).Got? ensures good(ReadTokenDeposits(r).value) {
      AdjustmentsGiven(r[1..]);
    }
    VecGives(ReadTokenDeposits, s, good);
  }

  lemma SetupsGiven(s: Bytes)
    requires ReadVec(ReadTokenSetup, s).Got?
    ensures Fits(InitWalletBalances(ReadVec(ReadTokenSetup, s).value))
  {
    var short := (a: Bytes) => |a| < U16;
    var good := (x: TokenSetup) => |x.wallets| < U16 && forall a | a in x.wallets :: |a| < U16;
    forall r: Bytes | ReadTokenSetup(r).Got? ensures good(ReadTokenSetup(r).value) {
      VecGives(ReadString, r[1..], short);
    }
    VecGives(ReadTokenSetup, s, good);
  }

  lemma BatchGiven(s: Bytes)
    requires ReadWithdrawBatch(s).Got?
    ensures BatchFits(ReadWithdrawBatch(s).value)
  {
    var r2 := ReadU64(ReadString(s).rest).rest;
    TokensGiven(r2);
    VecGives(ReadInputType, ReadVec(ReadTokenWithdrawals, r2).rest, (x: InputUtxoType) => true);
  }

  lemma ListParamsGiven(tag: u8, r: Bytes)
    requires tag in {2, 3, 5, 6, 8} && ReadParams(tag, r).Got?
    ensures Fits(ReadParams(tag, r).value)
  {
    if tag == 2 {
      SetupsGiven(r);
    } else if tag == 3 {
      DepositsGiven(r);
    } else if tag == 8 {
      TokensGiven(r);
    } else {
      SettlementsGiven(r);
    }
  }

  lemma ScalarParamsGiven(tag: u8, r: Bytes)
    requires tag !in {2, 3, 5, 6, 8} && ReadParams(tag, r).Got?
    ensures Fits(ReadParams(tag, r).value)
  {
    if tag == 4 || tag == 9 {
      BatchGiven(r);
    }
  }

  /** Whatever bytes come in, an instruction that decodes is one that encodes
      back without losing anything. */
  lemma DecodedFits(s: Bytes)
    requires Read(s).Got?
    ensures Fits(Read(s).value)
  {
    if s[0] in {2, 3, 5, 6, 8} {
      ListParamsGiven(s[0], s[1..]);
    } else {
      ScalarParamsGiven(s[0], s[1..]);
    }
  }

  /** An instruction survives the codec if and only if its vectors and strings
      are at most 65535 long. */
  lemma RoundTripIff(i: Instruction)
    ensures Read(Write(i)) == Got(i, []) <==> Fits(i)
  {
    assert Write(i) + [] == Write(i);
    if Fits(i) {
      InstructionRoundTrip(i, []);
    } else if Read(Write(i)) == Got(i, []) {
      DecodedFits(Write(i));
      assert false;
    }
  }

  /** A token id of 65536 bytes is written behind a count of zero: what comes back
      has no id, and the id is left over. */
  lemma LongIdIsLost()
    ensures var id: Bytes := seq(65536, _ => 65); Read(Write(InitTokenState(id))) == Got(InitTokenState([]), id)
  {
    var id: Bytes := seq(65536, _ => 65);
    assert ToLE(65536, 2) == ToLE(0, 2) by {
      assert 65536 % 256 == 0 && 65536 / 256 == 256;
      assert ToLE(65536, 2) == [0] + ToLE(256, 1) && ToLE(0, 2) == [0] + ToLE(0, 1);
    }
    U16Back(0, id);
    assert Write(InitTokenState(id))[1..] == ToLE(0, 2) + id;
    assert TakeUpTo(id, 0) == ([], id);
  }
}
