/** Machine integers and little-endian byte strings. */
module Machine {
  const U8: int := 0x100
  const U16: int := 0x1_0000
  const U32: int := 0x1_0000_0000
  const U64: int := 0x1_0000_0000_0000_0000

  type u8 = x: int | 0 <= x < 0x100
  type u16 = x: int | 0 <= x < 0x1_0000
  type u32 = x: int | 0 <= x < 0x1_0000_0000
  type u64 = x: int | 0 <= x < 0x1_0000_0000_0000_0000
  type Bytes = seq<u8>
  type Bytes32 = b: Bytes | |b| == 32 witness seq(32, _ => 0)

  /** Unchecked u64 addition and subtraction, as in a release build. */
  function WrapAdd(a: u64, b: u64): u64 { (a + b) % U64 }
  function WrapSub(a: u64, b: u64): u64 { (a - b) % U64 }

  function Zeros(n: nat): (z: Bytes)
    ensures |z| == n && forall i | 0 <= i < n :: z[i] == 0
  {
    seq(n, _ => 0)
  }

  /** 256^n, the number of values of an n-byte integer. */
  function Pow256(n: nat): (p: nat)
    ensures p > 0
  {
    if n == 0 then 1 else 256 * Pow256(n - 1)
  }

  lemma PowValues()
    ensures Pow256(1) == U8 && Pow256(2) == U16 && Pow256(4) == U32 && Pow256(8) == U64
  {
    assert Pow256(4) == 256 * 256 * Pow256(2);
    assert Pow256(8) == 256 * 256 * 256 * 256 * Pow256(4);
  }

  function ToLE(v: nat, n: nat): (s: Bytes)
    ensures |s| == n
  {
    if n == 0 then [] else [v % 256] + ToLE(v / 256, n - 1)
  }

  function FromLE(s: Bytes): (v: nat)
    ensures v < Pow256(|s|)
  {
    if s == [] then 0 else s[0] + 256 * FromLE(s[1..])
  }

  lemma {:induction false} LERoundTrip(v: nat, n: nat)
    requires v < Pow256(n)
    ensures FromLE(ToLE(v, n)) == v
  {
    if n > 0 {
      LERoundTrip(v / 256, n - 1);
      assert ToLE(v, n)[1..] == ToLE(v / 256, n - 1);
    }
  }

  lemma {:induction false} ZerosLE(n: nat)
    ensures ToLE(0, n) == Zeros(n)
  {
    if n > 0 {
      ZerosLE(n - 1);
    }
  }
}

/** The accounts of the Arch exchange program, its instructions and its events
    (model/src/state.rs, model/src/instructions.rs). */
module ArchTypes {
  import opened Machine
  import opened Wrappers

  type Key = Bytes32
  type Hash = Bytes32

  const EMPTY_HASH: Hash := Zeros(32)

  const BALANCES_OFFSET: nat := 73
  const BALANCE_SIZE: nat := 100
  const MAX_ADDRESS_SIZE: nat := 92
  const MAX_TOKEN_ID_SIZE: nat := 32
  const EVENT_SIZE: nat := 64
  const MAX_EVENTS: nat := 100
  const EVENTS_OFFSET: nat := 288
  const RUNE_RECEIVER_OFFSET: nat := 6688
  const DUST_THRESHOLD: nat := 546
  const MAX_PERMITTED_DATA_INCREASE: nat := 10240
  const MAX_PERMITTED_DATA_LENGTH: nat := 10485760

  const ERROR_INVALID_ADDRESS_INDEX: nat := 601
  const ERROR_INVALID_ACCOUNT_INDEX: nat := 602
  const ERROR_INSUFFICIENT_BALANCE: nat := 603
  const ERROR_ADDRESS_MISMATCH: nat := 604
  const ERROR_SETTLEMENT_IN_PROGRESS: nat := 605
  const ERROR_NO_SETTLEMENT_IN_PROGRESS: nat := 606
  const ERROR_SETTLEMENT_BATCH_MISMATCH: nat := 607
  const ERROR_NETTING: nat := 608
  const ERROR_ALREADY_INITIALIZED: nat := 609
  const ERROR_STATE_ACCOUNT_MISMATCH: nat := 610
  const ERROR_NO_OUTPUTS_ALLOWED: nat := 611
  const ERROR_INVALID_ADDRESS: nat := 612
  const ERROR_INVALID_ACCOUNT_FLAGS: nat := 613
  const ERROR_VALUE_TOO_LARGE: nat := 614
  const ERROR_WALLET_LAST4_MISMATCH: nat := 615
  const ERROR_INVALID_ADDRESS_NETWORK: nat := 616
  const ERROR_INVALID_INPUT_TX: nat := 617
  const ERROR_WITHDRAWAL_IN_PROGRESS: nat := 618
  const ERROR_WITHDRAWAL_BATCH_MISMATCH: nat := 619
  const ERROR_NO_TX_OUTPUTS: nat := 620
  const ERROR_INVALID_ACCOUNT_TYPE: nat := 621
  const ERROR_INVALID_UTXO_TYPES: nat := 622
  const ERROR_NO_RUNE_RECEIVER: nat := 622
  const ERROR_WITHDRAWAL_NOT_ALLOWED: nat := 623
  const ERROR_INVALID_RUNE_ID: nat := 624

  datatype Network = Bitcoin | Testnet | Signet | Regtest
  datatype RuneId = RuneId(block: nat, tx: nat)

  // Instructions --------------------------------------------------------------

  datatype AddressIndex = AddressIndex(index: u32, last4: Bytes)
  datatype Adjustment = Adjustment(address: AddressIndex, amount: u64)
  datatype Withdrawal = Withdrawal(address: AddressIndex, amount: u64, feeAccount: u8,
                                   feeAddress: AddressIndex, feeAmount: u64)
  datatype TokenDeposits = TokenDeposits(account: u8, deposits: seq<Adjustment>)
  datatype TokenWithdrawals = TokenWithdrawals(account: u8, withdrawals: seq<Withdrawal>)
  datatype Settlement = Settlement(account: u8, increments: seq<Adjustment>, decrements: seq<Adjustment>,
                                   feeAmount: u64)
  datatype TokenSetup = TokenSetup(account: u8, wallets: seq<Bytes>)
  datatype InputUtxoType = BitcoinUtxo | RuneUtxo
  datatype WithdrawBatch = WithdrawBatch(tx: Bytes, changeAmount: u64, tokens: seq<TokenWithdrawals>,
                                         inputTypes: seq<InputUtxoType>)

  datatype Instruction =
    | InitProgramState(feeAccount: Bytes, changeAddress: Bytes, network: Network)
    | InitTokenState(tokenId: Bytes)
    | InitWalletBalances(setups: seq<TokenSetup>)
    | BatchDeposit(deposits: seq<TokenDeposits>)
    | PrepareBatchWithdraw(batch: WithdrawBatch)
    | PrepareBatchSettlement(settlements: seq<Settlement>)
    | SubmitBatchSettlement(settlements: seq<Settlement>)
    | RollbackBatchSettlement
    | RollbackBatchWithdraw(tokens: seq<TokenWithdrawals>)
    | SubmitBatchWithdraw(batch: WithdrawBatch)
    | UpdateWithdrawStateUtxo(txId: Bytes, vout: u32)
    | InitRuneReceiverState
    | SetTokenRuneId(runeId: Bytes)

  // Account contents ----------------------------------------------------------

  datatype Event =
    | FailedSettlement(account: u8, address: u32, requested: u64, balance: u64, errorCode: u32)
    | FailedWithdrawal(account: u8, address: u32, feeAccount: u8, feeAddress: u32, requested: u64,
                       fee: u64, balance: u64, feeBalance: u64, errorCode: u32)

  datatype Slot = Slot(address: Bytes, amount: u64)

  const NO_SLOT: Slot := Slot([], 0)

  /** A token account: `slots` are all the balance slots that its data has room
      for, of which the first `count` are assigned to wallets; `size` is the
      length of its data. */
  datatype TokenState = TokenState(program: Key, tokenId: Bytes, count: nat, slots: seq<Slot>, size: nat)

  /** A program account: `stale` is what is left of older events behind the
      current ones in the event region. */
  datatype ProgramState = ProgramState(withdrawAccount: Key, feeAccount: Bytes, changeAddress: Bytes, network: Network,
                                       settlementHash: Hash, lastSettlementHash: Hash,
                                       events: seq<Event>, stale: Bytes, runeReceiver: Option<Key>)

  datatype Account =
    | Empty
    | Program(p: ProgramState)
    | Token(t: TokenState)
    | Withdraw(program: Key, hash: Hash)
    | RuneReceiver(program: Key)

  /** Everything before the first NUL, as the string getters read it. */
  function UpToNul(s: Bytes): Bytes {
    if s == [] || s[0] == 0 then [] else [s[0]] + UpToNul(s[1..])
  }

  lemma {:induction false} UpToNulPadded(s: Bytes, n: nat)
    ensures UpToNul(s + Zeros(n)) == UpToNul(s)
  {
    if s == [] {
      assert s + Zeros(n) == Zeros(n);
    } else {
      UpToNulPadded(s[1..], n);
      assert (s + Zeros(n))[1..] == s[1..] + Zeros(n);
    }
  }

  lemma {:induction false} UpToNulWhole(s: Bytes)
    requires 0 !in s
    ensures UpToNul(s) == s
  {
    if s != [] {
      UpToNulWhole(s[1..]);
      assert s == [s[0]] + s[1..];
    }
  }
}
