/** The codec as the program runs it (model/src/serialization.rs): a reader that
    is used up, a writer that is appended to, and a loop for every list, each
    proved against the functions of ArchCodec and ArchStateCodec. */
module ArchWire {
  import opened Machine
  import opened Wrappers
  import opened Sequences
  import opened ArchTypes
  import opened ArchCodec
  import opened ArchLedger
  import opened ArchStateCodec
  import opened ArchAccounts

  /** `read` is the function that reads a settlement, an event, or the
      withdrawals of one token, whose definition a loop over it does not need. */
  ghost predicate ReadsSettlements(read: Bytes -> Decoded<Settlement>) {
    forall s: Bytes {:trigger ReadSettlement(s)} :: read(s) == ReadSettlement(s)
  }

  ghost predicate ReadsEvents(read: Bytes -> Decoded<Event>) {
    forall s: Bytes {:trigger ReadEvent(s)} :: read(s) == ReadEvent(s)
  }

  ghost predicate ReadsWithdrawals(read: Bytes -> Decoded<TokenWithdrawals>) {
    forall s: Bytes {:trigger ReadTokenWithdrawals(s)} :: read(s) == ReadTokenWithdrawals(s)
  }

  class Reader {
    var rest: Bytes

    /** The read did what the function says: it returned the value and used up
        its bytes, or it failed. */
    ghost predicate Did<T>(r: Result<T>, d: Decoded<T>)
      reads this
    {
      match d
      case Got(value, rest') => r == Ok(value) && rest == rest'
      case Bad => r == Err(InvalidInstructionData)
    }

    constructor (data: Bytes)
      ensures rest == data
    {
      rest := data;
    }

    // Primitives --------------------------------------------------------------------

    /** read_exact. */
    method Exact(n: nat) returns (r: Result<Bytes>)
      modifies this
      ensures Did(r, ReadFixed(old(rest), n))
    {
      if |rest| < n {
        return Err(InvalidInstructionData);
      }
      r := Ok(rest[..n]);
      rest := rest[n..];
    }

    method DecodeU8() returns (r: Result<u8>)
      modifies this
      ensures Did(r, ReadU8(old(rest)))
    {
      var b :- Exact(1);
      return Ok(b[0]);
    }

    method DecodeU16() returns (r: Result<u16>)
      modifies this
      ensures Did(r, ReadU16(old(rest)))
    {
      PowValues();
      var b :- Exact(2);
      return Ok(FromLE(b));
    }

    method DecodeU32() returns (r: Result<u32>)
      modifies this
      ensures Did(r, ReadU32(old(rest)))
    {
      PowValues();
      var b :- Exact(4);
      return Ok(FromLE(b));
    }

    method DecodeU64() returns (r: Result<u64>)
      modifies this
      ensures Did(r, ReadU64(old(rest)))
    {
      PowValues();
      var b :- Exact(8);
      return Ok(FromLE(b));
    }

    /** Up to `n` bytes. */
    method Take(n: nat) returns (s: Bytes)
      modifies this
      ensures (s, rest) == TakeUpTo(old(rest), n)
    {
      var m := if n <= |rest| then n else |rest|;
      s := rest[..m];
      rest := rest[m..];
    }

    method DecodeString() returns (r: Result<Bytes>)
      modifies this
      ensures Did(r, ReadString(old(rest)))
    {
      var n :- DecodeU16();
      var s := Take(n);
      return Ok(s);
    }

    method DecodePadded(n: nat) returns (s: Bytes)
      modifies this
      ensures Did(Ok(s), ReadPadded(old(rest), n))
    {
      var field := Take(n);
      var pos := TextLength(field);
      s := field[..pos];
    }

    // Batch entries -----------------------------------------------------------------

    method DecodeAddressIndex() returns (r: Result<AddressIndex>)
      modifies this
      ensures Did(r, ReadAddressIndex(old(rest)))
    {
      var index :- DecodeU32();
      var last4 :- Exact(4);
      return Ok(AddressIndex(index, last4));
    }

    method DecodeAdjustment() returns (r: Result<Adjustment>)
      modifies this
      ensures Did(r, ReadAdjustment(old(rest)))
    {
      var address :- DecodeAddressIndex();
      var amount :- DecodeU64();
      return Ok(Adjustment(address, amount));
    }

    method DecodeAdjustmentsList(n: nat) returns (r: Result<seq<Adjustment>>)
      modifies this
      ensures Did(r, ReadMany(n, ReadAdjustment, old(rest)))
    {
      var xs := [];
      ghost var whole := ReadMany(n, ReadAdjustment, rest);
      StartRead(n, ReadAdjustment, rest);
      for i := 0 to n
        invariant Continues(whole, xs, ReadMany(n - i, ReadAdjustment, rest))
      {
        NextRead(whole, xs, n - i, ReadAdjustment, rest);
        var x :- DecodeAdjustment();
        xs := xs + [x];
      }
      AllRead(whole, xs, ReadAdjustment, rest);
      return Ok(xs);
    }

    method DecodeAdjustments() returns (r: Result<seq<Adjustment>>)
      modifies this
      ensures Did(r, ReadVec(ReadAdjustment, old(rest)))
    {
      var n :- DecodeU16();
      r := DecodeAdjustmentsList(n);
    }

    method DecodeWithdrawal() returns (r: Result<Withdrawal>)
      modifies this
      ensures Did(r, ReadWithdrawal(old(rest)))
    {
      var address :- DecodeAddressIndex();
      var amount :- DecodeU64();
      var feeAccount :- DecodeU8();
      var feeAddress :- DecodeAddressIndex();
      var feeAmount :- DecodeU64();
      return Ok(Withdrawal(address, amount, feeAccount, feeAddress, feeAmount));
    }

    method DecodeTokenDeposits() returns (r: Result<TokenDeposits>)
      modifies this
      ensures Did(r, ReadTokenDeposits(old(rest)))
    {
      var account :- DecodeU8();
      var deposits :- DecodeAdjustments();
      return Ok(TokenDeposits(account, deposits));
    }

    method DecodeWithdrawalList(n: nat) returns (r: Result<seq<Withdrawal>>)
      modifies this
      ensures Did(r, ReadMany(n, ReadWithdrawal, old(rest)))
    {
      var xs := [];
      ghost var whole := ReadMany(n, ReadWithdrawal, rest);
      StartRead(n, ReadWithdrawal, rest);
      for i := 0 to n
        invariant Continues(whole, xs, ReadMany(n - i, ReadWithdrawal, rest))
      {
        NextRead(whole, xs, n - i, ReadWithdrawal, rest);
        var x :- DecodeWithdrawal();
        xs := xs + [x];
      }
      AllRead(whole, xs, ReadWithdrawal, rest);
      return Ok(xs);
    }

    method DecodeTokenWithdrawals() returns (r: Result<TokenWithdrawals>)
      modifies this
      ensures Did(r, ReadTokenWithdrawals(old(rest)))
    {
      var account :- DecodeU8();
      var n :- DecodeU16();
      var xs :- DecodeWithdrawalList(n);
      return Ok(TokenWithdrawals(account, xs));
    }

    method DecodeSettlement() returns (r: Result<Settlement>)
      modifies this
      ensures Did(r, ReadSettlement(old(rest)))
    {
      var account :- DecodeU8();
      var increments :- DecodeAdjustments();
      var decrements :- DecodeAdjustments();
      var feeAmount :- DecodeU64();
      return Ok(Settlement(account, increments, decrements, feeAmount));
    }

    method DecodeStringList(n: nat) returns (r: Result<seq<Bytes>>)
      modifies this
      ensures Did(r, ReadMany(n, ReadString, old(rest)))
    {
      var xs := [];
      ghost var whole := ReadMany(n, ReadString, rest);
      StartRead(n, ReadString, rest);
      for i := 0 to n
        invariant Continues(whole, xs, ReadMany(n - i, ReadString, rest))
      {
        NextRead(whole, xs, n - i, ReadString, rest);
        var x :- DecodeString();
        xs := xs + [x];
      }
      AllRead(whole, xs, ReadString, rest);
      return Ok(xs);
    }

    method DecodeTokenSetup() returns (r: Result<TokenSetup>)
      modifies this
      ensures Did(r, ReadTokenSetup(old(rest)))
    {
      var account :- DecodeU8();
      var n :- DecodeU16();
      var xs :- DecodeStringList(n);
      return Ok(TokenSetup(account, xs));
    }

    // Instruction parameters --------------------------------------------------------

    method DecodeTokenSetupsList(n: nat) returns (r: Result<seq<TokenSetup>>)
      modifies this
      ensures Did(r, ReadMany(n, ReadTokenSetup, old(rest)))
    {
      var xs := [];
      ghost var whole := ReadMany(n, ReadTokenSetup, rest);
      StartRead(n, ReadTokenSetup, rest);
      for i := 0 to n
        invariant Continues(whole, xs, ReadMany(n - i, ReadTokenSetup, rest))
      {
        NextRead(whole, xs, n - i, ReadTokenSetup, rest);
        var x :- DecodeTokenSetup();
        xs := xs + [x];
      }
      AllRead(whole, xs, ReadTokenSetup, rest);
      return Ok(xs);
    }

    method DecodeTokenSetups() returns (r: Result<seq<TokenSetup>>)
      modifies this
      ensures Did(r, ReadVec(ReadTokenSetup, old(rest)))
    {
      var n :- DecodeU16();
      r := DecodeTokenSetupsList(n);
    }

    method DecodeDepositsList(n: nat) returns (r: Result<seq<TokenDeposits>>)
      modifies this
      ensures Did(r, ReadMany(n, ReadTokenDeposits, old(rest)))
    {
      var xs := [];
      ghost var whole := ReadMany(n, ReadTokenDeposits, rest);
      StartRead(n, ReadTokenDeposits, rest);
      for i := 0 to n
        invariant Continues(whole, xs, ReadMany(n - i, ReadTokenDeposits, rest))
      {
        NextRead(whole, xs, n - i, ReadTokenDeposits, rest);
        var x :- DecodeTokenDeposits();
        xs := xs + [x];
      }
      AllRead(whole, xs, ReadTokenDeposits, rest);
      return Ok(xs);
    }

    method DecodeDeposits() returns (r: Result<seq<TokenDeposits>>)
      modifies this
      ensures Did(r, ReadVec(ReadTokenDeposits, old(rest)))
    {
      var n :- DecodeU16();
      r := DecodeDepositsList(n);
    }

    method DecodeNextSettlement(n: nat, xs: seq<Settlement>, ghost read: Bytes -> Decoded<Settlement>,
                                ghost whole: Decoded<seq<Settlement>>) returns (r: Result<seq<Settlement>>)
      requires ReadsSettlements(read) && n > 0 && Continues(whole, xs, ReadMany(n, read, rest))
      modifies this
      ensures r.Ok? ==> Continues(whole, r.value, ReadMany(n - 1, read, rest))
      ensures r.Err? ==> r == Err(InvalidInstructionData) && whole == Bad
    {
      NextRead(whole, xs, n, read, rest);
      var x :- DecodeSettlement();
      return Ok(xs + [x]);
    }

    method DecodeSettlementsList(n: nat, ghost read: Bytes -> Decoded<Settlement>,
                                 ghost whole: Decoded<seq<Settlement>>) returns (r: Result<seq<Settlement>>)
      requires ReadsSettlements(read) && Continues(whole, [], ReadMany(n, read, rest))
      modifies this
      ensures Did(r, whole)
    {
      var xs := [];
      for i := 0 to n
        invariant Continues(whole, xs, ReadMany(n - i, read, rest))
      {
        xs :- DecodeNextSettlement(n - i, xs, read, whole);
      }
      AllRead(whole, xs, read, rest);
      return Ok(xs);
    }

    method DecodeSettlements() returns (r: Result<seq<Settlement>>)
      modifies this
      ensures Did(r, ReadVec(ReadSettlement, old(rest)))
    {
      var n :- DecodeU16();
      ghost var whole := ReadMany(n, ReadSettlement, rest);
      StartRead(n, ReadSettlement, rest);
      r := DecodeSettlementsList(n, ReadSettlement, whole);
    }

    method DecodeNextWithdrawals(n: nat, xs: seq<TokenWithdrawals>, ghost read: Bytes -> Decoded<TokenWithdrawals>,
                                 ghost whole: Decoded<seq<TokenWithdrawals>>) returns (r: Result<seq<TokenWithdrawals>>)
      requires ReadsWithdrawals(read) && n > 0 && Continues(whole, xs, ReadMany(n, read, rest))
      modifies this
      ensures r.Ok? ==> Continues(whole, r.value, ReadMany(n - 1, read, rest))
      ensures r.Err? ==> r == Err(InvalidInstructionData) && whole == Bad
    {
      NextRead(whole, xs, n, read, rest);
      var x :- DecodeTokenWithdrawals();
      return Ok(xs + [x]);
    }

    method DecodeWithdrawalsList(n: nat, ghost read: Bytes -> Decoded<TokenWithdrawals>,
                                 ghost whole: Decoded<seq<TokenWithdrawals>>) returns (r: Result<seq<TokenWithdrawals>>)
      requires ReadsWithdrawals(read) && Continues(whole, [], ReadMany(n, read, rest))
      modifies this
      ensures Did(r, whole)
    {
      var xs := [];
      for i := 0 to n
        invariant Continues(whole, xs, ReadMany(n - i, read, rest))
      {
        xs :- DecodeNextWithdrawals(n - i, xs, read, whole);
      }
      AllRead(whole, xs, read, rest);
      return Ok(xs);
    }

    method DecodeWithdrawals() returns (r: Result<seq<TokenWithdrawals>>)
      modifies this
      ensures Did(r, ReadVec(ReadTokenWithdrawals, old(rest)))
    {
      var n :- DecodeU16();
      ghost var whole := ReadMany(n, ReadTokenWithdrawals, rest);
      StartRead(n, ReadTokenWithdrawals, rest);
      r := DecodeWithdrawalsList(n, ReadTokenWithdrawals, whole);
    }

    method DecodeInputType() returns (r: Result<InputUtxoType>)
      modifies this
      ensures Did(r, ReadInputType(old(rest)))
    {
      var b :- DecodeU8();
      return Ok(if b == 1 then RuneUtxo else BitcoinUtxo);
    }

    method DecodeInputTypesList(n: nat) returns (r: Result<seq<InputUtxoType>>)
      modifies this
      ensures Did(r, ReadMany(n, ReadInputType, old(rest)))
    {
      var xs := [];
      ghost var whole := ReadMany(n, ReadInputType, rest);
      StartRead(n, ReadInputType, rest);
      for i := 0 to n
        invariant Continues(whole, xs, ReadMany(n - i, ReadInputType, rest))
      {
        NextRead(whole, xs, n - i, ReadInputType, rest);
        var x :- DecodeInputType();
        xs := xs + [x];
      }
      AllRead(whole, xs, ReadInputType, rest);
      return Ok(xs);
    }

    method DecodeInputTypes() returns (r: Result<seq<InputUtxoType>>)
      modifies this
      ensures Did(r, ReadVec(ReadInputType, old(rest)))
    {
      var n :- DecodeU16();
      r := DecodeInputTypesList(n);
    }

    method DecodeWithdrawBatch() returns (r: Result<WithdrawBatch>)
      modifies this
      ensures Did(r, ReadWithdrawBatch(old(rest)))
    {
      var tx :- DecodeString();
      var changeAmount :- DecodeU64();
      var tokens :- DecodeWithdrawals();
      var inputTypes :- DecodeInputTypes();
      return Ok(WithdrawBatch(tx, changeAmount, tokens, inputTypes));
    }

    method DecodeInstruction() returns (r: Result<Instruction>)
      modifies this
      ensures Did(r, Read(old(rest)))
    {
      var tag :- DecodeU8();
      r := DecodeParams(tag);
    }

    method DecodeParams(tag: u8) returns (r: Result<Instruction>)
      modifies this
      ensures Did(r, ReadParams(tag, old(rest)))
    {
      match tag
      case 0 =>
        var fee :- DecodeString();
        var change :- DecodeString();
        var network :- DecodeU8();
        return Ok(InitProgramState(fee, change, NetworkOf(network)));
      case 1 =>
        var id :- DecodeString();
        return Ok(InitTokenState(id));
      case 2 =>
        var setups :- DecodeTokenSetups();
        return Ok(InitWalletBalances(setups));
      case 3 =>
        var deposits :- DecodeDeposits();
        return Ok(BatchDeposit(deposits));
      case 4 =>
        var batch :- DecodeWithdrawBatch();
        return Ok(PrepareBatchWithdraw(batch));
      case 5 =>
        var settlements :- DecodeSettlements();
        return Ok(PrepareBatchSettlement(settlements));
      case 6 =>
        var settlements :- DecodeSettlements();
        return Ok(SubmitBatchSettlement(settlements));
      case 7 =>
        return Ok(RollbackBatchSettlement);
      case 8 =>
        var tokens :- DecodeWithdrawals();
        return Ok(RollbackBatchWithdraw(tokens));
      case 9 =>
        var batch :- DecodeWithdrawBatch();
        return Ok(SubmitBatchWithdraw(batch));
      case 10 =>
        var txId :- DecodeString();
        var vout :- DecodeU32();
        return Ok(UpdateWithdrawStateUtxo(txId, vout));
      case 11 =>
        return Ok(InitRuneReceiverState);
      case 12 =>
        var id :- DecodeString();
        return Ok(SetTokenRuneId(id));
      case _ =>
        return Err(InvalidInstructionData);
    }

    // Account data ------------------------------------------------------------------

    method DecodeBalance() returns (r: Result<Slot>)
      modifies this
      ensures Did(r, ReadBalance(old(rest)))
    {
      var address := DecodePadded(MAX_ADDRESS_SIZE);
      var amount :- DecodeU64();
      return Ok(Slot(address, amount));
    }

    method DecodeEventFields() returns (r: Result<Event>)
      modifies this
      ensures Did(r, ReadEventFields(old(rest)))
    {
      var kind :- DecodeU8();
      if kind == 0 {
        r := DecodeFailedSettlement();
      } else if kind == 1 {
        r := DecodeFailedWithdrawal();
      } else {
        r := Err(InvalidInstructionData);
      }
    }

    method DecodeFailedSettlement() returns (r: Result<Event>)
      modifies this
      ensures Did(r, ReadEventFields([0] + old(rest)))
    {
      assert ReadU8([0] + rest) == Got(0, rest);
      var account :- DecodeU8();
      var address :- DecodeU32();
      var requested :- DecodeU64();
      var balance :- DecodeU64();
      var code :- DecodeU32();
      return Ok(FailedSettlement(account, address, requested, balance, code));
    }

    method DecodeFailedWithdrawal() returns (r: Result<Event>)
      modifies this
      ensures Did(r, ReadEventFields([1] + old(rest)))
    {
      assert ReadU8([1] + rest) == Got(1, rest);
      var account :- DecodeU8();
      var address :- DecodeU32();
      var feeAccount :- DecodeU8();
      var feeAddress :- DecodeU32();
      var requested :- DecodeU64();
      var fee :- DecodeU64();
      var balance :- DecodeU64();
      var feeBalance :- DecodeU64();
      var code :- DecodeU32();
      return Ok(FailedWithdrawal(account, address, feeAccount, feeAddress, requested, fee, balance, feeBalance, code));
    }

    /** An event is read from its own 64 bytes. */
    method DecodeEvent() returns (r: Result<Event>)
      modifies this
      ensures Did(r, ReadEvent(old(rest)))
    {
      var data := Take(EVENT_SIZE);
      var fields := new Reader(data);
      r := fields.DecodeEventFields();
    }

    method DecodeBalanceList(n: nat) returns (r: Result<seq<Slot>>)
      modifies this
      ensures Did(r, ReadMany(n, ReadBalance, old(rest)))
    {
      var xs := [];
      ghost var whole := ReadMany(n, ReadBalance, rest);
      StartRead(n, ReadBalance, rest);
      for i := 0 to n
        invariant Continues(whole, xs, ReadMany(n - i, ReadBalance, rest))
      {
        NextRead(whole, xs, n - i, ReadBalance, rest);
        var x :- DecodeBalance();
        xs := xs + [x];
      }
      AllRead(whole, xs, ReadBalance, rest);
      return Ok(xs);
    }

    method DecodeTokenState() returns (r: Result<TokenRecord>)
      modifies this
      ensures Did(r, ReadTokenState(old(rest)))
    {
      var kind :- DecodeU8();
      var version :- DecodeU32();
      var program :- Exact(32);
      var tokenId := DecodePadded(MAX_TOKEN_ID_SIZE);
      var n :- DecodeU32();
      var xs :- DecodeBalanceList(n);
      return Ok(TokenRecord(KindOf(kind), version, program, tokenId, xs));
    }

    method DecodeProgramFields() returns (r: Result<ProgramRecord>)
      modifies this
      ensures Did(r, ReadProgramFields(old(rest)))
    {
      var kind :- DecodeU8();
      var version :- DecodeU32();
      var withdrawAccount :- Exact(32);
      var feeAccount := DecodePadded(MAX_ADDRESS_SIZE);
      var changeAddress := DecodePadded(MAX_ADDRESS_SIZE);
      var network :- DecodeU8();
      var settlementHash :- Exact(32);
      var lastSettlementHash :- Exact(32);
      return Ok(ProgramRecord(KindOf(kind), version, withdrawAccount, feeAccount, changeAddress, NetworkOf(network),
                              settlementHash, lastSettlementHash, []));
    }

    method DecodeNextEvent(n: nat, xs: seq<Event>, ghost read: Bytes -> Decoded<Event>,
                           ghost whole: Decoded<seq<Event>>) returns (r: Result<seq<Event>>)
      requires ReadsEvents(read) && n > 0 && Continues(whole, xs, ReadMany(n, read, rest))
      modifies this
      ensures r.Ok? ==> Continues(whole, r.value, ReadMany(n - 1, read, rest))
      ensures r.Err? ==> r == Err(InvalidInstructionData) && whole == Bad
    {
      NextRead(whole, xs, n, read, rest);
      var x :- DecodeEvent();
      return Ok(xs + [x]);
    }

    method DecodeEventList(n: nat, ghost read: Bytes -> Decoded<Event>, ghost whole: Decoded<seq<Event>>)
        returns (r: Result<seq<Event>>)
      requires ReadsEvents(read) && Continues(whole, [], ReadMany(n, read, rest))
      modifies this
      ensures Did(r, whole)
    {
      var xs := [];
      for i := 0 to n
        invariant Continues(whole, xs, ReadMany(n - i, read, rest))
      {
        xs :- DecodeNextEvent(n - i, xs, read, whole);
      }
      AllRead(whole, xs, read, rest);
      return Ok(xs);
    }

    method DecodeProgramState() returns (r: Result<ProgramRecord>)
      modifies this
      ensures Did(r, ReadProgramState(old(rest)))
    {
      var record :- DecodeProgramFields();
      var n :- DecodeU16();
      ghost var whole := ReadMany(n, ReadEvent, rest);
      StartRead(n, ReadEvent, rest);
      var xs :- DecodeEventList(n, ReadEvent, whole);
      return Ok(record.(events := xs));
    }
  }

  class Writer {
    var out: Bytes

    constructor ()
      ensures out == []
    {
      out := [];
    }

    /** What was appended, and how much of it the encoder says it was. */
    ghost predicate Appended(before: Bytes, s: Bytes, n: nat)
      reads this
    {
      out == before + s && n == |s|
    }

    method Put(s: Bytes) returns (n: nat)
      modifies this
      ensures Appended(old(out), s, n)
    {
      out := out + s;
      n := |s|;
    }

    method EncodeString(s: Bytes) returns (n: nat)
      modifies this
      ensures Appended(old(out), WriteString(s), n)
    {
      var n1 := Put(ToLE(|s|, 2));
      var n2 := Put(s);
      n := n1 + n2;
    }

    method EncodeAddressIndex(a: AddressIndex) returns (n: nat)
      modifies this
      ensures Appended(old(out), WriteAddressIndex(a), n)
    {
      var n1 := Put(ToLE(a.index, 4));
      var n2 := Put(a.last4);
      n := n1 + n2;
    }

    method EncodeAdjustment(a: Adjustment) returns (n: nat)
      modifies this
      ensures Appended(old(out), WriteAdjustment(a), n)
    {
      var n1 := EncodeAddressIndex(a.address);
      var n2 := Put(ToLE(a.amount, 8));
      n := n1 + n2;
    }

    method EncodeAdjustments(xs: seq<Adjustment>) returns (n: nat)
      modifies this
      ensures Appended(old(out), WriteVec(xs, WriteAdjustment), n)
    {
      n := Put(ToLE(|xs|, 2));
      for i := 0 to |xs|
        invariant Remaining(old(out), xs, WriteAdjustment, i, n)
      {
        var m := EncodeAdjustment(xs[i]);
        NextWritten(old(out), xs, WriteAdjustment, i, n, m);
        n := n + m;
      }
    }

    /** With the elements from `i` on still to be written. */
    ghost predicate Remaining<T>(before: Bytes, xs: seq<T>, write: T -> Bytes, i: nat, n: nat)
      requires i <= |xs|
      reads this
    {
      && out + WriteMany(xs[i..], write) == before + WriteVec(xs, write)
      && n == |out| - |before|
    }

    lemma AllWritten<T>(before: Bytes, xs: seq<T>, write: T -> Bytes, n: nat)
      requires Remaining(before, xs, write, |xs|, n)
      ensures Appended(before, WriteVec(xs, write), n)
    {
      assert out + [] == out;
    }

    /** One more element has been appended to what was written before. */
    lemma NextWritten<T>(before: Bytes, xs: seq<T>, write: T -> Bytes, i: nat, n: nat, m: nat)
      requires i < |xs| && m == |write(xs[i])| && |out| >= m && out[|out| - m..] == write(xs[i])
      requires out[..|out| - m] + WriteMany(xs[i..], write) == before + WriteVec(xs, write)
      requires n == |out| - m - |before|
      ensures Remaining(before, xs, write, i + 1, n + m)
    {
      assert xs[i..][1..] == xs[i + 1..];
      assert out == out[..|out| - m] + write(xs[i]);
      assert out + WriteMany(xs[i + 1..], write) == out[..|out| - m] + (write(xs[i]) + WriteMany(xs[i + 1..], write));
    }

    method EncodeWithdrawal(d: Withdrawal) returns (n: nat)
      modifies this
      ensures Appended(old(out), WriteWithdrawal(d), n)
    {
      var n1 := EncodeAddressIndex(d.address);
      var n2 := Put(ToLE(d.amount, 8));
      var n3 := Put([d.feeAccount]);
      var n4 := EncodeAddressIndex(d.feeAddress);
      var n5 := Put(ToLE(d.feeAmount, 8));
      n := n1 + n2 + n3 + n4 + n5;
    }

    method EncodeTokenDeposits(d: TokenDeposits) returns (n: nat)
      modifies this
      ensures Appended(old(out), WriteTokenDeposits(d), n)
    {
      var n1 := Put([d.account]);
      var n2 := EncodeAdjustments(d.deposits);
      n := n1 + n2;
    }

    method EncodeWithdrawalList(xs: seq<Withdrawal>) returns (n: nat)
      modifies this
      ensures Appended(old(out), WriteVec(xs, WriteWithdrawal), n)
    {
      n := Put(ToLE(|xs|, 2));
      for i := 0 to |xs|
        invariant Remaining(old(out), xs, WriteWithdrawal, i, n)
      {
        var m := EncodeWithdrawal(xs[i]);
        NextWritten(old(out), xs, WriteWithdrawal, i, n, m);
        n := n + m;
      }
      AllWritten(old(out), xs, WriteWithdrawal, n);
    }

    method EncodeTokenWithdrawals(d: TokenWithdrawals) returns (n: nat)
      modifies this
      ensures Appended(old(out), WriteTokenWithdrawals(d), n)
    {
      var n1 := Put([d.account]);
      var n2 := EncodeWithdrawalList(d.withdrawals);
      n := n1 + n2;
    }

    method EncodeSettlement(s: Settlement) returns (n: nat)
      modifies this
      ensures Appended(old(out), WriteSettlement(s), n)
    {
      var n1 := Put([s.account]);
      var n2 := EncodeAdjustments(s.increments);
      var n3 := EncodeAdjustments(s.decrements);
      var n4 := Put(ToLE(s.feeAmount, 8));
      n := n1 + n2 + n3 + n4;
    }

    method EncodeStringList(xs: seq<Bytes>) returns (n: nat)
      modifies this
      ensures Appended(old(out), WriteVec(xs, WriteString), n)
    {
      n := Put(ToLE(|xs|, 2));
      for i := 0 to |xs|
        invariant Remaining(old(out), xs, WriteString, i, n)
      {
        var m := EncodeString(xs[i]);
        NextWritten(old(out), xs, WriteString, i, n, m);
        n := n + m;
      }
      AllWritten(old(out), xs, WriteString, n);
    }

    method EncodeTokenSetup(d: TokenSetup) returns (n: nat)
      modifies this
      ensures Appended(old(out), WriteTokenSetup(d), n)
    {
      var n1 := Put([d.account]);
      var n2 := EncodeStringList(d.wallets);
      n := n1 + n2;
    }

    method EncodeTokenSetups(xs: seq<TokenSetup>) returns (n: nat)
      modifies this
      ensures Appended(old(out), WriteVec(xs, WriteTokenSetup), n)
    {
      n := Put(ToLE(|xs|, 2));
      for i := 0 to |xs|
        invariant Remaining(old(out), xs, WriteTokenSetup, i, n)
      {
        var m := EncodeTokenSetup(xs[i]);
        NextWritten(old(out), xs, WriteTokenSetup, i, n, m);
        n := n + m;
      }
    }

    method EncodeDeposits(xs: seq<TokenDeposits>) returns (n: nat)
      modifies this
      ensures Appended(old(out), WriteVec(xs, WriteTokenDeposits), n)
    {
      n := Put(ToLE(|xs|, 2));
      for i := 0 to |xs|
        invariant Remaining(old(out), xs, WriteTokenDeposits, i, n)
      {
        var m := EncodeTokenDeposits(xs[i]);
        NextWritten(old(out), xs, WriteTokenDeposits, i, n, m);
        n := n + m;
      }
    }

    method EncodeSettlements(xs: seq<Settlement>) returns (n: nat)
      modifies this
      ensures Appended(old(out), WriteVec(xs, WriteSettlement), n)
    {
      n := Put(ToLE(|xs|, 2));
      for i := 0 to |xs|
        invariant Remaining(old(out), xs, WriteSettlement, i, n)
      {
        var m := EncodeSettlement(xs[i]);
        NextWritten(old(out), xs, WriteSettlement, i, n, m);
        n := n + m;
      }
    }

    method EncodeWithdrawals(xs: seq<TokenWithdrawals>) returns (n: nat)
      modifies this
      ensures Appended(old(out), WriteVec(xs, WriteTokenWithdrawals), n)
    {
      n := Put(ToLE(|xs|, 2));
      for i := 0 to |xs|
        invariant Remaining(old(out), xs, WriteTokenWithdrawals, i, n)
      {
        var m := EncodeTokenWithdrawals(xs[i]);
        NextWritten(old(out), xs, WriteTokenWithdrawals, i, n, m);
        n := n + m;
      }
    }

    method EncodeInputTypes(xs: seq<InputUtxoType>) returns (n: nat)
      modifies this
      ensures Appended(old(out), WriteVec(xs, WriteInputType), n)
    {
      n := Put(ToLE(|xs|, 2));
      for i := 0 to |xs|
        invariant Remaining(old(out), xs, WriteInputType, i, n)
      {
        var m := Put([if xs[i] == RuneUtxo then 1 else 0]);
        NextWritten(old(out), xs, WriteInputType, i, n, m);
        n := n + m;
      }
    }

    method EncodeWithdrawBatch(b: WithdrawBatch) returns (n: nat)
      modifies this
      ensures Appended(old(out), WriteWithdrawBatch(b), n)
    {
      var n1 := EncodeString(b.tx);
      var n2 := Put(ToLE(b.changeAmount, 8));
      var n3 := EncodeWithdrawals(b.tokens);
      var n4 := EncodeInputTypes(b.inputTypes);
      n := n1 + n2 + n3 + n4;
    }

    method EncodeInit(fee: Bytes, change: Bytes, network: Network) returns (n: nat)
      modifies this
      ensures Appended(old(out), WriteString(fee) + WriteString(change) + [NetworkByte(network)], n)
    {
      var n1 := EncodeString(fee);
      var n2 := EncodeString(change);
      var n3 := Put([NetworkByte(network)]);
      n := n1 + n2 + n3;
    }

    method EncodeOutpoint(txId: Bytes, vout: u32) returns (n: nat)
      modifies this
      ensures Appended(old(out), WriteString(txId) + ToLE(vout, 4), n)
    {
      var n1 := EncodeString(txId);
      var n2 := Put(ToLE(vout, 4));
      n := n1 + n2;
    }

    method EncodeParams(i: Instruction) returns (n: nat)
      modifies this
      ensures Appended(old(out), WriteParams(i), n)
    {
      match i
      case InitProgramState(fee, change, network) => n := EncodeInit(fee, change, network);
      case InitTokenState(id) => n := EncodeString(id);
      case InitWalletBalances(setups) => n := EncodeTokenSetups(setups);
      case BatchDeposit(deposits) => n := EncodeDeposits(deposits);
      case PrepareBatchWithdraw(batch) => n := EncodeWithdrawBatch(batch);
      case PrepareBatchSettlement(settlements) => n := EncodeSettlements(settlements);
      case SubmitBatchSettlement(settlements) => n := EncodeSettlements(settlements);
      case RollbackBatchSettlement => n := Put([]);
      case RollbackBatchWithdraw(tokens) => n := EncodeWithdrawals(tokens);
      case SubmitBatchWithdraw(batch) => n := EncodeWithdrawBatch(batch);
      case UpdateWithdrawStateUtxo(txId, vout) => n := EncodeOutpoint(txId, vout);
      case InitRuneReceiverState => n := Put([]);
      case SetTokenRuneId(id) => n := EncodeString(id);
    }

    /** All 64 bytes of an event are appended, but the length that is returned is
        that of the padding alone. */
    method EncodeEvent(e: Event) returns (n: nat)
      modifies this
      ensures out == old(out) + WriteEvent(e)
      ensures n == if e.FailedSettlement? then 38 else 17
    {
      var fields :=
        match e
        case FailedSettlement(account, address, requested, balance, code) =>
          [0, account] + ToLE(address, 4) + ToLE(requested, 8) + ToLE(balance, 8) + ToLE(code, 4)
        case FailedWithdrawal(account, address, feeAccount, feeAddress, requested, fee, balance, feeBalance, code) =>
          [1, account] + ToLE(address, 4) + [feeAccount] + ToLE(feeAddress, 4) + ToLE(requested, 8)
          + ToLE(fee, 8) + ToLE(balance, 8) + ToLE(feeBalance, 8) + ToLE(code, 4);
      var written := Put(fields);
      n := Put(Zeros(EVENT_SIZE - written));
    }

    method EncodeInstruction(i: Instruction) returns (n: nat)
      modifies this
      ensures Appended(old(out), Write(i), n)
    {
      var n1 := Put([Tag(i)]);
      var n2 := EncodeParams(i);
      Joined(old(out), [Tag(i)], WriteParams(i));
      n := n1 + n2;
    }
  }

  /** Encoding into a buffer and decoding from it: every instruction that fits
      comes back, and nothing is left over. */
  method EncodeAndDecode(i: Instruction) returns (r: Result<Instruction>)
    requires Fits(i)
    ensures r == Ok(i)
  {
    var writer := new Writer();
    var n := writer.EncodeInstruction(i);
    InstructionRoundTrip(i, []);
    assert writer.out == Write(i) + [];
    var reader := new Reader(writer.out);
    r := reader.DecodeInstruction();
  }
}
