/** The accounts that the program is handed: buffers of bytes that it reads and
    writes in place (model/src/state.rs, arch/program/src/account.rs). */
module ArchAccounts {
  import opened Machine
  import opened Wrappers
  import opened ArchTypes
  import opened ArchCodec
  import opened ArchLedger
  import opened ArchLayout
  import opened ArchStateCodec
  import opened ArchChecks

  /** How far the text of a zero-padded field reaches. */
  method TextLength(s: Bytes) returns (pos: nat)
    ensures pos <= |s| && s[..pos] == UpToNul(s)
  {
    pos := 0;
    while pos < |s| && s[pos] != 0
      invariant pos <= |s| && UpToNul(s) == s[..pos] + UpToNul(s[pos..])
    {
      assert s[pos..][1..] == s[pos + 1..];
      pos := pos + 1;
    }
    assert UpToNul(s[pos..]) == [];
  }

  /** An account of a transaction; `rec` is what its bytes stand for. */
  class AccountInfo {
    const key: Key
    const isSigner: bool
    const isWritable: bool
    const originalDataLen: nat
    var data: Bytes
    ghost var rec: Account

    /** The data is the layout of the record; a token account has grown by at
        most one step since the transaction began. */
    ghost predicate Holds(data: Bytes, rec: Account) {
      && Stored(rec) && data == BytesOf(rec)
      && (rec.Empty? ==> originalDataLen == 0)
      && (rec.Token? ==> originalDataLen % 10240 == 0 && originalDataLen <= MAX_PERMITTED_DATA_LENGTH
                         && (|data| == originalDataLen || |data| == originalDataLen + MAX_PERMITTED_DATA_INCREASE))
    }

    ghost predicate Valid()
      reads this
    {
      Holds(data, rec)
    }

    /** The bytes, decoded as a client decodes them, are the record: the setters
        below change the data so that exactly their field of it changes. */
    lemma Decodes()
      requires Valid()
      ensures rec.Token? ==> ReadTokenState(data) == Got(TokenRecordOf(rec.t), data[SlotOffset(rec.t.count)..])
      ensures rec.Program? ==> ReadProgramState(data) == Got(ProgramRecordOf(rec.p), rec.p.stale + ReceiverBytes(rec.p))
      ensures rec.Withdraw?
          ==> ReadWithdrawState(data) == Got(WithdrawRecord(Some(WithdrawKind), 0, rec.program, rec.hash), [])
      ensures rec.RuneReceiver?
          ==> ReadRuneReceiverState(data) == Got(RuneReceiverRecord(Some(RuneReceiverKind), 0, rec.program), [])
    {
      match rec
      case Empty =>
      case Token(t) => TokenDecodes(t);
      case Program(p) => ProgramDecodes(p);
      case Withdraw(program, hash) => WithdrawDecodes(program, hash);
      case RuneReceiver(program) => RuneReceiverDecodes(program);
    }

    constructor (key: Key, isSigner: bool, isWritable: bool, data: Bytes, ghost a: Account)
      requires Stored(a) && data == BytesOf(a) && |data| <= MAX_PERMITTED_DATA_LENGTH
      ensures Valid() && rec == a && originalDataLen == |data|
      ensures this.key == key && this.isSigner == isSigner && this.isWritable == isWritable
    {
      this.key := key;
      this.isSigner := isSigner;
      this.isWritable := isWritable;
      this.originalDataLen := |data|;
      this.data := data;
      this.rec := a;
    }

    /** Change the length of the data; new bytes are zero.  More than one step
        beyond the original length is refused. */
    method Realloc(newLen: nat) returns (r: Result<()>)
      modifies this`data
      ensures if newLen != |old(data)| && newLen > originalDataLen + MAX_PERMITTED_DATA_INCREASE
              then r == Err(InvalidRealloc) && data == old(data)
              else r == Ok(()) && data == if newLen <= |old(data)| then old(data)[..newLen]
                  else old(data) + Zeros(newLen - |old(data)|)
    {
      var oldLen := |data|;
      if newLen == oldLen {
        return Ok(());
      }
      if newLen - originalDataLen > MAX_PERMITTED_DATA_INCREASE {
        return Err(InvalidRealloc);
      }
      data := if newLen <= oldLen then data[..newLen] else data + Zeros(newLen - oldLen);
      return Ok(());
    }

    /** Overwrite part of the data. */
    method WriteAt(at: nat, part: Bytes)
      requires at + |part| <= |data|
      modifies this`data
      ensures data == Splice(old(data), at, part)
    {
      data := Splice(data, at, part);
    }

    /** The text of a zero-padded field. */
    method TextField(at: nat, n: nat, ghost text: Bytes) returns (s: Bytes)
      requires |text| <= n && Cut(data, at, n) == Ok(Pad(text, n))
      ensures s == UpToNul(text)
    {
      UpToNulPadded(text, n - |text|);
      var field := data[at..at + n];
      var pos := TextLength(field);
      s := field[..pos];
    }

    /** Put back earlier data. */
    method Restore(saved: Bytes, ghost a: Account)
      modifies this
      ensures data == saved && rec == a
    {
      data := saved;
      rec := a;
    }

    // Every account ---------------------------------------------------------------

    method GetType() returns (r: Result<Option<Kind>>)
      requires Valid()
      ensures if rec.Empty? then r == Err(Panic) else r == Ok(KindOf(TypeByte(rec)))
    {
      if !rec.Empty? {
        PreambleFields(rec);
      }
      var b :- Cut(data, 0, 1);
      return Ok(KindOf(b[0]));
    }

    method GetRelatedKey() returns (k: Key)
      requires Valid() && !rec.Empty?
      ensures k == RelatedKey(rec)
    {
      PreambleFields(rec);
      k := data[5..37];
    }

    // Token accounts --------------------------------------------------------------

    method GetNumBalances() returns (n: nat)
      requires Valid() && rec.Token?
      ensures n == rec.t.count
    {
      CountField(rec.t, 0);
      PowValues();
      LERoundTrip(rec.t.count, 4);
      n := FromLE(data[BALANCE_COUNT_OFFSET..BALANCE_COUNT_OFFSET + 4]);
    }

    method SetNumBalances(n: nat)
      requires Valid() && rec.Token? && n <= |rec.t.slots|
      modifies this
      ensures Valid() && rec == Token(old(rec.t).(count := n % U32))
    {
      CountField(rec.t, n % U32);
      data := Splice(data, BALANCE_COUNT_OFFSET, ToLE(n % U32, 4));
      rec := Token(rec.t.(count := n % U32));
    }

    method GetTokenId() returns (id: Bytes)
      requires Valid() && rec.Token?
      ensures id == TokenName(rec.t)
    {
      TokenIdField(rec.t, []);
      id := TextField(TOKEN_ID_OFFSET, MAX_TOKEN_ID_SIZE, rec.t.tokenId);
    }

    method SetTokenId(id: Bytes) returns (r: Result<()>)
      requires Valid() && rec.Token?
      modifies this
      ensures Valid()
      ensures if |id| >= MAX_TOKEN_ID_SIZE then r == Err(Custom(ERROR_VALUE_TOO_LARGE)) && rec == old(rec)
              else r == Ok(()) && rec == Token(old(rec.t).(tokenId := id))
    {
      if |id| >= MAX_TOKEN_ID_SIZE {
        return Err(Custom(ERROR_VALUE_TOO_LARGE));
      }
      TokenIdField(rec.t, id);
      data := Splice(data, TOKEN_ID_OFFSET, Pad(id, MAX_TOKEN_ID_SIZE));
      rec := Token(rec.t.(tokenId := id));
      return Ok(());
    }

    method GetWalletBalance(index: nat) returns (r: Result<u64>)
      requires Valid() && rec.Token?
      ensures r == if index < |rec.t.slots| then Ok(rec.t.slots[index].amount) else Err(Panic)
    {
      if index < |rec.t.slots| {
        SlotFields(rec.t, index);
      } else {
        OutsideSlots(rec.t, index);
      }
      var b :- Cut(data, SlotOffset(index) + 92, 8);
      PowValues();
      LERoundTrip(rec.t.slots[index].amount, 8);
      return Ok(FromLE(b));
    }

    method SetWalletBalance(index: nat, balance: u64) returns (r: Result<()>)
      requires Valid() && rec.Token?
      modifies this
      ensures Valid()
      ensures if index < |old(rec.t).slots| then r == Ok(()) && rec == Token(SetAmount(old(rec.t), index, balance))
              else r == Err(Panic) && rec == old(rec)
    {
      var at := SlotOffset(index) + 92;
      if index < |rec.t.slots| {
        AmountField(rec.t, index, balance);
      } else {
        OutsideSlots(rec.t, index);
      }
      if at + 8 > |data| {
        return Err(Panic);
      }
      data := Splice(data, at, ToLE(balance, 8));
      rec := Token(SetAmount(rec.t, index, balance));
      return Ok(());
    }

    method IncrementWalletBalance(index: nat, amount: u64) returns (r: Result<()>)
      requires Valid() && rec.Token?
      modifies this
      ensures Valid() && Became(old(rec), r, Credit(old(rec.t), index, amount))
    {
      var current :- GetWalletBalance(index);
      r := SetWalletBalance(index, WrapAdd(current, amount));
    }

    method DecrementWalletBalance(index: nat, amount: u64) returns (r: Result<()>)
      requires Valid() && rec.Token?
      modifies this
      ensures Valid() && Became(old(rec), r, Debit(old(rec.t), index, amount))
    {
      var current :- GetWalletBalance(index);
      if amount > current {
        return Err(Custom(ERROR_INSUFFICIENT_BALANCE));
      }
      r := SetWalletBalance(index, current - amount);
    }

    method GetWalletAddress(index: nat) returns (r: Result<Bytes>)
      requires Valid() && rec.Token?
      ensures r == if index < |rec.t.slots| then Ok(UpToNul(rec.t.slots[index].address)) else Err(Panic)
    {
      var b :- AddressBytes(index);
      var pos := TextLength(b);
      return Ok(b[..pos]);
    }

    method GetWalletAddressLast4(index: nat) returns (r: Result<Bytes>)
      requires Valid() && rec.Token?
      ensures r == if index < |rec.t.slots| then Last4(rec.t.slots[index].address) else Err(Panic)
    {
      var b :- AddressBytes(index);
      var pos := TextLength(b);
      if pos < 4 {
        return Err(Panic);
      }
      return Ok(b[pos - 4..pos]);
    }

    /** The padded address field of a slot. */
    method AddressBytes(index: nat) returns (r: Result<Bytes>)
      requires Valid() && rec.Token?
      ensures if index < |rec.t.slots| then r.Ok? && UpToNul(r.value) == UpToNul(rec.t.slots[index].address)
          else r == Err(Panic)
    {
      if index < |rec.t.slots| {
        SlotFields(rec.t, index);
        UpToNulPadded(rec.t.slots[index].address, 92 - |rec.t.slots[index].address|);
      } else {
        OutsideSlots(rec.t, index);
      }
      r := Cut(data, SlotOffset(index), MAX_ADDRESS_SIZE);
    }

    method SetWalletAddress(index: nat, address: Bytes) returns (r: Result<()>)
      requires Valid() && rec.Token?
      modifies this
      ensures Valid() && Became(old(rec), r, SetAddress(old(rec.t), index, address))
    {
      if |address| >= MAX_ADDRESS_SIZE {
        return Err(Custom(ERROR_VALUE_TOO_LARGE));
      }
      if index < |rec.t.slots| {
        AddressField(rec.t, index, address);
      } else {
        OutsideSlots(rec.t, index);
      }
      if SlotOffset(index) + MAX_ADDRESS_SIZE > |data| {
        return Err(Panic);
      }
      data := Splice(data, SlotOffset(index), Pad(address, MAX_ADDRESS_SIZE));
      rec := Token(WithSlot(rec.t, index, rec.t.slots[index].(address := address)));
      return Ok(());
    }

    /** The token state after an operation that may fail and then changes nothing. */
    ghost predicate Became(before: Account, r: Result<()>, spec: Result<TokenState>)
      reads this
    {
      match spec
      case Ok(t) => r == Ok(()) && rec == Token(t)
      case Err(e) => r == Err(e) && rec == before
    }

    /** Room for more wallets; the test is against the original length. */
    method GrowBalanceAccountsIfNeeded(additional: nat)
      requires Valid() && rec.Token?
      modifies this
      ensures Valid() && rec == Token(Grow(old(rec.t), originalDataLen, additional))
    {
      var count := GetNumBalances();
      if SlotOffset(count + additional) > originalDataLen {
        GrowOneStep();
      }
    }

    method GrowOneStep()
      requires Valid() && rec.Token?
      modifies this
      ensures Valid() && rec == Token(GrownTo(old(rec.t), originalDataLen + MAX_PERMITTED_DATA_INCREASE))
    {
      var size := originalDataLen + MAX_PERMITTED_DATA_INCREASE;
      if |data| != size {
        GrownBytes(rec.t, size);
        var grown := Realloc(size);
        rec := Token(GrownTo(rec.t, size));
      }
    }

    /** An empty account becomes a token account without a name. */
    method SizeToken(program: Key)
      requires Valid() && rec.Empty?
      modifies this
      ensures Valid() && rec == Token(BlankTokenState(program))
    {
      var sized := Realloc(originalDataLen + MAX_PERMITTED_DATA_INCREASE);
      WriteAt(0, [2]);
      WriteAt(5, program);
      BlankTokenBytes(program);
      rec := Token(BlankTokenState(program));
    }

    /** Size, type, key, name, and the fee wallet of a token that is no rune. */
    method InitializeToken(env: Env, tokenId: Bytes, feeAddress: Bytes, program: Key) returns (r: Result<()>)
      requires Valid() && rec.Empty?
      modifies this
      ensures r.Ok? ==> Valid()
      ensures |tokenId| >= MAX_TOKEN_ID_SIZE ==> r == Err(Custom(ERROR_VALUE_TOO_LARGE))
      ensures |tokenId| < MAX_TOKEN_ID_SIZE ==>
        var t := BlankTokenState(program).(tokenId := tokenId);
        if env.rune(tokenId).Some? then r == Ok(()) && rec == Token(t)
        else match SetAddress(t.(count := 1), 0, feeAddress)
             case Ok(t') => r == Ok(()) && rec == Token(t')
             case Err(e) => r == Err(e)
    {
      SizeToken(program);
      var _ :- SetTokenId(tokenId);
      if env.rune(tokenId).None? {
        SetNumBalances(1);
        var _ :- SetWalletAddress(0, feeAddress);
      }
      return Ok(());
    }

    /** The index of a wallet, if its address ends in the four bytes given. */
    method GetValidatedIndex(a: AddressIndex) returns (r: Result<nat>)
      requires Valid() && rec.Token?
      ensures r == ValidatedIndex(rec.t, a) && (r.Ok? <==> Names(rec.t, a))
    {
      ValidatedIndexIff(rec.t, a);
      var count := GetNumBalances();
      if a.index >= count {
        return Err(Custom(ERROR_INVALID_ADDRESS_INDEX));
      }
      var last4 :- GetWalletAddressLast4(a.index);
      if last4 != a.last4 {
        return Err(Custom(ERROR_WALLET_LAST4_MISMATCH));
      }
      return Ok(a.index);
    }

    method GetValidatedIndexWithdraw(env: Env, a: AddressIndex, network: Network) returns (r: Result<nat>)
      requires Valid() && rec.Token?
      ensures r == ValidatedWithdrawIndex(env, rec.t, a, network) && (r.Ok? <==> Usable(env, rec.t, a, network))
    {
      UsableIff(env, rec.t, a, network);
      var index :- GetValidatedIndex(a);
      var address := GetWalletAddress(index);
      var _ :- ValidAddress(env, address.value, network, true);
      var id := GetTokenId();
      var rune := env.rune(id);
      if rune.None? || rune.value.block != 0 {
        return Ok(index);
      }
      return Err(Custom(ERROR_WITHDRAWAL_NOT_ALLOWED));
    }

    /** Credit or debit a list of wallets, each looked up again. */
    method HandleAdjustments(adjs: seq<Adjustment>, increment: bool) returns (r: Result<()>)
      requires Valid() && rec.Token?
      modifies this
      ensures match Adjust(old(rec.t), adjs, increment)
              case Ok(t) => r == Ok(()) && rec == Token(t)
              case Err(e) => r == Err(e)
      ensures Valid()
    {
      for i := 0 to |adjs|
        invariant Valid() && rec.Token?
        invariant Adjust(old(rec.t), adjs, increment) == Adjust(rec.t, adjs[i..], increment)
      {
        assert adjs[i..][1..] == adjs[i + 1..];
        var index :- GetValidatedIndex(adjs[i].address);
        if increment {
          var done := IncrementWalletBalance(index, adjs[i].amount);
          assert done.Ok?;
        } else {
          var _ :- DecrementWalletBalance(index, adjs[i].amount);
        }
      }
      return Ok(());
    }

    // Program accounts ------------------------------------------------------------

    /** init_state_data: the encoded state over a buffer of zeros. */
    method InitStateData(newData: Bytes, additional: nat, ghost p: ProgramState)
      requires Valid() && rec.Empty? && Stored(Program(p))
      requires p.events == [] && p.runeReceiver.None? && p.stale == Zeros(6400)
      requires newData == ProgramHead(p) + ToLE(0, 2) && additional == 6400
      modifies this
      ensures Valid() && rec == Program(p)
    {
      var sized := Realloc(|newData| + additional);
      NewProgramBytes(p);
      assert data == Zeros(RUNE_RECEIVER_OFFSET);
      data := Splice(data, 0, newData);
      rec := Program(p);
    }

    method GetFeeAccountAddress() returns (address: Bytes)
      requires Valid() && rec.Program?
      ensures address == UpToNul(rec.p.feeAccount)
    {
      ConfigFields(rec.p);
      address := TextField(FEE_ACCOUNT_OFFSET, MAX_ADDRESS_SIZE, rec.p.feeAccount);
    }

    method GetNetworkType() returns (network: Network)
      requires Valid() && rec.Program?
      ensures network == rec.p.network
    {
      ConfigFields(rec.p);
      assert data[NETWORK_OFFSET..NETWORK_OFFSET + 1] == [NetworkByte(rec.p.network)];
      network := NetworkOf(data[NETWORK_OFFSET]);
    }

    method GetSettlementHash() returns (hash: Hash)
      requires Valid() && rec.Program?
      ensures hash == rec.p.settlementHash
    {
      SettlementHashField(rec.p, EMPTY_HASH);
      hash := data[SETTLEMENT_HASH_OFFSET..SETTLEMENT_HASH_OFFSET + 32];
    }

    method SetSettlementHash(hash: Hash)
      requires Valid() && rec.Program?
      modifies this
      ensures Valid() && rec == Program(old(rec.p).(settlementHash := hash))
    {
      SettlementHashField(rec.p, hash);
      data := Splice(data, SETTLEMENT_HASH_OFFSET, hash);
      rec := Program(rec.p.(settlementHash := hash));
    }

    method SetLastSettlementHash(hash: Hash)
      requires Valid() && rec.Program?
      modifies this
      ensures Valid() && rec == Program(old(rec.p).(lastSettlementHash := hash))
    {
      LastSettlementHashField(rec.p, hash);
      data := Splice(data, LAST_SETTLEMENT_HASH_OFFSET, hash);
      rec := Program(rec.p.(lastSettlementHash := hash));
    }

    method ClearReport()
      requires Valid() && rec.Program?
      modifies this
      ensures Valid() && rec == Program(ClearEvents(old(rec.p)))
    {
      ClearedEvents(rec.p);
      EventCountField(rec.p);
      data := Splice(data, EVENT_COUNT_OFFSET, ToLE(0, 2));
      rec := Program(ClearEvents(rec.p));
    }

    method GetEventsCount() returns (n: nat)
      requires Valid() && rec.Program?
      ensures n == |rec.p.events|
    {
      EventCountField(rec.p);
      PowValues();
      LERoundTrip(|rec.p.events|, 2);
      n := FromLE(data[EVENT_COUNT_OFFSET..EVENT_COUNT_OFFSET + 2]);
    }

    method Emit(e: Event) returns (r: Result<()>)
      requires Valid() && rec.Program?
      modifies this
      ensures Valid()
      ensures match EmitEvent(old(rec.p), e)
              case Ok(p) => r == Ok(()) && rec == Program(p)
              case Err(err) => r == Err(err) && rec == old(rec)
    {
      var count := GetEventsCount();
      if count == MAX_EVENTS {
        return Err(Custom(ERROR_VALUE_TOO_LARGE));
      }
      WriteReport(count, e);
      return Ok(());
    }

    /** Write an event behind the last one, and then the new count. */
    method WriteReport(count: nat, e: Event)
      requires Valid() && rec.Program? && |rec.p.events| == count < MAX_EVENTS
      modifies this
      ensures Valid() && EmitEvent(old(rec.p), e).Ok? && rec == Program(EmitEvent(old(rec.p), e).value)
    {
      EmittedEvent(rec.p, e);
      WriteAt(EVENTS_OFFSET + count * EVENT_SIZE, WriteEvent(e));
      WriteAt(EVENT_COUNT_OFFSET, ToLE(count + 1, 2));
      rec := Program(EmitEvent(rec.p, e).value);
    }

    /** Make room behind the events, and write the key of the receiver there. */
    method AddRuneReceiver(receiver: Key)
      requires Valid() && rec.Program? && rec.p.runeReceiver.None?
      modifies this
      ensures Valid() && rec == Program(old(rec.p).(runeReceiver := Some(receiver)))
    {
      ReceiverAdded(rec.p, receiver);
      var sized := Realloc(RUNE_RECEIVER_OFFSET + 32);
      data := Splice(data, RUNE_RECEIVER_OFFSET, receiver);
      rec := Program(rec.p.(runeReceiver := Some(receiver)));
    }

    // Withdraw and rune receiver accounts -------------------------------------------

    method InitializeWithdraw(program: Key)
      requires Valid()
      modifies this
      ensures Valid() && rec == if old(rec).Empty? then Withdraw(program, EMPTY_HASH) else old(rec)
    {
      if |data| == 0 {
        var sized := Realloc(69);
        WriteAt(0, [3]);
        WriteAt(5, program);
        TypedZeros(3, program, 69);
        rec := Withdraw(program, EMPTY_HASH);
      }
    }

    method GetHash() returns (hash: Hash)
      requires Valid() && rec.Withdraw?
      ensures hash == rec.hash
    {
      WithdrawHashField(rec.program, rec.hash, EMPTY_HASH);
      hash := data[WITHDRAW_HASH_OFFSET..WITHDRAW_HASH_OFFSET + 32];
    }

    method SetHash(hash: Hash)
      requires Valid() && rec.Withdraw?
      modifies this
      ensures Valid() && rec == Withdraw(old(rec).program, hash)
    {
      WithdrawHashField(rec.program, rec.hash, hash);
      data := Splice(data, WITHDRAW_HASH_OFFSET, hash);
      rec := Withdraw(rec.program, hash);
    }

    method InitializeRuneReceiver(program: Key)
      requires Valid() && rec.Empty?
      modifies this
      ensures Valid() && rec == RuneReceiver(program)
    {
      var sized := Realloc(37);
      WriteAt(0, [4]);
      WriteAt(5, program);
      TypedZeros(4, program, 37);
      rec := RuneReceiver(program);
    }
  }
}
