/** Decoding account data (model/src/serialization.rs): what a client reads from
    an account that the program has written. */
module ArchStateCodec {
  import opened Machine
  import opened Wrappers
  import opened Sequences
  import opened ArchTypes
  import opened ArchCodec
  import opened ArchLedger
  import opened ArchLayout

  /** Decoded accounts; an unknown type byte gives no kind. */
  datatype TokenRecord = TokenRecord(kind: Option<Kind>, version: u32, program: Bytes, tokenId: Bytes,
                                     balances: seq<Slot>)
  datatype ProgramRecord = ProgramRecord(kind: Option<Kind>, version: u32, withdrawAccount: Bytes, feeAccount: Bytes,
                                         changeAddress: Bytes, network: Network, settlementHash: Bytes,
                                         lastSettlementHash: Bytes, events: seq<Event>)
  datatype WithdrawRecord = WithdrawRecord(kind: Option<Kind>, version: u32, program: Bytes, hash: Bytes)
  datatype RuneReceiverRecord = RuneReceiverRecord(kind: Option<Kind>, version: u32, program: Bytes)

  // ---------------------------------------------------------------------------
  // Decoders
  // ---------------------------------------------------------------------------

  function KindOf(b: u8): Option<Kind> {
    match b
    case 1 => Some(ProgramKind) case 2 => Some(TokenKind) case 3 => Some(WithdrawKind) case 4 => Some(RuneReceiverKind)
    case _ => None
  }

  function ReadKind(s: Bytes): Decoded<Option<Kind>> {
    var (b, r) :- ReadU8(s);
    Got(KindOf(b), r)
  }

  /** read_string_with_padding: a short input is accepted. */
  function ReadPadded(s: Bytes, n: nat): Decoded<Bytes> {
    var (text, rest) := TakeUpTo(s, n);
    Got(UpToNul(text), rest)
  }

  function ReadBalance(s: Bytes): Decoded<Slot> {
    var (address, r1) :- ReadPadded(s, MAX_ADDRESS_SIZE);
    var (amount, r2) :- ReadU64(r1);
    Got(Slot(address, amount), r2)
  }

  function ReadEventFields(s: Bytes): Decoded<Event> {
    var (kind, r0) :- ReadU8(s);
    if kind > 1 then Bad else
    var (account, r1) :- ReadU8(r0);
    var (address, r2) :- ReadU32(r1);
    if kind == 0 then
      var (requested, r3) :- ReadU64(r2);
      var (balance, r4) :- ReadU64(r3);
      var (code, r5) :- ReadU32(r4);
      Got(FailedSettlement(account, address, requested, balance, code), r5)
    else
      var (feeAccount, r3) :- ReadU8(r2);
      var (feeAddress, r4) :- ReadU32(r3);
      var (requested, r5) :- ReadU64(r4);
      var (fee, r6) :- ReadU64(r5);
      var (balance, r7) :- ReadU64(r6);
      var (feeBalance, r8) :- ReadU64(r7);
      var (code, r9) :- ReadU32(r8);
      Got(FailedWithdrawal(account, address, feeAccount, feeAddress, requested, fee, balance, feeBalance, code), r9)
  }

  /** An event takes up 64 bytes, whatever its fields need. */
  function ReadEvent(s: Bytes): Decoded<Event> {
    var (data, rest) := TakeUpTo(s, EVENT_SIZE);
    var (e, _) :- ReadEventFields(data);
    Got(e, rest)
  }

  function ReadTokenState(s: Bytes): Decoded<TokenRecord> {
    var (kind, r1) :- ReadKind(s);
    var (version, r2) :- ReadU32(r1);
    var (program, r3) :- ReadFixed(r2, 32);
    var (tokenId, r4) :- ReadPadded(r3, MAX_TOKEN_ID_SIZE);
    var (count, r5) :- ReadU32(r4);
    var (balances, r6) :- ReadMany(count, ReadBalance, r5);
    Got(TokenRecord(kind, version, program, tokenId, balances), r6)
  }

  /** The fields in front of the events. */
  function ReadProgramFields(s: Bytes): Decoded<ProgramRecord> {
    var (kind, r1) :- ReadKind(s);
    var (version, r2) :- ReadU32(r1);
    var (withdrawAccount, r3) :- ReadFixed(r2, 32);
    var (feeAccount, r4) :- ReadPadded(r3, MAX_ADDRESS_SIZE);
    var (changeAddress, r5) :- ReadPadded(r4, MAX_ADDRESS_SIZE);
    var (network, r6) :- ReadU8(r5);
    var (settlementHash, r7) :- ReadFixed(r6, 32);
    var (lastSettlementHash, r8) :- ReadFixed(r7, 32);
    Got(ProgramRecord(kind, version, withdrawAccount, feeAccount, changeAddress, NetworkOf(network), settlementHash,
                      lastSettlementHash, []), r8)
  }

  function ReadProgramState(s: Bytes): Decoded<ProgramRecord> {
    var (record, r8) :- ReadProgramFields(s);
    var (count, r9) :- ReadU16(r8);
    var (events, r10) :- ReadMany(count, ReadEvent, r9);
    Got(record.(events := events), r10)
  }

  function ReadWithdrawState(s: Bytes): Decoded<WithdrawRecord> {
    var (kind, r1) :- ReadKind(s);
    var (version, r2) :- ReadU32(r1);
    var (program, r3) :- ReadFixed(r2, 32);
    var (hash, r4) :- ReadFixed(r3, 32);
    Got(WithdrawRecord(kind, version, program, hash), r4)
  }

  function ReadRuneReceiverState(s: Bytes): Decoded<RuneReceiverRecord> {
    var (kind, r1) :- ReadKind(s);
    var (version, r2) :- ReadU32(r1);
    var (program, r3) :- ReadFixed(r2, 32);
    Got(RuneReceiverRecord(kind, version, program), r3)
  }

  // ---------------------------------------------------------------------------
  // What the data of each kind of account decodes to
  // ---------------------------------------------------------------------------

  lemma PaddedBack(s: Bytes, n: nat, rest: Bytes)
    requires |s| <= n
    ensures ReadPadded(Pad(s, n) + rest, n) == Got(UpToNul(s), rest)
  {
    UpToNulPadded(s, n - |s|);
    assert (Pad(s, n) + rest)[..n] == Pad(s, n) && (Pad(s, n) + rest)[n..] == rest;
  }

  lemma FixedBack(s: Bytes, rest: Bytes)
    ensures ReadFixed(s + rest, |s|) == Got(s, rest)
  {
    assert (s + rest)[..|s|] == s && (s + rest)[|s|..] == rest;
  }

  /** Type, version and key, as every decoder reads them first. */
  lemma PreambleBack(a: Account, rest: Bytes)
    requires !a.Empty?
    ensures var s := Preamble(a) + rest;
            && ReadKind(s) == Got(KindOf(TypeByte(a)), Zeros(4) + (RelatedKey(a) + rest))
            && ReadU32(Zeros(4) + (RelatedKey(a) + rest)) == Got(0, RelatedKey(a) + rest)
            && ReadFixed(RelatedKey(a) + rest, 32) == Got(RelatedKey(a), rest)
  {
    var r1 := Zeros(4) + (RelatedKey(a) + rest);
    assert Preamble(a) + rest == [TypeByte(a)] + r1;
    ZerosLE(4);
    U32Back(0, RelatedKey(a) + rest);
    FixedBack(RelatedKey(a), rest);
  }

  /** Balances as a decoder returns them. */
  function Balances(slots: seq<Slot>): seq<Slot> {
    seq(|slots|, i requires 0 <= i < |slots| => Slot(UpToNul(slots[i].address), slots[i].amount))
  }

  lemma BalanceBack(s: Slot, rest: Bytes)
    requires SlotFits(s)
    ensures ReadBalance(SlotBytes(s) + rest) == Got(Slot(UpToNul(s.address), s.amount), rest)
  {
    Joined(Pad(s.address, 92), ToLE(s.amount, 8), rest);
    PaddedBack(s.address, 92, ToLE(s.amount, 8) + rest);
    U64Back(s.amount, rest);
  }

  lemma {:induction false} BalancesBack(slots: seq<Slot>, n: nat, rest: Bytes)
    requires SlotsFit(slots) && n <= |slots|
    ensures ReadMany(n, ReadBalance, SlotsBytes(slots) + rest)
        == Got(Balances(slots[..n]), SlotsBytes(slots[n..]) + rest)
  {
    if n == 0 {
      assert slots[0..] == slots;
    } else {
      assert SlotFits(slots[0]);
      var tail := SlotsBytes(slots[1..]) + rest;
      Joined(SlotBytes(slots[0]), SlotsBytes(slots[1..]), rest);
      BalanceBack(slots[0], tail);
      BalancesBack(slots[1..], n - 1, rest);
      assert slots[1..][..n - 1] == slots[..n][1..] && slots[1..][n - 1..] == slots[n..];
      assert Balances(slots[..n]) == [Slot(UpToNul(slots[0].address), slots[0].amount)] + Balances(slots[..n][1..]);
    }
  }

  /** What a client gets to see of an account. */
  function TokenRecordOf(t: TokenState): TokenRecord
    requires t.count <= |t.slots|
  {
    TokenRecord(Some(TokenKind), 0, t.program, TokenName(t), Balances(t.slots[..t.count]))
  }

  function ProgramRecordOf(p: ProgramState): ProgramRecord {
    ProgramRecord(Some(ProgramKind), 0, p.withdrawAccount, UpToNul(p.feeAccount), UpToNul(p.changeAddress), p.network,
                  p.settlementHash, p.lastSettlementHash, p.events)
  }

  /** Decoding a token account gives exactly its assigned slots, with addresses
      and name read up to the first NUL. */
  lemma TokenDecodes(t: TokenState)
    requires Stored(Token(t))
    ensures ReadTokenState(TokenBytes(t))
         == Got(TokenRecordOf(t), TokenBytes(t)[SlotOffset(t.count)..])
  {
    var a := Token(t);
    var room := Zeros(t.size - 73 - 100 * |t.slots|);
    var r5 := SlotsBytes(t.slots) + room;
    var r4 := ToLE(t.count, 4) + r5;
    var r3 := Pad(t.tokenId, 32) + r4;
    assert TokenBytes(t) == Preamble(a) + r3;
    PreambleBack(a, r3);
    PaddedBack(t.tokenId, 32, r4);
    U32Back(t.count, r5);
    BalancesBack(t.slots, t.count, room);
    AssignedSlotsEnd(t);
  }

  lemma AssignedSlotsEnd(t: TokenState)
    requires Stored(Token(t))
    ensures SlotsFit(t.slots[t.count..])
    ensures TokenBytes(t)[SlotOffset(t.count)..]
        == SlotsBytes(t.slots[t.count..]) + Zeros(t.size - 73 - 100 * |t.slots|)
  {
    var header, room := Preamble(Token(t)) + Pad(t.tokenId, MAX_TOKEN_ID_SIZE)
        + ToLE(t.count, 4), Zeros(t.size - 73 - 100 * |t.slots|);
    assert t.slots == t.slots[..t.count] + t.slots[t.count..];
    SlotsBytesAppend(t.slots[..t.count], t.slots[t.count..]);
    var taken, rest := SlotsBytes(t.slots[..t.count]), SlotsBytes(t.slots[t.count..]);
    Joined(taken, rest, room);
    Joined(header, taken, rest + room);
  }

  lemma EventFieldsBack(e: Event)
    ensures ReadEventFields(WriteEvent(e)).Got? && ReadEventFields(WriteEvent(e)).value == e
  {
    match e
    case FailedSettlement(account, address, requested, balance, code) =>
      var r4 := ToLE(code, 4) + Zeros(38);
      var r3 := ToLE(balance, 8) + r4;
      var r2 := ToLE(requested, 8) + r3;
      var r1 := ToLE(address, 4) + r2;
      SettlementEventParts(account, ToLE(address, 4), ToLE(requested, 8), ToLE(balance, 8), ToLE(code, 4), Zeros(38));
      assert WriteEvent(e) == [0] + ([account] + r1);
      U8Back(0, [account] + r1);
      U8Back(account, r1);
      U32Back(address, r2);
      U64Back(requested, r3);
      U64Back(balance, r4);
      U32Back(code, Zeros(38));
    case FailedWithdrawal(account, address, feeAccount, feeAddress, requested, fee, balance, feeBalance, code) =>
      var r8 := ToLE(code, 4) + Zeros(17);
      var r7 := ToLE(feeBalance, 8) + r8;
      var r6 := ToLE(balance, 8) + r7;
      var r5 := ToLE(fee, 8) + r6;
      var r4 := ToLE(requested, 8) + r5;
      var r3 := ToLE(feeAddress, 4) + r4;
      var r2 := [feeAccount] + r3;
      var r1 := ToLE(address, 4) + r2;
      WithdrawalEventParts(account, ToLE(address, 4), feeAccount, ToLE(feeAddress, 4), ToLE(requested, 8),
                           ToLE(fee, 8), ToLE(balance, 8), ToLE(feeBalance, 8), ToLE(code, 4), Zeros(17));
      assert WriteEvent(e) == [1] + ([account] + r1);
      U8Back(1, [account] + r1);
      U8Back(account, r1);
      U32Back(address, r2);
      U8Back(feeAccount, r3);
      U32Back(feeAddress, r4);
      U64Back(requested, r5);
      U64Back(fee, r6);
      U64Back(balance, r7);
      U64Back(feeBalance, r8);
      U32Back(code, Zeros(17));
  }

  lemma SettlementEventParts(account: u8, a: Bytes, b: Bytes, c: Bytes, d: Bytes, e: Bytes)
    ensures [0, account] + a + b + c + d + e == [0] + ([account] + (a + (b + (c + (d + e)))))
  {
  }

  lemma WithdrawalEventParts(account: u8, a: Bytes, feeAccount: u8, b: Bytes, c: Bytes, d: Bytes, e: Bytes,
                             f: Bytes, g: Bytes, h: Bytes)
    ensures [1, account] + a + [feeAccount] + b + c + d + e + f + g + h
         == [1] + ([account] + (a + ([feeAccount] + (b + (c + (d + (e + (f + (g + h)))))))))
  {
    var tail := e + f + g + h;
    assert tail == e + (f + (g + h));
    assert [1, account] + a + [feeAccount] + b + c + d + e + f + g + h
        == [1, account] + a + [feeAccount] + b + c + d + tail;
  }

  lemma EventBack(e: Event, rest: Bytes)
    ensures ReadEvent(WriteEvent(e) + rest) == Got(e, rest)
  {
    assert (WriteEvent(e) + rest)[..64] == WriteEvent(e) && (WriteEvent(e) + rest)[64..] == rest;
    EventFieldsBack(e);
  }

  lemma {:induction false} EventsBack(es: seq<Event>, rest: Bytes)
    ensures ReadMany(|es|, ReadEvent, WriteEvents(es) + rest) == Got(es, rest)
  {
    if es == [] {
      assert WriteEvents(es) + rest == rest;
    } else {
      Joined(WriteEvent(es[0]), WriteEvents(es[1..]), rest);
      EventBack(es[0], WriteEvents(es[1..]) + rest);
      EventsBack(es[1..], rest);
      assert es == [es[0]] + es[1..];
    }
  }

  lemma ProgramFieldsBack(p: ProgramState, r8: Bytes)
    requires Stored(Program(p))
    ensures ReadProgramFields(ProgramConfig(p) + (p.settlementHash + (p.lastSettlementHash + r8)))
         == Got(ProgramRecordOf(p.(events := [])), r8)
  {
    var a := Program(p);
    var r7 := p.lastSettlementHash + r8;
    var r6 := p.settlementHash + r7;
    var r5 := [NetworkByte(p.network)] + r6;
    var r4 := Pad(p.changeAddress, 92) + r5;
    var r3 := Pad(p.feeAccount, 92) + r4;
    ConfigRestParts(Preamble(a), Pad(p.feeAccount, 92), Pad(p.changeAddress, 92), [NetworkByte(p.network)], r6);
    PreambleBack(a, r3);
    PaddedBack(p.feeAccount, 92, r4);
    PaddedBack(p.changeAddress, 92, r5);
    U8Back(NetworkByte(p.network), r6);
    FixedBack(p.settlementHash, r7);
    FixedBack(p.lastSettlementHash, r8);
  }

  /** Decoding a program account gives its hashes and exactly the events of the
      last report, whatever older events are still behind them. */
  lemma ProgramDecodes(p: ProgramState)
    requires Stored(Program(p))
    ensures ReadProgramState(ProgramBytes(p)) == Got(ProgramRecordOf(p), p.stale + ReceiverBytes(p))
  {
    var left := p.stale + ReceiverBytes(p);
    var r9 := WriteEvents(p.events) + left;
    AroundHashes(p);
    Joined(ProgramConfig(p), p.settlementHash, p.lastSettlementHash + ProgramRest(p));
    ProgramRestParts(p, left);
    ProgramFieldsBack(p, ProgramRest(p));
    U16Back(|p.events|, r9);
    EventsBack(p.events, left);
  }

  lemma ProgramRestParts(p: ProgramState, left: Bytes)
    requires Stored(Program(p)) && left == p.stale + ReceiverBytes(p)
    ensures ProgramRest(p) == ToLE(|p.events|, 2) + (WriteEvents(p.events) + left)
  {
    Joined(WriteEvents(p.events), p.stale, ReceiverBytes(p));
    Joined(ToLE(|p.events|, 2), EventRegion(p), ReceiverBytes(p));
  }

  lemma ConfigRestParts(start: Bytes, fee: Bytes, change: Bytes, network: Bytes, rest: Bytes)
    ensures (start + fee + change + network) + rest == start + (fee + (change + (network + rest)))
  {
  }

  lemma WithdrawDecodes(program: Key, hash: Hash)
    ensures ReadWithdrawState(BytesOf(Withdraw(program, hash)))
        == Got(WithdrawRecord(Some(WithdrawKind), 0, program, hash), [])
  {
    PreambleBack(Withdraw(program, hash), hash);
    FixedBack(hash, []);
    assert hash + [] == hash;
  }

  lemma RuneReceiverDecodes(program: Key)
    ensures ReadRuneReceiverState(BytesOf(RuneReceiver(program)))
        == Got(RuneReceiverRecord(Some(RuneReceiverKind), 0, program), [])
  {
    var a := RuneReceiver(program);
    assert Preamble(a) + [] == Preamble(a);
    PreambleBack(a, []);
  }

  lemma SameTokenData(t: TokenState, t': TokenState)
    requires Stored(Token(t)) && Stored(Token(t')) && TokenBytes(t) == TokenBytes(t')
    ensures t.program == t'.program && TokenName(t) == TokenName(t') && t.count == t'.count
    ensures Balances(t.slots[..t.count]) == Balances(t'.slots[..t'.count])
  {
    TokenDecodes(t);
    TokenDecodes(t');
    assert |Balances(t.slots[..t.count])| == t.count && |Balances(t'.slots[..t'.count])| == t'.count;
  }

  lemma SameProgramData(p: ProgramState, p': ProgramState)
    requires Stored(Program(p)) && Stored(Program(p')) && ProgramBytes(p) == ProgramBytes(p')
    ensures p.withdrawAccount == p'.withdrawAccount && p.network == p'.network && p.events == p'.events
    ensures p.settlementHash == p'.settlementHash && p.lastSettlementHash == p'.lastSettlementHash
  {
    ProgramDecodes(p);
    ProgramDecodes(p');
  }

  /** The type byte tells the kinds of accounts apart. */
  lemma SameDataSameKind(a: Account, b: Account)
    requires Stored(a) && Stored(b) && BytesOf(a) == BytesOf(b)
    ensures a.Empty? <==> b.Empty?
    ensures !a.Empty? ==> TypeByte(a) == TypeByte(b) && RelatedKey(a) == RelatedKey(b)
  {
    if !a.Empty? {
      PreambleFields(a);
      assert !b.Empty?;
      PreambleFields(b);
      assert [TypeByte(a)][0] == [TypeByte(b)][0];
    } else if !b.Empty? {
      PreambleFields(b);
    }
  }
}
