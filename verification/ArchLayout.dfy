/** How an account is laid out in its data (model/src/state.rs): every field at
    its fixed offset, so that overwriting the bytes of one field is the same as
    changing that field of the record, and decoding the data gives the record. */
module ArchLayout {
  import opened Machine
  import opened Wrappers
  import opened Sequences
  import opened ArchTypes
  import opened ArchCodec
  import opened ArchLedger
  import opened ArchFrames

  const TOKEN_ID_OFFSET: nat := 37
  const BALANCE_COUNT_OFFSET: nat := 69
  const FEE_ACCOUNT_OFFSET: nat := 37
  const CHANGE_ADDRESS_OFFSET: nat := 129
  const NETWORK_OFFSET: nat := 221
  const SETTLEMENT_HASH_OFFSET: nat := 222
  const LAST_SETTLEMENT_HASH_OFFSET: nat := 254
  const EVENT_COUNT_OFFSET: nat := 286
  const WITHDRAW_HASH_OFFSET: nat := 37

  // ---------------------------------------------------------------------------
  // Fields inside data
  // ---------------------------------------------------------------------------

  /** The `n` bytes at `at`; a range outside the data is a panic. */
  function Cut(data: Bytes, at: nat, n: nat): Result<Bytes> {
    if at + n > |data| then Err(Panic) else Ok(data[at..at + n])
  }

  /** The data with `part` written at `at`. */
  function Splice(data: Bytes, at: nat, part: Bytes): (r: Bytes)
    requires at + |part| <= |data|
    ensures |r| == |data|
  {
    data[..at] + part + data[at + |part|..]
  }

  lemma FieldOf(data: Bytes, before: Bytes, part: Bytes, after: Bytes)
    requires data == before + part + after
    ensures Cut(data, |before|, |part|) == Ok(part)
    ensures forall part': Bytes | |part'| == |part| :: Splice(data, |before|, part') == before + part' + after
  {
    forall part': Bytes | |part'| == |part| ensures Splice(data, |before|, part') == before + part' + after {
      assert data[..|before|] == before;
      assert data[|before| + |part|..] == after;
    }
  }

  function Pad(s: Bytes, n: nat): (r: Bytes)
    requires |s| <= n
    ensures |r| == n
  {
    s + Zeros(n - |s|)
  }

  // ---------------------------------------------------------------------------
  // Records as bytes
  // ---------------------------------------------------------------------------

  predicate SlotFits(s: Slot) {
    |s.address| <= MAX_ADDRESS_SIZE
  }

  function SlotBytes(s: Slot): (r: Bytes)
    requires SlotFits(s)
    ensures |r| == 100
  {
    Pad(s.address, MAX_ADDRESS_SIZE) + ToLE(s.amount, 8)
  }

  predicate SlotsFit(slots: seq<Slot>) {
    forall i | 0 <= i < |slots| :: SlotFits(slots[i])
  }

  function SlotsBytes(slots: seq<Slot>): (r: Bytes)
    requires SlotsFit(slots)
    ensures |r| == 100 * |slots|
  {
    if slots == [] then [] else SlotBytes(slots[0]) + SlotsBytes(slots[1..])
  }

  /** What can be laid out in account data. */
  predicate Stored(a: Account) {
    match a
    case Token(t) =>
      Sized(t) && t.size <= MAX_PERMITTED_DATA_LENGTH + MAX_PERMITTED_DATA_INCREASE
          && |t.tokenId| <= MAX_TOKEN_ID_SIZE && SlotsFit(t.slots)
    case Program(p) =>
      |p.feeAccount| <= MAX_ADDRESS_SIZE && |p.changeAddress| <= MAX_ADDRESS_SIZE && 64 * |p.events| + |p.stale| == 6400
    case _ => true
  }

  function TypeByte(a: Account): u8
    requires !a.Empty?
  {
    match a case Program(_) => 1 case Token(_) => 2 case Withdraw(_, _) => 3 case RuneReceiver(_) => 4
  }

  /** Type, version, and the key of the related account. */
  function Preamble(a: Account): (r: Bytes)
    requires !a.Empty?
    ensures |r| == 37
  {
    [TypeByte(a)] + Zeros(4) + RelatedKey(a)
  }

  function TokenTail(t: TokenState): (r: Bytes)
    requires Stored(Token(t))
    ensures |r| == t.size - 73
  {
    SlotsBytes(t.slots) + Zeros(t.size - 73 - 100 * |t.slots|)
  }

  function TokenBytes(t: TokenState): (r: Bytes)
    requires Stored(Token(t))
    ensures |r| == t.size
  {
    Preamble(Token(t)) + Pad(t.tokenId, MAX_TOKEN_ID_SIZE) + ToLE(t.count, 4) + TokenTail(t)
  }

  function EventRegion(p: ProgramState): (r: Bytes)
    requires Stored(Program(p))
    ensures |r| == 6400
  {
    WriteEvents(p.events) + p.stale
  }

  function ReceiverBytes(p: ProgramState): (r: Bytes)
    ensures |r| == if p.runeReceiver.None? then 0 else 32
  {
    if p.runeReceiver.None? then [] else p.runeReceiver.value
  }

  function ProgramConfig(p: ProgramState): (r: Bytes)
    requires Stored(Program(p))
    ensures |r| == 222
  {
    Preamble(Program(p)) + Pad(p.feeAccount, MAX_ADDRESS_SIZE) + Pad(p.changeAddress, MAX_ADDRESS_SIZE)
        + [NetworkByte(p.network)]
  }

  function ProgramBytes(p: ProgramState): (r: Bytes)
    requires Stored(Program(p))
    ensures |r| == SizeOf(Program(p))
  {
    ProgramConfig(p) + p.settlementHash + p.lastSettlementHash + ToLE(|p.events|, 2) + EventRegion(p) + ReceiverBytes(p)
  }

  function BytesOf(a: Account): (r: Bytes)
    requires Stored(a)
    ensures |r| == SizeOf(a)
  {
    match a
    case Empty => []
    case Token(t) => TokenBytes(t)
    case Program(p) => ProgramBytes(p)
    case Withdraw(_, hash) => Preamble(a) + hash
    case RuneReceiver(_) => Preamble(a)
  }

  // ---------------------------------------------------------------------------
  // Every account
  // ---------------------------------------------------------------------------

  lemma StartsWithPreamble(a: Account)
    requires Stored(a) && !a.Empty?
    ensures |BytesOf(a)| >= 37 && BytesOf(a)[..37] == Preamble(a)
  {
    match a
    case Token(t) => assert TokenBytes(t)[..37] == Preamble(a);
    case Program(p) =>
      assert ProgramConfig(p)[..37] == Preamble(a);
      assert ProgramBytes(p)[..37] == ProgramConfig(p)[..37];
    case Withdraw(_, _) =>
    case RuneReceiver(_) =>
  }

  lemma PreambleFields(a: Account)
    requires Stored(a) && !a.Empty?
    ensures Cut(BytesOf(a), 0, 1) == Ok([TypeByte(a)])
    ensures Cut(BytesOf(a), 5, 32) == Ok(RelatedKey(a))
  {
    StartsWithPreamble(a);
    var data := BytesOf(a);
    assert data[0..1] == data[..37][0..1] == [TypeByte(a)];
    assert data[5..37] == data[..37][5..37] == RelatedKey(a);
  }

  // ---------------------------------------------------------------------------
  // Token accounts
  // ---------------------------------------------------------------------------

  lemma {:induction false} SlotsBytesSplit(slots: seq<Slot>, i: nat)
    requires SlotsFit(slots) && i < |slots|
    ensures SlotsFit(slots[..i]) && SlotsFit(slots[i + 1..])
    ensures SlotsBytes(slots) == SlotsBytes(slots[..i]) + SlotBytes(slots[i]) + SlotsBytes(slots[i + 1..])
  {
    if i > 0 {
      SlotsBytesSplit(slots[1..], i - 1);
      assert slots[1..][..i - 1] == slots[..i][1..];
      assert slots[1..][i - 1] == slots[i] && slots[1..][i..] == slots[i + 1..];
    }
  }

  /** The bytes in front of slot `i` and behind it. */
  function BeforeSlot(t: TokenState, i: nat): (r: Bytes)
    requires Stored(Token(t)) && i < |t.slots|
    ensures |r| == SlotOffset(i)
  {
    Preamble(Token(t)) + Pad(t.tokenId, MAX_TOKEN_ID_SIZE) + ToLE(t.count, 4) + SlotsBytes(t.slots[..i])
  }

  function AfterSlot(t: TokenState, i: nat): (r: Bytes)
    requires Stored(Token(t)) && i < |t.slots|
    ensures |r| == t.size - SlotOffset(i) - 100
  {
    SlotsBytes(t.slots[i + 1..]) + Zeros(t.size - 73 - 100 * |t.slots|)
  }

  lemma AroundSlot(t: TokenState, i: nat)
    requires Stored(Token(t)) && i < |t.slots|
    ensures TokenBytes(t) == BeforeSlot(t, i) + SlotBytes(t.slots[i]) + AfterSlot(t, i)
  {
    SlotsBytesSplit(t.slots, i);
  }

  /** The address and the amount of a slot, as fields of the token account. */
  lemma SlotFields(t: TokenState, i: nat)
    requires Stored(Token(t)) && i < |t.slots|
    ensures Cut(TokenBytes(t), SlotOffset(i), 92) == Ok(Pad(t.slots[i].address, 92))
    ensures Cut(TokenBytes(t), SlotOffset(i) + 92, 8) == Ok(ToLE(t.slots[i].amount, 8))
  {
    AroundSlot(t, i);
    var before, after := BeforeSlot(t, i), AfterSlot(t, i);
    var address, amount := Pad(t.slots[i].address, 92), ToLE(t.slots[i].amount, 8);
    assert TokenBytes(t) == before + address + (amount + after);
    FieldOf(TokenBytes(t), before, address, amount + after);
    assert TokenBytes(t) == (before + address) + amount + after;
    FieldOf(TokenBytes(t), before + address, amount, after);
  }

  /** The state with slot `i` replaced. */
  function WithSlot(t: TokenState, i: nat, s: Slot): TokenState
    requires i < |t.slots|
  {
    t.(slots := t.slots[i := s])
  }

  lemma SlotReplaced(t: TokenState, i: nat, s: Slot)
    requires Stored(Token(t)) && i < |t.slots| && SlotFits(s)
    ensures Stored(Token(WithSlot(t, i, s)))
    ensures TokenBytes(WithSlot(t, i, s)) == BeforeSlot(t, i) + SlotBytes(s) + AfterSlot(t, i)
  {
    var t' := WithSlot(t, i, s);
    assert t'.slots[..i] == t.slots[..i] && t'.slots[i + 1..] == t.slots[i + 1..];
    AroundSlot(t', i);
  }

  lemma SpliceMiddle(before: Bytes, a: Bytes, b: Bytes, b': Bytes, c: Bytes, after: Bytes)
    requires |b'| == |b|
    ensures Splice(before + (a + b + c) + after, |before| + |a|, b') == before + (a + b' + c) + after
  {
    assert before + (a + b + c) + after == (before + a) + b + (c + after);
    FieldOf(before + (a + b + c) + after, before + a, b, c + after);
    assert before + (a + b' + c) + after == (before + a) + b' + (c + after);
  }

  /** Writing an amount changes that amount and nothing else. */
  lemma AmountField(t: TokenState, i: nat, v: u64)
    requires Stored(Token(t)) && i < |t.slots|
    ensures Stored(Token(SetAmount(t, i, v))) && SlotOffset(i) + 100 <= t.size
    ensures TokenBytes(SetAmount(t, i, v)) == Splice(TokenBytes(t), SlotOffset(i) + 92, ToLE(v, 8))
  {
    var s := t.slots[i];
    var s' := s.(amount := v);
    AroundSlot(t, i);
    assert SlotFits(s);
    SlotReplaced(t, i, s');
    var address := Pad(s.address, 92);
    SpliceMiddle(BeforeSlot(t, i), address, ToLE(s.amount, 8), ToLE(v, 8), [], AfterSlot(t, i));
    assert SlotBytes(s) == address + ToLE(s.amount, 8) + [] && SlotBytes(s') == address + ToLE(v, 8) + [];
  }

  /** Writing a padded address changes that address and nothing else. */
  lemma AddressField(t: TokenState, i: nat, address: Bytes)
    requires Stored(Token(t)) && i < |t.slots| && |address| <= 92
    ensures Stored(Token(WithSlot(t, i, t.slots[i].(address := address)))) && SlotOffset(i) + 100 <= t.size
    ensures TokenBytes(WithSlot(t, i, t.slots[i].(address := address)))
        == Splice(TokenBytes(t), SlotOffset(i), Pad(address, 92))
  {
    var s := t.slots[i];
    var s' := s.(address := address);
    AroundSlot(t, i);
    assert SlotFits(s);
    SlotReplaced(t, i, s');
    var amount := ToLE(s.amount, 8);
    SpliceMiddle(BeforeSlot(t, i), [], Pad(s.address, 92), Pad(address, 92), amount, AfterSlot(t, i));
    assert SlotBytes(s) == [] + Pad(s.address, 92) + amount && SlotBytes(s') == [] + Pad(address, 92) + amount;
  }

  /** Token accounts grow by whole steps of 10240 bytes, so that what is left
      behind the last slot is never enough for an address. */
  lemma NoPartialSlot(size: nat)
    requires size > 0 && size % 10240 == 0
    ensures size < SlotOffset(SlotsIn(size)) + 92
  {
    var k := size / 10240;
    PartialSlot(k / 5, k % 5);
  }

  lemma PartialSlot(q: nat, r: nat)
    requires r < 5 && 0 < 51200 * q + 10240 * r
    ensures 51200 * q + 10240 * r < SlotOffset(SlotsIn(51200 * q + 10240 * r)) + 92
  {
    var size := 51200 * q + 10240 * r;
    var n := if r == 0 then 512 * q - 1 else 512 * q + 102 * r + (if r == 1 then -1 else 0);
    assert 0 <= size - 73 - 100 * n < 92;
    assert SlotsIn(size) == n;
  }

  lemma OutsideSlots(t: TokenState, i: nat)
    requires Stored(Token(t)) && i >= |t.slots|
    ensures SlotOffset(i) + 92 > t.size
  {
    NoPartialSlot(t.size);
  }

  lemma CountField(t: TokenState, n: nat)
    requires Stored(Token(t)) && n <= |t.slots|
    ensures Cut(TokenBytes(t), BALANCE_COUNT_OFFSET, 4) == Ok(ToLE(t.count, 4))
    ensures TokenBytes(t.(count := n)) == Splice(TokenBytes(t), BALANCE_COUNT_OFFSET, ToLE(n, 4))
  {
    FieldOf(TokenBytes(t), Preamble(Token(t)) + Pad(t.tokenId, MAX_TOKEN_ID_SIZE), ToLE(t.count, 4), TokenTail(t));
  }

  lemma TokenIdField(t: TokenState, id: Bytes)
    requires Stored(Token(t)) && |id| <= MAX_TOKEN_ID_SIZE
    ensures Cut(TokenBytes(t), TOKEN_ID_OFFSET, 32) == Ok(Pad(t.tokenId, 32))
    ensures TokenBytes(t.(tokenId := id)) == Splice(TokenBytes(t), TOKEN_ID_OFFSET, Pad(id, 32))
  {
    var after := ToLE(t.count, 4) + TokenTail(t);
    assert TokenBytes(t) == Preamble(Token(t)) + Pad(t.tokenId, MAX_TOKEN_ID_SIZE) + after;
    FieldOf(TokenBytes(t), Preamble(Token(t)), Pad(t.tokenId, MAX_TOKEN_ID_SIZE), after);
    var t' := t.(tokenId := id);
    assert Preamble(Token(t')) == Preamble(Token(t)) && TokenTail(t') == TokenTail(t);
    assert TokenBytes(t') == Preamble(Token(t)) + Pad(id, MAX_TOKEN_ID_SIZE) + after;
  }

  // Growth ----------------------------------------------------------------------

  lemma {:induction false} SlotsBytesAppend(a: seq<Slot>, b: seq<Slot>)
    requires SlotsFit(a) && SlotsFit(b)
    ensures SlotsFit(a + b) && SlotsBytes(a + b) == SlotsBytes(a) + SlotsBytes(b)
  {
    if a == [] {
      assert a + b == b;
    } else {
      SlotsBytesAppend(a[1..], b);
      assert (a + b)[1..] == a[1..] + b;
    }
  }

  lemma {:induction false} NoSlotsBytes(n: nat)
    ensures SlotsFit(NoSlots(n)) && SlotsBytes(NoSlots(n)) == Zeros(100 * n)
  {
    if n > 0 {
      NoSlotsBytes(n - 1);
      ZerosLE(8);
      assert SlotBytes(NO_SLOT) == Zeros(100);
      assert NoSlots(n)[1..] == NoSlots(n - 1);
      assert Zeros(100 * n) == Zeros(100) + Zeros(100 * (n - 1));
    }
  }

  function GrownTo(t: TokenState, size: nat): TokenState {
    if size == t.size then t else t.(size := size, slots := t.slots + NoSlots(SlotsIn(size) - |t.slots|))
  }

  lemma NoSlotsFill(slots: seq<Slot>, n: nat, a: nat, b: nat, c: nat)
    requires SlotsFit(slots) && 100 * n + a == b + c
    ensures SlotsFit(slots + NoSlots(n))
    ensures SlotsBytes(slots + NoSlots(n)) + Zeros(a) == (SlotsBytes(slots) + Zeros(b)) + Zeros(c)
  {
    NoSlotsBytes(n);
    SlotsBytesAppend(slots, NoSlots(n));
    assert Zeros(100 * n) + Zeros(a) == Zeros(b) + Zeros(c);
  }

  lemma GrownTail(t: TokenState, t': TokenState, n: nat)
    requires Stored(Token(t)) && Stored(Token(t')) && t.size <= t'.size && t'.slots == t.slots + NoSlots(n)
    ensures TokenTail(t') == TokenTail(t) + Zeros(t'.size - t.size)
  {
    NoSlotsFill(t.slots, n, t'.size - 73 - 100 * |t'.slots|, t.size - 73 - 100 * |t.slots|, t'.size - t.size);
  }

  /** Zeros appended to the data are unassigned slots appended to the record. */
  lemma GrownBytes(t: TokenState, size: nat)
    requires Stored(Token(t)) && t.size <= size <= MAX_PERMITTED_DATA_LENGTH + MAX_PERMITTED_DATA_INCREASE
        && size % 10240 == 0
    ensures Stored(Token(GrownTo(t, size))) && TokenBytes(GrownTo(t, size)) == TokenBytes(t) + Zeros(size - t.size)
  {
    if size > t.size {
      GrownTail(t, GrownTo(t, size), SlotsIn(size) - |t.slots|);
      assert Preamble(Token(GrownTo(t, size))) == Preamble(Token(t));
    }
  }

  /** A token account without a name and without wallets. */
  function BlankTokenState(program: Key): TokenState {
    TokenState(program, [], 0, NoSlots(SlotsIn(MAX_PERMITTED_DATA_INCREASE)), MAX_PERMITTED_DATA_INCREASE)
  }

  /** The type and the key written into a buffer of zeros. */
  lemma TypedZeros(kind: u8, program: Key, n: nat)
    requires n >= 37
    ensures Splice(Splice(Zeros(n), 0, [kind]), 5, program) == [kind] + Zeros(4) + program + Zeros(n - 37)
  {
    var typed := Splice(Zeros(n), 0, [kind]);
    assert typed == ([kind] + Zeros(4)) + Zeros(32) + Zeros(n - 37);
    FieldOf(typed, [kind] + Zeros(4), Zeros(32), Zeros(n - 37));
  }

  /** An account filled with zeros is one, once it has its type and key. */
  lemma BlankToken(program: Key)
    ensures Stored(Token(BlankTokenState(program)))
    ensures TokenBytes(BlankTokenState(program)) == [2] + Zeros(4) + program + Zeros(MAX_PERMITTED_DATA_INCREASE - 37)
  {
    var t := BlankTokenState(program);
    NoSlotsBytes(SlotsIn(MAX_PERMITTED_DATA_INCREASE));
    ZerosLE(4);
    assert TokenTail(t) == Zeros(MAX_PERMITTED_DATA_INCREASE - 73);
    assert Zeros(32) + Zeros(4) + Zeros(MAX_PERMITTED_DATA_INCREASE - 73) == Zeros(MAX_PERMITTED_DATA_INCREASE - 37);
  }

  lemma BlankTokenBytes(program: Key)
    ensures Stored(Token(BlankTokenState(program)))
    ensures BytesOf(Token(BlankTokenState(program)))
         == Splice(Splice(Zeros(MAX_PERMITTED_DATA_INCREASE), 0, [2]), 5, program)
  {
    BlankToken(program);
    TypedZeros(2, program, MAX_PERMITTED_DATA_INCREASE);
  }

  // ---------------------------------------------------------------------------
  // Program accounts
  // ---------------------------------------------------------------------------

  lemma ConfigFields(p: ProgramState)
    requires Stored(Program(p))
    ensures Cut(ProgramBytes(p), FEE_ACCOUNT_OFFSET, 92) == Ok(Pad(p.feeAccount, 92))
    ensures Cut(ProgramBytes(p), CHANGE_ADDRESS_OFFSET, 92) == Ok(Pad(p.changeAddress, 92))
    ensures Cut(ProgramBytes(p), NETWORK_OFFSET, 1) == Ok([NetworkByte(p.network)])
  {
    var start, fee, change, network :=
        Preamble(Program(p)), Pad(p.feeAccount, 92), Pad(p.changeAddress, 92), [NetworkByte(p.network)];
    ConfigParts(start, fee, change, network, ProgramBytes(p)[222..]);
    assert ProgramBytes(p)[..222] == ProgramConfig(p);
    assert ProgramBytes(p) == ProgramConfig(p) + ProgramBytes(p)[222..];
  }

  lemma ConfigParts(start: Bytes, fee: Bytes, change: Bytes, network: Bytes, after: Bytes)
    ensures var data := start + fee + change + network + after;
            && Cut(data, |start|, |fee|) == Ok(fee)
            && Cut(data, |start| + |fee|, |change|) == Ok(change)
            && Cut(data, |start| + |fee| + |change|, |network|) == Ok(network)
  {
    var data := start + fee + change + network + after;
    assert data == start + fee + (change + network + after);
    FieldOf(data, start, fee, change + network + after);
    assert data == (start + fee) + change + (network + after);
    FieldOf(data, start + fee, change, network + after);
    FieldOf(data, start + fee + change, network, after);
  }

  /** The event count, the events, and the rune receiver. */
  function ProgramRest(p: ProgramState): (r: Bytes)
    requires Stored(Program(p))
  {
    ToLE(|p.events|, 2) + EventRegion(p) + ReceiverBytes(p)
  }

  lemma AroundHashes(p: ProgramState)
    requires Stored(Program(p))
    ensures ProgramBytes(p) == ProgramConfig(p) + p.settlementHash + (p.lastSettlementHash + ProgramRest(p))
    ensures ProgramBytes(p) == (ProgramConfig(p) + p.settlementHash) + p.lastSettlementHash + ProgramRest(p)
  {
  }

  lemma SettlementHashField(p: ProgramState, hash: Hash)
    requires Stored(Program(p))
    ensures Cut(ProgramBytes(p), SETTLEMENT_HASH_OFFSET, 32) == Ok(p.settlementHash)
    ensures ProgramBytes(p.(settlementHash := hash)) == Splice(ProgramBytes(p), SETTLEMENT_HASH_OFFSET, hash)
  {
    AroundHashes(p);
    AroundHashes(p.(settlementHash := hash));
    FieldOf(ProgramBytes(p), ProgramConfig(p), p.settlementHash, p.lastSettlementHash + ProgramRest(p));
  }

  lemma LastSettlementHashField(p: ProgramState, hash: Hash)
    requires Stored(Program(p))
    ensures ProgramBytes(p.(lastSettlementHash := hash)) == Splice(ProgramBytes(p), LAST_SETTLEMENT_HASH_OFFSET, hash)
  {
    AroundHashes(p);
    AroundHashes(p.(lastSettlementHash := hash));
    FieldOf(ProgramBytes(p), ProgramConfig(p) + p.settlementHash, p.lastSettlementHash, ProgramRest(p));
  }

  /** The bytes in front of the event count. */
  function ProgramHead(p: ProgramState): (r: Bytes)
    requires Stored(Program(p))
    ensures |r| == 286
  {
    ProgramConfig(p) + p.settlementHash + p.lastSettlementHash
  }

  lemma ProgramParts(p: ProgramState)
    requires Stored(Program(p))
    ensures ProgramBytes(p) == ProgramHead(p) + ToLE(|p.events|, 2) + (EventRegion(p) + ReceiverBytes(p))
    ensures ProgramBytes(p) == (ProgramHead(p) + ToLE(|p.events|, 2)) + EventRegion(p) + ReceiverBytes(p)
  {
  }

  lemma EventCountField(p: ProgramState)
    requires Stored(Program(p))
    ensures Cut(ProgramBytes(p), EVENT_COUNT_OFFSET, 2) == Ok(ToLE(|p.events|, 2))
  {
    ProgramParts(p);
    FieldOf(ProgramBytes(p), ProgramHead(p), ToLE(|p.events|, 2), EventRegion(p) + ReceiverBytes(p));
  }

  /** Resetting the count leaves the event bytes where they are. */
  lemma ClearedEvents(p: ProgramState)
    requires Stored(Program(p))
    ensures Stored(Program(ClearEvents(p)))
    ensures ProgramBytes(ClearEvents(p)) == Splice(ProgramBytes(p), EVENT_COUNT_OFFSET, ToLE(0, 2))
  {
    var p' := ClearEvents(p);
    ProgramParts(p);
    ProgramParts(p');
    FieldOf(ProgramBytes(p), ProgramHead(p), ToLE(|p.events|, 2), EventRegion(p) + ReceiverBytes(p));
    assert ProgramConfig(p') == ProgramConfig(p);
    assert EventRegion(p') == EventRegion(p);
  }

  lemma {:induction false} WriteEventsAppend(es: seq<Event>, e: Event)
    ensures WriteEvents(es + [e]) == WriteEvents(es) + WriteEvent(e)
  {
    var whole := es + [e];
    if es == [] {
      assert whole[1..] == [] && WriteEvents([]) == [];
      assert WriteEvents(whole) == WriteEvent(e) + [];
    } else {
      WriteEventsAppend(es[1..], e);
      assert whole[0] == es[0] && whole[1..] == es[1..] + [e];
      Joined(WriteEvent(es[0]), WriteEvents(es[1..]), WriteEvent(e));
    }
  }

  /** Emitting an event writes its 64 bytes behind the last event, and the new count. */
  lemma EmittedEvent(p: ProgramState, e: Event)
    requires Stored(Program(p)) && |p.events| < MAX_EVENTS
    ensures EmitEvent(p, e).Ok? && Stored(Program(EmitEvent(p, e).value))
    ensures EVENTS_OFFSET + 64 * |p.events| + 64 <= |ProgramBytes(p)|
    ensures ProgramBytes(EmitEvent(p, e).value)
         == Splice(Splice(ProgramBytes(p), EVENTS_OFFSET + 64 * |p.events|, WriteEvent(e)), EVENT_COUNT_OFFSET,
             ToLE(|p.events| + 1, 2))
  {
    var p' := EmitEvent(p, e).value;
    WriteEventsAppend(p.events, e);
    ProgramParts(p);
    ProgramParts(p');
    assert ProgramHead(p') == ProgramHead(p);
    assert p.stale == p.stale[..64] + p.stale[64..];
    EmittedBytes(ProgramHead(p), ToLE(|p.events|, 2), ToLE(|p.events| + 1, 2), WriteEvents(p.events),
                 p.stale[..64], WriteEvent(e), p.stale[64..], ReceiverBytes(p));
  }

  lemma EmittedBytes(head: Bytes, count: Bytes, count': Bytes, written: Bytes, room: Bytes, event: Bytes,
                     stale: Bytes, receiver: Bytes)
    requires |count'| == |count| && |room| == |event|
    ensures var data := head + count + (written + (room + stale) + receiver);
            var at := |head| + |count| + |written|;
            && at + |event| <= |data|
            && Splice(Splice(data, at, event), |head|, count') == head + count' + ((written + event + stale) + receiver)
  {
    var before := head + count;
    EventSpliced(before, written, room, event, stale, receiver);
    FieldOf(before + ((written + event + stale) + receiver), head, count, (written + event + stale) + receiver);
  }

  lemma EventSpliced(before: Bytes, written: Bytes, room: Bytes, event: Bytes, stale: Bytes, receiver: Bytes)
    requires |room| == |event|
    ensures Splice(before + (written + (room + stale) + receiver), |before| + |written|, event)
         == before + ((written + event + stale) + receiver)
  {
    SpliceMiddle(before, written, room, event, stale, receiver);
    Joined(written, room, stale);
    Joined(before, written + room + stale, receiver);
    Joined(before, written + event + stale, receiver);
  }

  /** Room for a rune receiver behind the events. */
  lemma ReceiverAdded(p: ProgramState, receiver: Key)
    requires Stored(Program(p)) && p.runeReceiver.None?
    ensures ProgramBytes(p.(runeReceiver := Some(receiver)))
        == Splice(ProgramBytes(p) + Zeros(32), RUNE_RECEIVER_OFFSET, receiver)
  {
    var p' := p.(runeReceiver := Some(receiver));
    assert ProgramConfig(p') == ProgramConfig(p) && EventRegion(p') == EventRegion(p);
    assert ProgramBytes(p) + Zeros(32) == ProgramBytes(p) + Zeros(32) + [];
    FieldOf(ProgramBytes(p) + Zeros(32), ProgramBytes(p), Zeros(32), []);
    assert ProgramBytes(p') == ProgramBytes(p) + receiver + [];
  }

  /** A new program account is its encoded header over zeros. */
  lemma NewProgramBytes(p: ProgramState)
    requires Stored(Program(p)) && p.events == [] && p.runeReceiver.None? && p.stale == Zeros(6400)
    ensures ProgramBytes(p) == Splice(Zeros(RUNE_RECEIVER_OFFSET), 0, ProgramHead(p) + ToLE(0, 2))
  {
    assert EventRegion(p) == Zeros(6400);
    assert Zeros(RUNE_RECEIVER_OFFSET)[288..] == Zeros(6400);
  }

  // ---------------------------------------------------------------------------
  // Withdraw accounts
  // ---------------------------------------------------------------------------

  lemma WithdrawHashField(program: Key, hash: Hash, hash': Hash)
    ensures Cut(BytesOf(Withdraw(program, hash)), WITHDRAW_HASH_OFFSET, 32) == Ok(hash)
    ensures BytesOf(Withdraw(program, hash')) == Splice(BytesOf(Withdraw(program, hash)), WITHDRAW_HASH_OFFSET, hash')
  {
    var start := Preamble(Withdraw(program, hash));
    assert BytesOf(Withdraw(program, hash)) == start + hash + [];
    FieldOf(BytesOf(Withdraw(program, hash)), start, hash, []);
    assert Preamble(Withdraw(program, hash')) == start;
  }
}
