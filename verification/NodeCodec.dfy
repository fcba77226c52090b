/** How a node stores transactions (arch/common/src/processed_transaction.rs,
    runtime_transaction.rs, arch/program/src/message.rs, instruction.rs,
    account.rs): nested records whose parsers move a cursor, in one place by the
    length of what they have just parsed, serialised again. */
module NodeCodec {
  import opened Machine
  import opened Wrappers
  import opened ArchCodec

  type Pubkey = b: Bytes | |b| == 32 witness seq(32, _ => 0)

  datatype AccountMeta = AccountMeta(pubkey: Pubkey, isSigner: bool, isWritable: bool)
  datatype Instruction = Instruction(programId: Pubkey, accounts: seq<AccountMeta>, data: Bytes)
  datatype Message = Message(signers: seq<Pubkey>, instructions: seq<Instruction>)
  datatype RuntimeTransaction = RuntimeTransaction(version: u32, signatures: seq<Bytes>, message: Message)
  datatype Status = Processing | Processed | Failed(error: Bytes)

  /** Ids are strings of ASCII characters. */
  datatype ProcessedTransaction = ProcessedTransaction(runtime: RuntimeTransaction, status: Status,
                                                       bitcoinTxid: Option<Bytes>, accountsTags: seq<Bytes>)

  // ---------------------------------------------------------------------------
  // Hexadecimal strings
  // ---------------------------------------------------------------------------

  function HexDigit(n: int): u8
    requires 0 <= n < 16
  {
    if n < 10 then 48 + n else 87 + n
  }

  /** Both cases are accepted. */
  function HexValue(c: u8): (v: Option<int>)
    ensures v.Some? ==> 0 <= v.value < 16
  {
    if 48 <= c <= 57 then Some(c - 48)
    else if 97 <= c <= 102 then Some(c - 87)
    else if 65 <= c <= 70 then Some(c - 55)
    else None
  }

  function HexEncode(b: Bytes): Bytes {
    if b == [] then [] else [HexDigit(b[0] / 16), HexDigit(b[0] % 16)] + HexEncode(b[1..])
  }

  function HexDecode(s: Bytes): Option<Bytes> {
    if s == [] then Some([])
    else if |s| == 1 || HexValue(s[0]).None? || HexValue(s[1]).None? || HexDecode(s[2..]).None? then None
    else Some([16 * HexValue(s[0]).value + HexValue(s[1]).value] + HexDecode(s[2..]).value)
  }

  predicate LowerHex(s: Bytes) {
    forall i | 0 <= i < |s| :: 48 <= s[i] <= 57 || 97 <= s[i] <= 102
  }

  /** 32 bytes in lower case. */
  predicate IsId(s: Bytes) {
    |s| == 64 && LowerHex(s)
  }

  lemma {:induction false} EncodedDecodes(b: Bytes)
    ensures HexDecode(HexEncode(b)) == Some(b) && |HexEncode(b)| == 2 * |b| && LowerHex(HexEncode(b))
  {
    if b != [] {
      EncodedDecodes(b[1..]);
      assert HexEncode(b)[2..] == HexEncode(b[1..]);
      assert b == [b[0]] + b[1..];
      assert HexValue(HexDigit(b[0] / 16)) == Some(b[0] / 16) && HexValue(HexDigit(b[0] % 16)) == Some(b[0] % 16);
    }
  }

  lemma LowerDigit(c: u8)
    requires 48 <= c <= 57 || 97 <= c <= 102
    ensures HexValue(c).Some? && HexDigit(HexValue(c).value) == c
  {
  }

  lemma {:induction false} DecodedEncodes(s: Bytes)
    requires LowerHex(s) && |s| % 2 == 0
    ensures HexDecode(s).Some? && 2 * |HexDecode(s).value| == |s| && HexEncode(HexDecode(s).value) == s
  {
    if s != [] {
      DecodedEncodes(s[2..]);
      LowerDigit(s[0]);
      LowerDigit(s[1]);
      var high, low := HexValue(s[0]).value, HexValue(s[1]).value;
      var b := HexDecode(s).value;
      assert b == [16 * high + low] + HexDecode(s[2..]).value;
      assert b[0] / 16 == high && b[0] % 16 == low;
      assert s == [s[0], s[1]] + s[2..];
    }
  }

  // ---------------------------------------------------------------------------
  // The layout
  // ---------------------------------------------------------------------------

  function Flag(b: bool): u8 {
    if b then 1 else 0
  }

  function WriteMeta(m: AccountMeta): Bytes {
    m.pubkey + [Flag(m.isSigner), Flag(m.isWritable)]
  }

  function ReadMeta(s: Bytes): Decoded<AccountMeta> {
    var (pubkey, r1) :- ReadFixed(s, 32);
    var (isSigner, r2) :- ReadU8(r1);
    var (isWritable, r3) :- ReadU8(r2);
    Got(AccountMeta(pubkey, isSigner != 0, isWritable != 0), r3)
  }

  /** The counts are cut down to one byte. */
  function WriteInstruction(i: Instruction): Bytes {
    i.programId + [|i.accounts| % 256] + WriteMany(i.accounts, WriteMeta) + ToLE(|i.data|, 8) + i.data
  }

  function ReadInstruction(s: Bytes): Decoded<Instruction> {
    var (programId, r1) :- ReadFixed(s, 32);
    var (n, r2) :- ReadU8(r1);
    var (accounts, r3) :- ReadMany(n, ReadMeta, r2);
    var (len, r4) :- ReadU64(r3);
    var (data, r5) :- ReadFixed(r4, len);
    Got(Instruction(programId, accounts, data), r5)
  }

  function WriteKey(k: Pubkey): Bytes { k }

  function ReadKey(s: Bytes): Decoded<Pubkey> {
    var (k, r) :- ReadFixed(s, 32);
    Got(k, r)
  }

  function WriteMessage(m: Message): Bytes {
    [|m.signers| % 256] + WriteMany(m.signers, WriteKey) + [|m.instructions| % 256]
        + WriteMany(m.instructions, WriteInstruction)
  }

  function ReadMessage(s: Bytes): Decoded<Message> {
    var (n, r1) :- ReadU8(s);
    var (signers, r2) :- ReadMany(n, ReadKey, r1);
    var (m, r3) :- ReadU8(r2);
    var (instructions, r4) :- ReadMany(m, ReadInstruction, r3);
    Got(Message(signers, instructions), r4)
  }

  function WriteRaw(s: Bytes): Bytes { s }

  function ReadSignature(s: Bytes): Decoded<Bytes> {
    ReadFixed(s, 64)
  }

  function WriteRuntime(t: RuntimeTransaction): Bytes {
    ToLE(t.version, 4) + [|t.signatures| % 256] + WriteMany(t.signatures, WriteRaw) + WriteMessage(t.message)
  }

  function ReadRuntime(s: Bytes): Decoded<RuntimeTransaction> {
    var (version, r1) :- ReadU32(s);
    var (n, r2) :- ReadU8(r1);
    var (signatures, r3) :- ReadMany(n, ReadSignature, r2);
    var (message, r4) :- ReadMessage(r3);
    Got(RuntimeTransaction(version, signatures, message), r4)
  }

  function WriteTxid(id: Option<Bytes>): Option<Bytes> {
    match id
    case None => Some([0])
    case Some(s) => if HexDecode(s).None? then None else Some([1] + HexDecode(s).value)
  }

  function ReadId(s: Bytes): Decoded<Bytes> {
    var (b, r) :- ReadFixed(s, 32);
    Got(HexEncode(b), r)
  }

  function ReadTxid(s: Bytes): Decoded<Option<Bytes>> {
    var (b, r1) :- ReadU8(s);
    if b != 1 then Got(None, r1) else
    var (id, r2) :- ReadId(r1);
    Got(Some(id), r2)
  }

  function WriteTags(tags: seq<Bytes>): Option<Bytes> {
    if tags == [] then Some([])
    else if HexDecode(tags[0]).None? || WriteTags(tags[1..]).None? then None
    else Some(HexDecode(tags[0]).value + WriteTags(tags[1..]).value)
  }

  function WriteStatus(s: Status): Bytes {
    match s
    case Processing => [0]
    case Processed => [1]
    case Failed(error) => [2] + (ToLE(|error|, 8) + error)
  }

  /** Any other status byte aborts. */
  function ReadStatus(s: Bytes): Decoded<Status> {
    var (b, r1) :- ReadU8(s);
    if b == 0 then Got(Processing, r1)
    else if b == 1 then Got(Processed, r1)
    else if b == 2 then
      var (len, r2) :- ReadU64(r1);
      var (error, r3) :- ReadFixed(r2, len);
      Got(Failed(error), r3)
    else Bad
  }

  function WriteBehind(t: ProcessedTransaction, txid: Bytes, tags: Bytes): Bytes {
    txid + (ToLE(|t.accountsTags|, 8) + (tags + WriteStatus(t.status)))
  }

  /** to_vec; an id that is no hexadecimal string is an error. */
  function ToVec(t: ProcessedTransaction): Option<Bytes> {
    var runtime := WriteRuntime(t.runtime);
    var txid, tags := WriteTxid(t.bitcoinTxid), WriteTags(t.accountsTags);
    if txid.None? || tags.None? then None
    else Some(ToLE(|runtime|, 8) + (runtime + WriteBehind(t, txid.value, tags.value)))
  }

  /** What from_vec reads behind the runtime transaction. */
  function ReadBehind(s: Bytes, runtime: RuntimeTransaction): Decoded<ProcessedTransaction> {
    var (txid, r3) :- ReadTxid(s);
    var (n, r4) :- ReadU64(r3);
    var (tags, r5) :- ReadMany(n, ReadId, r4);
    var (status, r6) :- ReadStatus(r5);
    Got(ProcessedTransaction(runtime, status, txid, tags), r6)
  }

  /** from_vec; bytes behind the status are ignored, as are bytes behind the
      runtime transaction inside its frame. */
  function FromVec(s: Bytes): Decoded<ProcessedTransaction> {
    var (len, r1) :- ReadU64(s);
    var (frame, r2) :- ReadFixed(r1, len);
    var (runtime, _) :- ReadRuntime(frame);
    ReadBehind(r2, runtime)
  }

  // ---------------------------------------------------------------------------
  // What is parsed, serialised again, is as long as what was read
  // ---------------------------------------------------------------------------

  /** Reading moves past exactly as many bytes as writing the result takes. */
  ghost predicate Advances<T(!new)>(read: Bytes -> Decoded<T>, write: T -> Bytes) {
    forall s: Bytes {:trigger read(s)} ::
        read(s).Got? ==> |write(read(s).value)| <= |s| && read(s).rest == s[|write(read(s).value)|..]
  }

  lemma {:induction false} ManyAdvances<T(!new)>(n: nat, read: Bytes -> Decoded<T>, write: T -> Bytes, s: Bytes)
    requires Advances(read, write) && ReadMany(n, read, s).Got?
    ensures var d := ReadMany(n, read, s);
            |d.value| == n && |WriteMany(d.value, write)| <= |s| && d.rest == s[|WriteMany(d.value, write)|..]
  {
    if n > 0 {
      ManyAdvances(n - 1, read, write, read(s).rest);
      var xs := ReadMany(n, read, s).value;
      assert xs[1..] == ReadMany(n - 1, read, read(s).rest).value;
    }
  }

  lemma MetaAdvances()
    ensures Advances(ReadMeta, WriteMeta)
  {
  }

  /** Whatever the bytes are, an instruction parsed from the front of a longer
      buffer serialises to as many bytes as the parser has used. */
  lemma InstructionAdvances()
    ensures Advances(ReadInstruction, WriteInstruction)
  {
    forall s: Bytes | ReadInstruction(s).Got?
      ensures var i := ReadInstruction(s).value;
              |WriteInstruction(i)| <= |s| && ReadInstruction(s).rest == s[|WriteInstruction(i)|..]
    {
      MetaAdvances();
      ManyAdvances(s[32], ReadMeta, WriteMeta, s[33..]);
      var i := ReadInstruction(s).value;
      assert |WriteInstruction(i)| == 33 + |WriteMany(i.accounts, WriteMeta)| + 8 + |i.data|;
    }
  }

  /** It need not serialise to the same bytes: any flag byte other than 0 is read
      as true, and written as 1. */
  lemma FlagsAreNormalised(k: Pubkey)
    ensures var s := k + [2, 0];
            ReadMeta(s) == Got(AccountMeta(k, true, false), []) && WriteMeta(ReadMeta(s).value) != s
  {
    var s := k + [2, 0];
    assert s[..32] == k && s[32..] == [2, 0] && s[32..][1..] == [0];
    assert WriteMeta(AccountMeta(k, true, false))[32] == 1 && s[32] == 2;
  }

  lemma MessageAdvances()
    ensures Advances(ReadMessage, WriteMessage)
  {
    forall s: Bytes | ReadMessage(s).Got?
      ensures var m := ReadMessage(s).value;
              |WriteMessage(m)| <= |s| && ReadMessage(s).rest == s[|WriteMessage(m)|..]
    {
      assert Advances(ReadKey, WriteKey);
      ManyAdvances(s[0], ReadKey, WriteKey, s[1..]);
      var r2 := ReadMany(s[0], ReadKey, s[1..]).rest;
      InstructionAdvances();
      ManyAdvances(r2[0], ReadInstruction, WriteInstruction, r2[1..]);
      var m := ReadMessage(s).value;
      assert |WriteMessage(m)| == 2 + |WriteMany(m.signers, WriteKey)| + |WriteMany(m.instructions, WriteInstruction)|;
    }
  }

  lemma SignaturesAdvance(n: nat, s: Bytes)
    requires ReadMany(n, ReadSignature, s).Got?
    ensures var d := ReadMany(n, ReadSignature, s);
            |d.value| == n && |WriteMany(d.value, WriteRaw)| <= |s| && d.rest == s[|WriteMany(d.value, WriteRaw)|..]
  {
    assert Advances(ReadSignature, WriteRaw);
    ManyAdvances(n, ReadSignature, WriteRaw, s);
  }

  lemma RuntimeAdvances()
    ensures Advances(ReadRuntime, WriteRuntime)
  {
    forall s: Bytes | ReadRuntime(s).Got?
      ensures var t := ReadRuntime(s).value;
              |WriteRuntime(t)| <= |s| && ReadRuntime(s).rest == s[|WriteRuntime(t)|..]
    {
      SignaturesAdvance(s[4], s[5..]);
      MessageAdvances();
      var t := ReadRuntime(s).value;
      assert |WriteRuntime(t)| == 5 + |WriteMany(t.signatures, WriteRaw)| + |WriteMessage(t.message)|;
    }
  }

  // ---------------------------------------------------------------------------
  // Round trip
  // ---------------------------------------------------------------------------

  predicate InstructionFits(i: Instruction) {
    |i.accounts| < 256 && |i.data| < U64
  }

  predicate MessageFits(m: Message) {
    |m.signers| < 256 && |m.instructions| < 256 && forall i | i in m.instructions :: InstructionFits(i)
  }

  predicate RuntimeFits(t: RuntimeTransaction) {
    |t.signatures| < 256 && (forall s | s in t.signatures :: |s| == 64) && MessageFits(t.message)
  }

  /** Counts that fit their fields, 64-byte signatures, and ids of 32 bytes in
      lower case. */
  predicate Canonical(t: ProcessedTransaction) {
    && RuntimeFits(t.runtime) && |WriteRuntime(t.runtime)| < U64
    && (t.bitcoinTxid.Some? ==> IsId(t.bitcoinTxid.value))
    && |t.accountsTags| < U64 && (forall s | s in t.accountsTags :: IsId(s))
    && (t.status.Failed? ==> |t.status.error| < U64)
  }

  lemma RawBack(s: Bytes, rest: Bytes)
    ensures ReadFixed(s + rest, |s|) == Got(s, rest)
  {
    assert (s + rest)[..|s|] == s && (s + rest)[|s|..] == rest;
  }

  lemma MetaBack(m: AccountMeta, rest: Bytes)
    ensures ReadMeta(WriteMeta(m) + rest) == Got(m, rest)
  {
    var r2 := [Flag(m.isWritable)] + rest;
    var r1 := [Flag(m.isSigner)] + r2;
    assert WriteMeta(m) + rest == m.pubkey + r1;
    RawBack(m.pubkey, r1);
    U8Back(Flag(m.isSigner), r2);
    U8Back(Flag(m.isWritable), rest);
  }

  lemma MetasBack(xs: seq<AccountMeta>, rest: Bytes)
    ensures ReadMany(|xs|, ReadMeta, WriteMany(xs, WriteMeta) + rest) == Got(xs, rest)
  {
    forall x | x in xs ensures Invertible(x, WriteMeta, ReadMeta) {
      forall r: Bytes ensures ReadMeta(WriteMeta(x) + r) == Got(x, r) { MetaBack(x, r); }
    }
    ManyBack(xs, WriteMeta, ReadMeta, rest);
  }

  lemma InstructionParts(i: Instruction, rest: Bytes)
    ensures WriteInstruction(i) + rest
         == i.programId
             + ([|i.accounts| % 256] + (WriteMany(i.accounts, WriteMeta) + (ToLE(|i.data|, 8) + (i.data + rest))))
  {
    Regrouped(i.programId, [|i.accounts| % 256], WriteMany(i.accounts, WriteMeta), ToLE(|i.data|, 8), i.data, rest);
  }

  /** The parser's steps, given what each of them reads. */
  lemma InstructionSteps(s: Bytes, i: Instruction, r1: Bytes, r2: Bytes, r3: Bytes, r4: Bytes, rest: Bytes)
    requires ReadFixed(s, 32) == Got(i.programId, r1) && InstructionFits(i) && ReadU8(r1) == Got(|i.accounts|, r2)
    requires ReadMany(|i.accounts|, ReadMeta, r2) == Got(i.accounts, r3)
    requires ReadU64(r3) == Got(|i.data|, r4) && ReadFixed(r4, |i.data|) == Got(i.data, rest)
    ensures ReadInstruction(s) == Got(i, rest)
  {
  }

  lemma MessageSteps(s: Bytes, m: Message, r1: Bytes, r2: Bytes, r3: Bytes, rest: Bytes)
    requires MessageFits(m) && ReadU8(s) == Got(|m.signers|, r1)
        && ReadMany(|m.signers|, ReadKey, r1) == Got(m.signers, r2)
    requires ReadU8(r2) == Got(|m.instructions|, r3)
        && ReadMany(|m.instructions|, ReadInstruction, r3) == Got(m.instructions, rest)
    ensures ReadMessage(s) == Got(m, rest)
  {
  }

  lemma RuntimeSteps(s: Bytes, t: RuntimeTransaction, r1: Bytes, r2: Bytes, r3: Bytes, rest: Bytes)
    requires RuntimeFits(t) && ReadU32(s) == Got(t.version, r1) && ReadU8(r1) == Got(|t.signatures|, r2)
    requires ReadMany(|t.signatures|, ReadSignature, r2) == Got(t.signatures, r3)
        && ReadMessage(r3) == Got(t.message, rest)
    ensures ReadRuntime(s) == Got(t, rest)
  {
  }

  lemma CountBack(n: nat, rest: Bytes)
    requires n < 256
    ensures ReadU8([n % 256] + rest) == Got(n, rest)
  {
    U8Back(n, rest);
  }

  lemma InstructionBack(i: Instruction, rest: Bytes)
    requires InstructionFits(i)
    ensures ReadInstruction(WriteInstruction(i) + rest) == Got(i, rest)
  {
    var r4 := i.data + rest;
    var r3 := ToLE(|i.data|, 8) + r4;
    var r2 := WriteMany(i.accounts, WriteMeta) + r3;
    InstructionParts(i, rest);
    var r1 := [|i.accounts| % 256] + r2;
    RawBack(i.programId, r1);
    CountBack(|i.accounts|, r2);
    MetasBack(i.accounts, r3);
    U64Back(|i.data|, r4);
    RawBack(i.data, rest);
    InstructionSteps(WriteInstruction(i) + rest, i, r1, r2, r3, r4, rest);
  }

  lemma Regrouped(a: Bytes, b: Bytes, c: Bytes, d: Bytes, e: Bytes, rest: Bytes)
    ensures (a + b + c + d + e) + rest == a + (b + (c + (d + (e + rest))))
  {
  }

  lemma KeysBack(xs: seq<Pubkey>, rest: Bytes)
    ensures ReadMany(|xs|, ReadKey, WriteMany(xs, WriteKey) + rest) == Got(xs, rest)
  {
    forall x | x in xs ensures Invertible(x, WriteKey, ReadKey) {
      forall r: Bytes ensures ReadKey(WriteKey(x) + r) == Got(x, r) { RawBack(x, r); }
    }
    ManyBack(xs, WriteKey, ReadKey, rest);
  }

  lemma InstructionsBack(xs: seq<Instruction>, rest: Bytes)
    requires forall i | i in xs :: InstructionFits(i)
    ensures ReadMany(|xs|, ReadInstruction, WriteMany(xs, WriteInstruction) + rest) == Got(xs, rest)
  {
    forall x | x in xs ensures Invertible(x, WriteInstruction, ReadInstruction) {
      forall r: Bytes ensures ReadInstruction(WriteInstruction(x) + r) == Got(x, r) { InstructionBack(x, r); }
    }
    ManyBack(xs, WriteInstruction, ReadInstruction, rest);
  }

  lemma MessageParts(m: Message, rest: Bytes)
    ensures WriteMessage(m) + rest
         == [|m.signers| % 256] + (WriteMany(m.signers, WriteKey)
             + ([|m.instructions| % 256] + (WriteMany(m.instructions, WriteInstruction) + rest)))
  {
    Regrouped([], [|m.signers| % 256], WriteMany(m.signers, WriteKey), [|m.instructions| % 256],
              WriteMany(m.instructions, WriteInstruction), rest);
  }

  lemma MessageBack(m: Message, rest: Bytes)
    requires MessageFits(m)
    ensures ReadMessage(WriteMessage(m) + rest) == Got(m, rest)
  {
    var r3 := WriteMany(m.instructions, WriteInstruction) + rest;
    var r2 := [|m.instructions| % 256] + r3;
    var r1 := WriteMany(m.signers, WriteKey) + r2;
    MessageParts(m, rest);
    CountBack(|m.signers|, r1);
    KeysBack(m.signers, r2);
    CountBack(|m.instructions|, r3);
    InstructionsBack(m.instructions, rest);
    MessageSteps(WriteMessage(m) + rest, m, r1, r2, r3, rest);
  }

  lemma SignaturesBack(xs: seq<Bytes>, rest: Bytes)
    requires forall s | s in xs :: |s| == 64
    ensures ReadMany(|xs|, ReadSignature, WriteMany(xs, WriteRaw) + rest) == Got(xs, rest)
  {
    forall x | x in xs ensures Invertible(x, WriteRaw, ReadSignature) {
      forall r: Bytes ensures ReadSignature(WriteRaw(x) + r) == Got(x, r) { RawBack(x, r); }
    }
    ManyBack(xs, WriteRaw, ReadSignature, rest);
  }

  lemma RuntimeParts(t: RuntimeTransaction, rest: Bytes)
    ensures WriteRuntime(t) + rest
         == ToLE(t.version, 4)
             + ([|t.signatures| % 256] + (WriteMany(t.signatures, WriteRaw) + (WriteMessage(t.message) + rest)))
  {
    Regrouped([], ToLE(t.version, 4), [|t.signatures| % 256], WriteMany(t.signatures, WriteRaw),
        WriteMessage(t.message), rest);
  }

  lemma RuntimeBack(t: RuntimeTransaction, rest: Bytes)
    requires RuntimeFits(t)
    ensures ReadRuntime(WriteRuntime(t) + rest) == Got(t, rest)
  {
    var r3 := WriteMessage(t.message) + rest;
    var r2 := WriteMany(t.signatures, WriteRaw) + r3;
    var r1 := [|t.signatures| % 256] + r2;
    RuntimeParts(t, rest);
    U32Back(t.version, r1);
    CountBack(|t.signatures|, r2);
    SignaturesBack(t.signatures, r3);
    MessageBack(t.message, rest);
    RuntimeSteps(WriteRuntime(t) + rest, t, r1, r2, r3, rest);
  }

  lemma IdBack(s: Bytes, rest: Bytes)
    requires IsId(s)
    ensures HexDecode(s).Some? && ReadId(HexDecode(s).value + rest) == Got(s, rest)
  {
    DecodedEncodes(s);
    RawBack(HexDecode(s).value, rest);
  }

  lemma {:induction false} TagsBack(tags: seq<Bytes>, rest: Bytes)
    requires forall s | s in tags :: IsId(s)
    ensures WriteTags(tags).Some? && ReadMany(|tags|, ReadId, WriteTags(tags).value + rest) == Got(tags, rest)
  {
    if tags == [] {
      assert [] + rest == rest;
    } else {
      TagsBack(tags[1..], rest);
      var tail := WriteTags(tags[1..]).value + rest;
      IdBack(tags[0], tail);
      assert WriteTags(tags).value + rest == HexDecode(tags[0]).value + tail;
      assert tags == [tags[0]] + tags[1..];
    }
  }

  lemma TxidBack(id: Option<Bytes>, rest: Bytes)
    requires id.Some? ==> IsId(id.value)
    ensures WriteTxid(id).Some? && ReadTxid(WriteTxid(id).value + rest) == Got(id, rest)
  {
    if id.Some? {
      IdBack(id.value, rest);
      assert WriteTxid(id).value + rest == [1] + (HexDecode(id.value).value + rest);
      U8Back(1, HexDecode(id.value).value + rest);
    } else {
      U8Back(0, rest);
    }
  }

  lemma StatusBack(s: Status, rest: Bytes)
    requires s.Failed? ==> |s.error| < U64
    ensures ReadStatus(WriteStatus(s) + rest) == Got(s, rest)
  {
    match s
    case Processing => U8Back(0, rest);
    case Processed => U8Back(1, rest);
    case Failed(error) => FailedBack(error, rest);
  }

  lemma FailedBack(error: Bytes, rest: Bytes)
    requires |error| < U64
    ensures ReadStatus(WriteStatus(Failed(error)) + rest) == Got(Failed(error), rest)
  {
    var tail := error + rest;
    Regrouped([], [], [2], ToLE(|error|, 8), error, rest);
    assert WriteStatus(Failed(error)) + rest == [2] + (ToLE(|error|, 8) + tail);
    U8Back(2, ToLE(|error|, 8) + tail);
    U64Back(|error|, tail);
    RawBack(error, rest);
  }

  lemma BehindBack(t: ProcessedTransaction)
    requires Canonical(t)
    ensures WriteTxid(t.bitcoinTxid).Some? && WriteTags(t.accountsTags).Some?
    ensures ReadBehind(WriteBehind(t, WriteTxid(t.bitcoinTxid).value, WriteTags(t.accountsTags).value), t.runtime)
        == Got(t, [])
  {
    var status := WriteStatus(t.status);
    TagsBack(t.accountsTags, status);
    var r4 := WriteTags(t.accountsTags).value + status;
    TxidBack(t.bitcoinTxid, ToLE(|t.accountsTags|, 8) + r4);
    U64Back(|t.accountsTags|, r4);
    StatusBack(t.status, []);
    assert status + [] == status;
  }

  lemma StorageSteps(s: Bytes, t: ProcessedTransaction, frame: Bytes, left: Bytes, behind: Bytes)
    requires ReadU64(s) == Got(|frame|, frame + behind) && ReadFixed(frame + behind, |frame|) == Got(frame, behind)
    requires ReadRuntime(frame) == Got(t.runtime, left) && ReadBehind(behind, t.runtime) == Got(t, [])
    ensures FromVec(s) == Got(t, [])
  {
  }

  lemma FrameBack(t: RuntimeTransaction)
    requires RuntimeFits(t)
    ensures ReadRuntime(WriteRuntime(t)) == Got(t, [])
  {
    RuntimeBack(t, []);
    assert WriteRuntime(t) + [] == WriteRuntime(t);
  }

  lemma RoundTrip(t: ProcessedTransaction)
    requires Canonical(t)
    ensures ToVec(t).Some? && FromVec(ToVec(t).value) == Got(t, [])
  {
    BehindBack(t);
    var runtime := WriteRuntime(t.runtime);
    var behind := WriteBehind(t, WriteTxid(t.bitcoinTxid).value, WriteTags(t.accountsTags).value);
    U64Back(|runtime|, runtime + behind);
    RawBack(runtime, behind);
    FrameBack(t.runtime);
    StorageSteps(ToLE(|runtime|, 8) + (runtime + behind), t, runtime, [], behind);
  }

  // What from_vec can give ----------------------------------------------------------

  lemma InstructionGiven(s: Bytes)
    requires ReadInstruction(s).Got?
    ensures InstructionFits(ReadInstruction(s).value)
  {
    ManyGives(s[32], ReadMeta, s[33..], (m: AccountMeta) => true);
  }

  lemma MessageGiven(s: Bytes)
    requires ReadMessage(s).Got?
    ensures MessageFits(ReadMessage(s).value)
  {
    ManyGives(s[0], ReadKey, s[1..], (k: Pubkey) => true);
    var r2 := ReadMany(s[0], ReadKey, s[1..]).rest;
    forall r: Bytes | ReadInstruction(r).Got? ensures InstructionFits(ReadInstruction(r).value) {
      InstructionGiven(r);
    }
    ManyGives(r2[0], ReadInstruction, r2[1..], InstructionFits);
  }

  lemma RuntimeGiven(s: Bytes)
    requires ReadRuntime(s).Got?
    ensures RuntimeFits(ReadRuntime(s).value) && |WriteRuntime(ReadRuntime(s).value)| <= |s|
  {
    ManyGives(s[4], ReadSignature, s[5..], (x: Bytes) => |x| == 64);
    MessageGiven(ReadMany(s[4], ReadSignature, s[5..]).rest);
    RuntimeAdvances();
  }

  lemma IdGiven(s: Bytes)
    requires ReadId(s).Got?
    ensures IsId(ReadId(s).value)
  {
    EncodedDecodes(s[..32]);
  }

  /** Whatever the bytes are, what from_vec gives is canonical. */
  lemma Given(s: Bytes)
    requires FromVec(s).Got?
    ensures Canonical(FromVec(s).value)
  {
    var r1 := ReadU64(s).rest;
    var len := ReadU64(s).value;
    RuntimeGiven(r1[..len]);
    var r2 := r1[len..];
    forall r: Bytes | ReadId(r).Got? ensures IsId(ReadId(r).value) {
      IdGiven(r);
    }
    var r3 := ReadTxid(r2).rest;
    ManyGives(ReadU64(r3).value, ReadId, ReadU64(r3).rest, IsId);
    StatusGiven(ReadMany(ReadU64(r3).value, ReadId, ReadU64(r3).rest).rest);
  }

  lemma StatusGiven(s: Bytes)
    requires ReadStatus(s).Got?
    ensures ReadStatus(s).value.Failed? ==> |ReadStatus(s).value.error| < U64
  {
  }

  /** A processed transaction survives storage if and only if it is canonical. */
  lemma RoundTripIff(t: ProcessedTransaction)
    ensures (ToVec(t).Some? && FromVec(ToVec(t).value).Got? && FromVec(ToVec(t).value).value == t) <==> Canonical(t)
  {
    if Canonical(t) {
      RoundTrip(t);
    } else if ToVec(t).Some? && FromVec(ToVec(t).value).Got? && FromVec(ToVec(t).value).value == t {
      Given(ToVec(t).value);
      assert false;
    }
  }

  // ---------------------------------------------------------------------------
  // An id that does not come back
  // ---------------------------------------------------------------------------

  /** Hexadecimal in either case stands for the same bytes. */
  lemma {:induction false} SameBytes(n: nat)
    ensures HexDecode(seq(2 * n, _ => 65)) == Some(seq(n, _ => 170)) == HexDecode(seq(2 * n, _ => 97))
  {
    if n > 0 {
      SameBytes(n - 1);
      var upper, lower: Bytes := seq(2 * n, _ => 65), seq(2 * n, _ => 97);
      var bytes: Bytes := seq(n, _ => 170);
      assert upper[2..] == seq(2 * (n - 1), _ => 65) && lower[2..] == seq(2 * (n - 1), _ => 97);
      assert bytes == [170] + seq(n - 1, _ => 170);
      assert HexValue(65) == Some(10) == HexValue(97);
      assert HexDecode(upper) == Some([170] + HexDecode(upper[2..]).value);
      assert HexDecode(lower) == Some([170] + HexDecode(lower[2..]).value);
    } else {
      var none: Bytes := [];
      assert seq(2 * n, _ => 65) == none && seq(2 * n, _ => 97) == none && seq(n, _ => 170) == none;
    }
  }

  const NO_RUNTIME: RuntimeTransaction := RuntimeTransaction(0, [], Message([], []))

  /** An id of 64 letters "A" is stored, and comes back as 64 letters "a". */
  lemma UpperCaseIsLost()
    ensures var upper := ProcessedTransaction(NO_RUNTIME, Processed, Some(seq(64, _ => 65)), []);
            ToVec(upper).Some? && FromVec(ToVec(upper).value)
            == Got(ProcessedTransaction(NO_RUNTIME, Processed, Some(seq(64, _ => 97)), []), [])
  {
    var lower := ProcessedTransaction(NO_RUNTIME, Processed, Some(seq(64, _ => 97)), []);
    SameBytes(32);
    assert WriteRuntime(NO_RUNTIME) == ToLE(0, 4) + [0, 0, 0];
    RoundTrip(lower);
  }
}
