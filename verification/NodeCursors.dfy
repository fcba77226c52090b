/** The node's serialisers and parsers as they run: buffers that are extended,
    and cursors that are moved, each proved against the layout in NodeCodec. */
module NodeCursors {
  import opened Machine
  import opened Wrappers
  import opened ArchCodec
  import opened NodeCodec

  /** A parser returns the value only; every bad index is a panic. */
  function Parsed<T>(d: Decoded<T>): Result<T> {
    match d case Got(x, _) => Ok(x) case Bad => Err(Panic)
  }

  /** What is left to write, behind what has been written. */
  predicate Extends<T>(out: Bytes, xs: seq<T>, write: T -> Bytes, i: nat, goal: Bytes)
    requires i <= |xs|
  {
    out + WriteMany(xs[i..], write) == goal
  }

  lemma Extended<T>(out: Bytes, xs: seq<T>, write: T -> Bytes, i: nat, goal: Bytes)
    requires i < |xs| && Extends(out, xs, write, i, goal)
    ensures Extends(out + write(xs[i]), xs, write, i + 1, goal)
  {
    assert xs[i..][1..] == xs[i + 1..];
    assert out + (write(xs[i]) + WriteMany(xs[i + 1..], write)) == out + write(xs[i]) + WriteMany(xs[i + 1..], write);
  }

  // ---------------------------------------------------------------------------
  // Account metas and instructions
  // ---------------------------------------------------------------------------

  method SerializeMeta(m: AccountMeta) returns (a: array<u8>)
    ensures fresh(a) && a[..] == WriteMeta(m)
  {
    a := new u8[34](_ => 0);
    forall k | 0 <= k < 32 {
      a[k] := m.pubkey[k];
    }
    a[32] := Flag(m.isSigner);
    a[33] := Flag(m.isWritable);
    assert a[..] == m.pubkey + [Flag(m.isSigner), Flag(m.isWritable)];
  }

  /** AccountMeta::from_slice, on the 34 bytes of a meta. */
  function MetaFromSlice(data: Bytes): AccountMeta
    requires |data| == 34
  {
    AccountMeta(data[..32], data[32] != 0, data[33] != 0)
  }

  lemma MetaIsFixed(s: Bytes)
    ensures ReadMeta(s) == if |s| < 34 then Bad else Got(MetaFromSlice(s[..34]), s[34..])
  {
    if |s| >= 34 {
      assert s[..34][..32] == s[..32];
      assert s[32..][1..] == s[33..] && s[33..][1..] == s[34..];
    }
  }

  method SerializeInstruction(i: Instruction) returns (out: Bytes)
    ensures out == WriteInstruction(i)
  {
    out := i.programId + [|i.accounts| % 256];
    ghost var goal := out + WriteMany(i.accounts, WriteMeta);
    assert i.accounts[0..] == i.accounts;
    for k := 0 to |i.accounts|
      invariant Extends(out, i.accounts, WriteMeta, k, goal)
    {
      Extended(out, i.accounts, WriteMeta, k, goal);
      var meta := SerializeMeta(i.accounts[k]);
      out := out + meta[..];
    }
    assert out + [] == out;
    out := out + ToLE(|i.data|, 8) + i.data;
  }

  /** The metas at the cursor, and where they end. */
  method MetasFromSlice(data: Bytes, start: nat, n: nat) returns (r: Result<seq<AccountMeta>>, size: nat)
    requires start <= |data|
    ensures size <= |data|
    ensures match ReadMany(n, ReadMeta, data[start..])
            case Got(xs, rest) => r == Ok(xs) && rest == data[size..]
            case Bad => r == Err(Panic)
  {
    size := start;
    var xs := [];
    ghost var whole := ReadMany(n, ReadMeta, data[start..]);
    StartRead(n, ReadMeta, data[start..]);
    for k := 0 to n
      invariant size <= |data| && Continues(whole, xs, ReadMany(n - k, ReadMeta, data[size..]))
    {
      NextRead(whole, xs, n - k, ReadMeta, data[size..]);
      MetaIsFixed(data[size..]);
      if size + 34 > |data| {
        return Err(Panic), size;
      }
      assert data[size..][..34] == data[size..size + 34] && data[size..][34..] == data[size + 34..];
      xs := xs + [MetaFromSlice(data[size..size + 34])];
      size := size + 34;
    }
    AllRead(whole, xs, ReadMeta, data[size..]);
    r := Ok(xs);
  }

  method InstructionFromSlice(data: Bytes) returns (r: Result<Instruction>)
    ensures r == Parsed(ReadInstruction(data))
  {
    if |data| <= 32 {
      return Err(Panic);
    }
    var accounts, size := MetasFromSlice(data, 33, data[32]);
    assert data[32..][0] == data[32] && data[32..][1..] == data[33..];
    if accounts.Err? {
      return Err(Panic);
    }
    if size + 8 > |data| {
      return Err(Panic);
    }
    PowValues();
    var len := FromLE(data[size..size + 8]);
    assert data[size..][..8] == data[size..size + 8] && data[size..][8..] == data[size + 8..];
    size := size + 8;
    if size + len > |data| {
      return Err(Panic);
    }
    assert data[size..][..len] == data[size..size + len];
    return Ok(Instruction(data[..32], accounts.value, data[size..size + len]));
  }

  // ---------------------------------------------------------------------------
  // Messages
  // ---------------------------------------------------------------------------

  method SerializeMessage(m: Message) returns (out: Bytes)
    ensures out == WriteMessage(m)
  {
    out := [|m.signers| % 256];
    ghost var goal := out + WriteMany(m.signers, WriteKey);
    assert m.signers[0..] == m.signers;
    for k := 0 to |m.signers|
      invariant Extends(out, m.signers, WriteKey, k, goal)
    {
      Extended(out, m.signers, WriteKey, k, goal);
      out := out + m.signers[k];
    }
    assert out + [] == out;
    out := out + [|m.instructions| % 256];
    goal := out + WriteMany(m.instructions, WriteInstruction);
    assert m.instructions[0..] == m.instructions;
    for k := 0 to |m.instructions|
      invariant Extends(out, m.instructions, WriteInstruction, k, goal)
    {
      Extended(out, m.instructions, WriteInstruction, k, goal);
      var bytes := SerializeInstruction(m.instructions[k]);
      out := out + bytes;
    }
    assert out + [] == out;
  }

  method KeysFromSlice(data: Bytes, start: nat, n: nat) returns (r: Result<seq<Pubkey>>, size: nat)
    requires start <= |data|
    ensures size <= |data|
    ensures match ReadMany(n, ReadKey, data[start..])
            case Got(xs, rest) => r == Ok(xs) && rest == data[size..]
            case Bad => r == Err(Panic)
  {
    size := start;
    var xs: seq<Pubkey> := [];
    ghost var whole := ReadMany(n, ReadKey, data[start..]);
    StartRead(n, ReadKey, data[start..]);
    for k := 0 to n
      invariant size <= |data| && Continues(whole, xs, ReadMany(n - k, ReadKey, data[size..]))
    {
      NextRead(whole, xs, n - k, ReadKey, data[size..]);
      if size + 32 > |data| {
        return Err(Panic), size;
      }
      assert data[size..][..32] == data[size..size + 32] && data[size..][32..] == data[size + 32..];
      xs := xs + [data[size..size + 32]];
      size := size + 32;
    }
    AllRead(whole, xs, ReadKey, data[size..]);
    r := Ok(xs);
  }

  /** `read` reads an instruction, in whatever way. */
  ghost predicate ReadsInstructions(read: Bytes -> Decoded<Instruction>) {
    forall s: Bytes {:trigger ReadInstruction(s)} :: read(s) == ReadInstruction(s)
  }

  /** One instruction at the cursor, which moves on by the length of what was
      parsed, serialised again. */
  method NextInstruction(data: Bytes, start: nat, ghost read: Bytes -> Decoded<Instruction>)
      returns (r: Result<Instruction>, size: nat)
    requires start <= |data| && ReadsInstructions(read)
    ensures size <= |data|
    ensures match read(data[start..])
            case Got(x, rest) => r == Ok(x) && rest == data[size..]
            case Bad => r == Err(Panic)
  {
    size := start;
    r := InstructionFromSlice(data[start..]);
    if r.Ok? {
      InstructionAdvances();
      var again := SerializeInstruction(r.value);
      assert data[start..][|again|..] == data[start + |again|..];
      size := start + |again|;
    }
  }

  method InstructionsFromSlice(data: Bytes, start: nat, n: nat, ghost read: Bytes -> Decoded<Instruction>)
    returns (r: Result<seq<Instruction>>, size: nat)
    requires start <= |data| && ReadsInstructions(read)
    ensures size <= |data|
    ensures match ReadMany(n, read, data[start..])
            case Got(xs, rest) => r == Ok(xs) && rest == data[size..]
            case Bad => r == Err(Panic)
  {
    size := start;
    var xs := [];
    ghost var whole := ReadMany(n, read, data[start..]);
    StartRead(n, read, data[start..]);
    for k := 0 to n
      invariant size <= |data| && Continues(whole, xs, ReadMany(n - k, read, data[size..]))
    {
      NextRead(whole, xs, n - k, read, data[size..]);
      var x;
      x, size := NextInstruction(data, size, read);
      if x.Err? {
        return Err(Panic), size;
      }
      xs := xs + [x.value];
    }
    AllRead(whole, xs, read, data[size..]);
    r := Ok(xs);
  }

  method MessageFromSlice(data: Bytes) returns (r: Result<Message>)
    ensures r == Parsed(ReadMessage(data))
  {
    if |data| == 0 {
      return Err(Panic);
    }
    var signers, size := KeysFromSlice(data, 1, data[0]);
    if signers.Err? || size >= |data| {
      return Err(Panic);
    }
    assert data[size..][1..] == data[size + 1..];
    var instructions, end := InstructionsFromSlice(data, size + 1, data[size], ReadInstruction);
    if instructions.Err? {
      return Err(Panic);
    }
    return Ok(Message(signers.value, instructions.value));
  }

  // ---------------------------------------------------------------------------
  // Runtime transactions
  // ---------------------------------------------------------------------------

  method SerializeRuntime(t: RuntimeTransaction) returns (out: Bytes)
    ensures out == WriteRuntime(t)
  {
    out := ToLE(t.version, 4) + [|t.signatures| % 256];
    ghost var goal := out + WriteMany(t.signatures, WriteRaw);
    assert t.signatures[0..] == t.signatures;
    for k := 0 to |t.signatures|
      invariant Extends(out, t.signatures, WriteRaw, k, goal)
    {
      Extended(out, t.signatures, WriteRaw, k, goal);
      out := out + t.signatures[k];
    }
    assert out + [] == out;
    var message := SerializeMessage(t.message);
    out := out + message;
  }

  method SignaturesFromSlice(data: Bytes, start: nat, n: nat) returns (r: Result<seq<Bytes>>, size: nat)
    requires start <= |data|
    ensures size <= |data|
    ensures match ReadMany(n, ReadSignature, data[start..])
            case Got(xs, rest) => r == Ok(xs) && rest == data[size..]
            case Bad => r == Err(Panic)
  {
    size := start;
    var xs := [];
    ghost var whole := ReadMany(n, ReadSignature, data[start..]);
    StartRead(n, ReadSignature, data[start..]);
    for k := 0 to n
      invariant size <= |data| && Continues(whole, xs, ReadMany(n - k, ReadSignature, data[size..]))
    {
      NextRead(whole, xs, n - k, ReadSignature, data[size..]);
      if size + 64 > |data| {
        return Err(Panic), size;
      }
      assert data[size..][..64] == data[size..size + 64] && data[size..][64..] == data[size + 64..];
      xs := xs + [data[size..size + 64]];
      size := size + 64;
    }
    AllRead(whole, xs, ReadSignature, data[size..]);
    r := Ok(xs);
  }

  method RuntimeFromSlice(data: Bytes) returns (r: Result<RuntimeTransaction>)
    ensures r == Parsed(ReadRuntime(data))
  {
    if |data| <= 4 {
      return Err(Panic);
    }
    assert data[4..][0] == data[4] && data[4..][1..] == data[5..];
    if |data| == 5 {
      // The capacity of the signature list is read from behind the count.
      assert ReadRuntime(data) == Bad by {
        assert data[5..] == [];
      }
      return Err(Panic);
    }
    var signatures, size := SignaturesFromSlice(data, 5, data[4]);
    if signatures.Err? {
      return Err(Panic);
    }
    var message := MessageFromSlice(data[size..]);
    if message.Err? {
      return Err(Panic);
    }
    PowValues();
    return Ok(RuntimeTransaction(FromLE(data[..4]), signatures.value, message.value));
  }

  // ---------------------------------------------------------------------------
  // Processed transactions
  // ---------------------------------------------------------------------------

  method ToVecTags(tags: seq<Bytes>) returns (r: Option<Bytes>)
    ensures r == WriteTags(tags)
  {
    var out: Bytes := [];
    assert tags[0..] == tags;
    assert WriteTags(tags).Some? ==> [] + WriteTags(tags).value == WriteTags(tags).value;
    for k := 0 to |tags|
      invariant TagsExtend(out, tags, k)
    {
      assert tags[k..][1..] == tags[k + 1..];
      var b := HexDecode(tags[k]);
      if b.None? {
        return None;
      }
      if WriteTags(tags[k + 1..]).Some? {
        assert out + (b.value + WriteTags(tags[k + 1..]).value) == out + b.value + WriteTags(tags[k + 1..]).value;
      }
      out := out + b.value;
    }
    assert out + [] == out;
    return Some(out);
  }

  predicate TagsExtend(out: Bytes, tags: seq<Bytes>, k: nat)
    requires k <= |tags|
  {
    WriteTags(tags) == if WriteTags(tags[k..]).None? then None else Some(out + WriteTags(tags[k..]).value)
  }

  method ProcessedToVec(t: ProcessedTransaction) returns (r: Option<Bytes>)
    ensures r == ToVec(t)
  {
    var runtime := SerializeRuntime(t.runtime);
    var out := ToLE(|runtime|, 8) + runtime;
    var txid := WriteTxid(t.bitcoinTxid);
    if txid.None? {
      return None;
    }
    out := out + txid.value;
    out := out + ToLE(|t.accountsTags|, 8);
    var tags := ToVecTags(t.accountsTags);
    if tags.None? {
      return None;
    }
    out := out + tags.value;
    out := out + WriteStatus(t.status);
    Regrouped(ToLE(|runtime|, 8), runtime, txid.value, ToLE(|t.accountsTags|, 8), tags.value, WriteStatus(t.status));
    return Some(out);
  }

  method IdsFromSlice(data: Bytes, start: nat, n: nat) returns (r: Result<seq<Bytes>>, size: nat)
    requires start <= |data|
    ensures size <= |data|
    ensures match ReadMany(n, ReadId, data[start..])
            case Got(xs, rest) => r == Ok(xs) && rest == data[size..]
            case Bad => r == Err(Panic)
  {
    size := start;
    var xs := [];
    ghost var whole := ReadMany(n, ReadId, data[start..]);
    StartRead(n, ReadId, data[start..]);
    for k := 0 to n
      invariant size <= |data| && Continues(whole, xs, ReadMany(n - k, ReadId, data[size..]))
    {
      NextRead(whole, xs, n - k, ReadId, data[size..]);
      if size + 32 > |data| {
        return Err(Panic), size;
      }
      assert data[size..][..32] == data[size..size + 32] && data[size..][32..] == data[size + 32..];
      xs := xs + [HexEncode(data[size..size + 32])];
      size := size + 32;
    }
    AllRead(whole, xs, ReadId, data[size..]);
    r := Ok(xs);
  }

  /** The optional id at the cursor. */
  method TxidFromSlice(data: Bytes, start: nat) returns (r: Result<Option<Bytes>>, size: nat)
    requires start <= |data|
    ensures size <= |data|
    ensures match ReadTxid(data[start..])
            case Got(id, rest) => r == Ok(id) && rest == data[size..]
            case Bad => r == Err(Panic)
  {
    size := start;
    if size >= |data| {
      return Err(Panic), size;
    }
    assert data[size..][1..] == data[size + 1..];
    if data[size] == 1 {
      size := size + 1;
      if size + 32 > |data| {
        return Err(Panic), size;
      }
      assert data[size..][..32] == data[size..size + 32] && data[size..][32..] == data[size + 32..];
      r := Ok(Some(HexEncode(data[size..size + 32])));
      size := size + 32;
    } else {
      size := size + 1;
      r := Ok(None);
    }
  }

  method StatusFromSlice(data: Bytes, start: nat) returns (r: Result<Status>)
    requires start <= |data|
    ensures r == Parsed(ReadStatus(data[start..]))
  {
    if start >= |data| {
      return Err(Panic);
    }
    var size := start + 1;
    assert data[start..][1..] == data[size..];
    if data[start] == 0 {
      return Ok(Processing);
    } else if data[start] == 1 {
      return Ok(Processed);
    } else if data[start] != 2 || size + 8 > |data| {
      return Err(Panic);
    }
    PowValues();
    var len := FromLE(data[size..size + 8]);
    assert data[size..][..8] == data[size..size + 8] && data[size..][8..] == data[size + 8..];
    size := size + 8;
    if size + len > |data| {
      return Err(Panic);
    }
    assert data[size..][..len] == data[size..size + len];
    return Ok(Failed(data[size..size + len]));
  }

  method ProcessedFromVec(data: Bytes) returns (r: Result<ProcessedTransaction>)
    ensures r == Parsed(FromVec(data))
  {
    if |data| < 8 {
      return Err(Panic);
    }
    PowValues();
    var len := FromLE(data[..8]);
    if 8 + len > |data| {
      return Err(Panic);
    }
    assert data[8..][..len] == data[8..8 + len] && data[8..][len..] == data[8 + len..];
    var runtime := RuntimeFromSlice(data[8..8 + len]);
    if runtime.Err? {
      return Err(Panic);
    }
    r := RestFromVec(data, 8 + len, runtime.value);
  }

  method RestFromVec(data: Bytes, start: nat, runtime: RuntimeTransaction) returns (r: Result<ProcessedTransaction>)
    requires start <= |data|
    ensures r == Parsed(ReadBehind(data[start..], runtime))
  {
    var txid, size := TxidFromSlice(data, start);
    if txid.Err? || size + 8 > |data| {
      return Err(Panic);
    }
    PowValues();
    var n := FromLE(data[size..size + 8]);
    assert data[size..][..8] == data[size..size + 8] && data[size..][8..] == data[size + 8..];
    var tags, end := IdsFromSlice(data, size + 8, n);
    if tags.Err? {
      return Err(Panic);
    }
    var status := StatusFromSlice(data, end);
    if status.Err? {
      return Err(Panic);
    }
    return Ok(ProcessedTransaction(runtime, status.value, txid.value, tags.value));
  }

  /** Storing a transaction and loading it: it comes back if it is canonical, and
      otherwise something else comes back, or nothing. */
  method StoreAndLoad(t: ProcessedTransaction) returns (same: bool)
    ensures same <==> Canonical(t)
  {
    NodeCodec.RoundTripIff(t);
    var stored := ProcessedToVec(t);
    if stored.None? {
      return false;
    }
    var loaded := ProcessedFromVec(stored.value);
    return loaded == Ok(t);
  }
}
