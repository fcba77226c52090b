/** The storage format of the node, byte by byte: where each field is. */
module NodeFormat {
  import opened Machine
  import opened Wrappers
  import opened ArchCodec
  import opened NodeCodec

  /** The key, then whether it signs, then whether it is writable. */
  lemma MetaFormat(m: AccountMeta)
    ensures var s := WriteMeta(m);
            && |s| == 34 && s[..32] == m.pubkey
            && s[32] == (if m.isSigner then 1 else 0) && s[33] == (if m.isWritable then 1 else 0)
  {
  }

  /** The program, a count byte and the metas, an 8-byte length and the data. */
  lemma InstructionFormat(i: Instruction)
    ensures var s := WriteInstruction(i); var n := 33 + |WriteMany(i.accounts, WriteMeta)|;
            && |s| == n + 8 + |i.data| && s[..32] == i.programId && s[32] == |i.accounts| % 256
            && s[33..n] == WriteMany(i.accounts, WriteMeta) && s[n..n + 8] == ToLE(|i.data|, 8) && s[n + 8..] == i.data
  {
  }

  /** A count byte and the signers, a count byte and the instructions. */
  lemma MessageFormat(m: Message)
    ensures var s := WriteMessage(m); var n := 1 + |WriteMany(m.signers, WriteKey)|;
            && n < |s| && s[0] == |m.signers| % 256 && s[1..n] == WriteMany(m.signers, WriteKey)
            && s[n] == |m.instructions| % 256 && s[n + 1..] == WriteMany(m.instructions, WriteInstruction)
  {
  }

  /** The version, a count byte and the signatures, the message. */
  lemma RuntimeFormat(t: RuntimeTransaction)
    ensures var s := WriteRuntime(t); var n := 5 + |WriteMany(t.signatures, WriteRaw)|;
            && n <= |s| && s[..4] == ToLE(t.version, 4) && s[4] == |t.signatures| % 256
            && s[5..n] == WriteMany(t.signatures, WriteRaw) && s[n..] == WriteMessage(t.message)
  {
  }

  /** An 8-byte length and the runtime transaction; the optional id; an 8-byte count and
      the tags; the status. */
  lemma StoredFormat(t: ProcessedTransaction)
    requires ToVec(t).Some?
    ensures WriteTxid(t.bitcoinTxid).Some? && WriteTags(t.accountsTags).Some?
    ensures var s, runtime, id, tags :=
                ToVec(t).value, WriteRuntime(t.runtime), WriteTxid(t.bitcoinTxid).value,
                    WriteTags(t.accountsTags).value;
            var n := 8 + |runtime|; var m := n + |id|;
            && m + 8 + |tags| <= |s| && s[..8] == ToLE(|runtime|, 8) && s[8..n] == runtime && s[n..m] == id
            && s[m..m + 8] == ToLE(|t.accountsTags|, 8) && s[m + 8..m + 8 + |tags|] == tags
            && s[m + 8 + |tags|..] == WriteStatus(t.status)
  {
    var runtime, id, tags := WriteRuntime(t.runtime), WriteTxid(t.bitcoinTxid).value, WriteTags(t.accountsTags).value;
    assert ToVec(t).value == StoredBytes(ToLE(|runtime|, 8), runtime, id, ToLE(|t.accountsTags|, 8), tags,
                                         WriteStatus(t.status));
    StoredParts(ToLE(|runtime|, 8), runtime, id, ToLE(|t.accountsTags|, 8), tags, WriteStatus(t.status));
  }

  function StoredBytes(a: Bytes, runtime: Bytes, id: Bytes, b: Bytes, tags: Bytes, status: Bytes): Bytes {
    a + (runtime + (id + (b + (tags + status))))
  }

  lemma StoredParts(a: Bytes, runtime: Bytes, id: Bytes, b: Bytes, tags: Bytes, status: Bytes)
    requires |a| == 8 && |b| == 8
    ensures var s := StoredBytes(a, runtime, id, b, tags, status); var n := 8 + |runtime|; var m := n + |id|;
            && |s| == m + 8 + |tags| + |status| && s[..8] == a && s[8..n] == runtime && s[n..m] == id
            && s[m..m + 8] == b && s[m + 8..m + 8 + |tags|] == tags && s[m + 8 + |tags|..] == status
  {
    var s1 := runtime + (id + (b + (tags + status)));
    var s2 := id + (b + (tags + status));
    assert s1[|runtime|..] == s2 && s2[|id|..] == b + (tags + status);
  }

  /** An absent id is a 0, a present one a 1 and its 32 bytes; a status is 0, 1, or 2 with
      the length and the text of the error. */
  lemma SmallFormats()
    ensures WriteTxid(None) == Some([0]) && WriteStatus(Processing) == [0] && WriteStatus(Processed) == [1]
    ensures forall error: Bytes :: WriteStatus(Failed(error)) == [2] + (ToLE(|error|, 8) + error)
    ensures forall id: Bytes :: HexDecode(id).Some? ==> WriteTxid(Some(id)) == Some([1] + HexDecode(id).value)
  {
  }

  /** Hexadecimal: the high digit comes first. */
  lemma HighDigitFirst()
    ensures var byte: Bytes := [0x1f]; var lower: Bytes := [49, 102]; var upper: Bytes := [49, 70];
            && HexEncode(byte) == lower && HexDecode(lower) == Some(byte) && HexDecode(upper) == Some(byte)
  {
    var none: Bytes := [];
    var byte: Bytes := [0x1f];
    var lower: Bytes := [49, 102];
    var upper: Bytes := [49, 70];
    assert byte[1..] == none && lower[2..] == none && upper[2..] == none;
    assert HexDecode(none) == Some(none) && HexEncode(none) == none;
    assert HexValue(49) == Some(1) && HexValue(102) == Some(15) == HexValue(70);
    assert [31] + none == byte;
    assert [HexDigit(1), HexDigit(15)] + none == lower;
  }
}
