/** The wire format of instructions and events, byte by byte: where each field is. */
module ArchFormat {
  import opened Machine
  import opened ArchTypes
  import opened ArchCodec
  import opened ArchLedger

  /** Field by field: the index at 0, the last four bytes at 4, the amount at 8. */
  lemma AdjustmentFormat(a: Adjustment)
    requires AddressFits(a.address)
    ensures var s := WriteAdjustment(a);
            && |s| == 16 && s[..4] == ToLE(a.address.index, 4) && s[4..8] == a.address.last4
            && s[8..] == ToLE(a.amount, 8)
  {
  }

  lemma WithdrawalFormat(w: Withdrawal)
    requires WithdrawalFits(w)
    ensures var s := WriteWithdrawal(w);
            && |s| == 33 && s[..4] == ToLE(w.address.index, 4) && s[4..8] == w.address.last4
            && s[8..16] == ToLE(w.amount, 8) && s[16] == w.feeAccount
            && s[17..21] == ToLE(w.feeAddress.index, 4) && s[21..25] == w.feeAddress.last4
            && s[25..] == ToLE(w.feeAmount, 8)
  {
  }

  /** The elements of a list stand behind one another, in order. */
  lemma {:induction false} ManyFormat<T>(xs: seq<T>, write: T -> Bytes, i: nat)
    requires i < |xs|
    ensures WriteMany(xs, write) == WriteMany(xs[..i], write) + write(xs[i]) + WriteMany(xs[i + 1..], write)
  {
    if i == 0 {
      assert WriteMany(xs[..0], write) == [];
    } else {
      ManyFormat(xs[1..], write, i - 1);
      assert xs[..i][1..] == xs[1..][..i - 1] && xs[1..][i..] == xs[i + 1..];
    }
  }

  /** A list begins with its length in two bytes. */
  lemma VecFormat<T>(xs: seq<T>, write: T -> Bytes)
    ensures WriteVec(xs, write)[..2] == ToLE(|xs|, 2) && WriteVec(xs, write)[2..] == WriteMany(xs, write)
  {
  }

  lemma StringFormat(s: Bytes)
    ensures WriteString(s)[..2] == ToLE(|s|, 2) && WriteString(s)[2..] == s
  {
  }

  /** The account, then the lists, the increments of a settlement in front of its
      decrements, and its fee behind them. */
  lemma EntryFormat(d: TokenDeposits, w: TokenWithdrawals, x: Settlement, u: TokenSetup)
    ensures WriteTokenDeposits(d)[0] == d.account && WriteTokenDeposits(d)[1..] == WriteVec(d.deposits, WriteAdjustment)
    ensures WriteTokenWithdrawals(w)[0] == w.account
         && WriteTokenWithdrawals(w)[1..] == WriteVec(w.withdrawals, WriteWithdrawal)
    ensures WriteTokenSetup(u)[0] == u.account && WriteTokenSetup(u)[1..] == WriteVec(u.wallets, WriteString)
    ensures var s := WriteSettlement(x);
            var n := 1 + |WriteVec(x.increments, WriteAdjustment)|; var m := n
                + |WriteVec(x.decrements, WriteAdjustment)|;
            && |s| == m + 8 && s[0] == x.account && s[1..n] == WriteVec(x.increments, WriteAdjustment)
            && s[n..m] == WriteVec(x.decrements, WriteAdjustment) && s[m..] == ToLE(x.feeAmount, 8)
  {
  }

  /** Transaction, change amount, token withdrawals, input types. */
  lemma BatchFormat(b: WithdrawBatch)
    ensures var s := WriteWithdrawBatch(b);
            var n := 2 + |b.tx|; var m := n + 8 + |WriteVec(b.tokens, WriteTokenWithdrawals)|;
            && m <= |s| && s[..n] == WriteString(b.tx) && s[n..n + 8] == ToLE(b.changeAmount, 8)
            && s[n + 8..m] == WriteVec(b.tokens, WriteTokenWithdrawals)
            && s[m..] == WriteVec(b.inputTypes, WriteInputType)
  {
  }

  /** The tag of an instruction, and what stands behind it. */
  lemma InstructionFormat(i: Instruction)
    ensures Write(i) != []
    ensures i.InitTokenState? ==> Write(i) == [1] + WriteString(i.tokenId)
    ensures i.InitWalletBalances? ==> Write(i) == [2] + WriteVec(i.setups, WriteTokenSetup)
    ensures i.BatchDeposit? ==> Write(i) == [3] + WriteVec(i.deposits, WriteTokenDeposits)
    ensures i.PrepareBatchWithdraw? ==> Write(i) == [4] + WriteWithdrawBatch(i.batch)
    ensures i.PrepareBatchSettlement? ==> Write(i) == [5] + WriteVec(i.settlements, WriteSettlement)
    ensures i.SubmitBatchSettlement? ==> Write(i) == [6] + WriteVec(i.settlements, WriteSettlement)
    ensures i.RollbackBatchSettlement? ==> Write(i) == [7]
    ensures i.RollbackBatchWithdraw? ==> Write(i) == [8] + WriteVec(i.tokens, WriteTokenWithdrawals)
    ensures i.SubmitBatchWithdraw? ==> Write(i) == [9] + WriteWithdrawBatch(i.batch)
    ensures i.UpdateWithdrawStateUtxo? ==> Write(i) == [10] + (WriteString(i.txId) + ToLE(i.vout, 4))
    ensures i.InitRuneReceiverState? ==> Write(i) == [11]
    ensures i.SetTokenRuneId? ==> Write(i) == [12] + WriteString(i.runeId)
    ensures i.InitProgramState? ==>
              && Write(i)[..|Write(i)| - 1] == [0] + (WriteString(i.feeAccount) + WriteString(i.changeAddress))
              && Write(i)[|Write(i)| - 1] == (match i.network case Bitcoin => 0 case Testnet => 1
                                                             case Signet => 2 case Regtest => 3)
  {
    if i.InitProgramState? {
      var last := [NetworkByte(i.network)];
      var front: Bytes := [0] + (WriteString(i.feeAccount) + WriteString(i.changeAddress));
      assert Write(i) == front + last;
    }
  }

  /** An event fills 64 bytes, with zeros behind its fields. */
  lemma SettlementEventFormat(e: Event)
    requires e.FailedSettlement?
    ensures var s := WriteEvent(e);
            && s[0] == 0 && s[1] == e.account && s[2..6] == ToLE(e.address, 4) && s[6..14] == ToLE(e.requested, 8)
            && s[14..22] == ToLE(e.balance, 8) && s[22..26] == ToLE(e.errorCode, 4) && s[26..] == Zeros(38)
  {
    var head := [0, e.account] + ToLE(e.address, 4) + ToLE(e.requested, 8) + ToLE(e.balance, 8) + ToLE(e.errorCode, 4);
    assert WriteEvent(e) == head + Zeros(38);
  }

  lemma WithdrawalEventFormat(e: Event)
    requires e.FailedWithdrawal?
    ensures var s := WriteEvent(e);
            && s[0] == 1 && s[1] == e.account && s[2..6] == ToLE(e.address, 4) && s[6] == e.feeAccount
            && s[7..11] == ToLE(e.feeAddress, 4) && s[11..19] == ToLE(e.requested, 8)
            && s[19..27] == ToLE(e.fee, 8) && s[27..35] == ToLE(e.balance, 8)
            && s[35..43] == ToLE(e.feeBalance, 8) && s[43..47] == ToLE(e.errorCode, 4) && s[47..] == Zeros(17)
  {
    var head := [1, e.account] + ToLE(e.address, 4) + [e.feeAccount] + ToLE(e.feeAddress, 4);
    var amounts := ToLE(e.requested, 8) + ToLE(e.fee, 8) + ToLE(e.balance, 8) + ToLE(e.feeBalance, 8);
    var tail := ToLE(e.errorCode, 4) + Zeros(17);
    assert WriteEvent(e) == head + (amounts + tail);
    FieldsBehind(head, amounts, tail);
    assert amounts[..8] == ToLE(e.requested, 8) && amounts[8..16] == ToLE(e.fee, 8);
    assert amounts[16..24] == ToLE(e.balance, 8) && amounts[24..] == ToLE(e.feeBalance, 8);
  }

  lemma FieldsBehind(head: Bytes, amounts: Bytes, tail: Bytes)
    requires |head| == 11 && |amounts| == 32
    ensures var s := head + (amounts + tail);
            && s[..11] == head && s[11..19] == amounts[..8] && s[19..27] == amounts[8..16]
            && s[27..35] == amounts[16..24] && s[35..43] == amounts[24..] && s[43..] == tail
  {
  }

  /** The low byte comes first. */
  lemma LittleEndian()
    ensures ToLE(0x04030201, 4) == [1, 2, 3, 4] && ToLE(0x0201, 2) == [1, 2]
  {
  }
}
