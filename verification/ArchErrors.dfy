/** Which error an instruction of the Arch program fails with: the one of the first
    thing that is wrong with it. */
module ArchErrors {
  import opened Machine
  import opened Wrappers
  import opened ArchTypes
  import opened ArchCodec
  import opened ArchLedger
  import opened ArchChecks
  import opened ArchOutcomes
  import opened ArchReports

  // ---------------------------------------------------------------------------
  // Wallets
  // ---------------------------------------------------------------------------

  lemma DebitErrors(t: TokenState, i: nat, amount: u64)
    ensures Debit(t, i, amount) == Err(Panic) <==> i >= |t.slots|
    ensures Debit(t, i, amount) == Err(Custom(603)) <==> i < |t.slots| && amount > SlotAmount(t, i)
    ensures Debit(t, i, amount).Ok? <==> i < |t.slots| && amount <= SlotAmount(t, i)
  {
  }

  lemma AddressErrors(env: Env, a: Bytes, network: Network, strict: bool)
    ensures var r := ValidAddress(env, a, network, strict);
            && (r == Err(Custom(612)) <==> !env.parses(a))
            && (r == Err(Custom(616))
                <==> env.parses(a) && (strict || network == Bitcoin) && !env.onNetwork(a, network))
            && (r.Err? ==> r == Err(Custom(612)) || r == Err(Custom(616)))
  {
  }

  lemma SetAddressErrors(t: TokenState, i: nat, a: Bytes)
    ensures SetAddress(t, i, a) == Err(Custom(614)) <==> |a| >= 92
    ensures SetAddress(t, i, a) == Err(Panic) <==> |a| < 92 && i >= |t.slots|
    ensures SetAddress(t, i, a).Ok? ==>
              SetAddress(t, i, a).value == t.(slots := t.slots[i := Slot(a, t.slots[i].amount)])
  {
  }

  /** What is wrong with how an adjustment names its wallet. */
  function Misnamed(t: TokenState, a: AddressIndex): Option<Error> {
    if a.index >= t.count then Some(Custom(601))
    else if a.index >= |t.slots| || |AddressIn(t, a.index)| < 4 then Some(Panic)
    else if !EndsIn(AddressIn(t, a.index), a.last4) then Some(Custom(615))
    else None
  }

  lemma AdjustOneFails(t: TokenState, a: Adjustment, increment: bool)
    ensures AdjustOne(t, a, increment).Err?
        <==> Misnamed(t, a.address).Some? || (!increment && a.amount > SlotAmount(t, a.address.index))
    ensures AdjustOne(t, a, increment).Err? ==>
              AdjustOne(t, a, increment).error
              == if Misnamed(t, a.address).Some? then Misnamed(t, a.address).value else Custom(603)
  {
    ValidatedIndexIff(t, a.address);
  }

  /** A list of adjustments fails with the error of the first one that cannot be made:
      its wallet is misnamed, or what is there by then does not cover it. */
  lemma {:induction false} AdjustFails(t: TokenState, adjs: seq<Adjustment>, increment: bool) returns (n: nat)
    requires Adjust(t, adjs, increment).Err?
    ensures n < |adjs| && Adjust(t, adjs[..n], increment).Ok?
    ensures var a, t1 := adjs[n], Adjust(t, adjs[..n], increment).value;
            && (Misnamed(t, a.address).Some? || (!increment && a.amount > SlotAmount(t1, a.address.index)))
            && Adjust(t, adjs, increment).error
               == if Misnamed(t, a.address).Some? then Misnamed(t, a.address).value else Custom(603)
    decreases |adjs|
  {
    AdjustOneFails(t, adjs[0], increment);
    n := 0;
    if AdjustOne(t, adjs[0], increment).Ok? {
      var t1 := AdjustOne(t, adjs[0], increment).value;
      n := AdjustFails(t1, adjs[1..], increment);
      SameMisnamed(t, t1, adjs[1..][n].address);
      n := n + 1;
      assert adjs[..n][1..] == adjs[1..][..n - 1] && adjs[..n][0] == adjs[0];
    }
  }

  lemma SameMisnamed(t: TokenState, t': TokenState, a: AddressIndex)
    requires SameNames(t, t')
    ensures Misnamed(t', a) == Misnamed(t, a)
  {
  }

  // ---------------------------------------------------------------------------
  // Setting up
  // ---------------------------------------------------------------------------

  /** With the accounts as they should be. */
  lemma SetUpErrors(env: Env, w: World, metas: seq<Meta>, id: Bytes)
    requires ExpectProgram(w, metas, false, None).Ok?
    ensures ExpectEmpty(w, metas, 1, false, true).Ok? && InitToken(env, w, metas, id).Err? ==>
              InitToken(env, w, metas, id) == Err(Custom(614))
    ensures ExpectToken(w, metas, 1, true).Ok? ==>
              && (SetRuneId(env, w, metas, id) == Err(Custom(624)) <==> env.rune(id).None?)
              && (SetRuneId(env, w, metas, id) == Err(Custom(614)) <==> env.rune(id).Some? && |id| >= 32)
  {
  }

  /** A new exchange with an address that is none, or of another network. */
  lemma NewExchangeErrors(env: Env, w: World, metas: seq<Meta>, fee: Bytes, change: Bytes, network: Network)
    requires ExpectEmpty(w, metas, 0, true, true).Ok? && ExpectEmpty(w, metas, 1, false, true).Ok? && |metas| == 2
    ensures var r := InitProgram(env, w, metas, fee, change, network);
            var wrong := !env.parses(change) || (env.onNetwork(change, network) && !env.parses(fee));
            && (r == Err(Custom(612)) <==> wrong)
            && (r == Err(Custom(616)) <==>
                  !wrong && (!env.onNetwork(change, network) || !env.onNetwork(fee, network)))
  {
  }

  // ---------------------------------------------------------------------------
  // Settlement
  // ---------------------------------------------------------------------------

  /** The report holds 100 events. */
  lemma FullReport(p: ProgramState, e: Event)
    ensures EmitEvent(p, e) == Err(Custom(614)) <==> |p.events| == 100
    ensures EmitEvent(p, e).Ok? <==> |p.events| != 100
  {
  }

  lemma PrepareSettlementErrors(env: Env, w: World, metas: seq<Meta>, ss: seq<Settlement>, raw: Bytes)
    ensures var r, program := PrepareSettlement(env, w, metas, ss, raw), ExpectProgram(w, metas, true, None);
            && (program.Err? ==> r == Err(program.error))
            && (program.Ok? && program.value.settlementHash != EMPTY_HASH ==> r == Err(Custom(605)))
            && (program.Ok? && program.value.settlementHash == EMPTY_HASH ==>
                  SettlementNames(w, metas, ss) && |Uncovered(w, metas, ss)| <= 100 && !NetsModulo(ss) ==>
                    r == Err(Custom(608)))
  {
    var program := ExpectProgram(w, metas, true, None);
    if program.Ok? {
      VerifiedZeroIff(w, metas, ss, ClearEvents(program.value));
      VerifySettlementsIff(w, metas, ss, Netting(0, ClearEvents(program.value)));
      PrepareNets(env, w, metas, ss, raw);
    }
  }

  lemma PrepareNets(env: Env, w: World, metas: seq<Meta>, ss: seq<Settlement>, raw: Bytes)
    ensures var r, program := PrepareSettlement(env, w, metas, ss, raw), ExpectProgram(w, metas, true, None);
            program.Ok? && program.value.settlementHash == EMPTY_HASH ==>
              var n := VerifySettlements(w, metas, ss, Netting(0, ClearEvents(program.value)));
              n.Ok? && n.value.total != 0 ==> r == Err(Custom(608))
  {
  }

  lemma SubmitSettlementErrors(env: Env, w: World, metas: seq<Meta>, ss: seq<Settlement>, raw: Bytes)
    ensures var r, program := SubmitSettlement(env, w, metas, ss, raw), ExpectProgram(w, metas, true, None);
            && (program.Err? ==> r == Err(program.error))
            && (program.Ok? && program.value.settlementHash == EMPTY_HASH ==> r == Err(Custom(606)))
            && (program.Ok? && program.value.settlementHash != EMPTY_HASH ==>
                  program.value.settlementHash != env.sha(raw) ==> r == Err(Custom(607)))
  {
  }

  // ---------------------------------------------------------------------------
  // Withdrawals
  // ---------------------------------------------------------------------------

  /** With the accounts as they should be: the sessions, then the funding transaction. */
  lemma CheckWithdrawErrors(env: Env, w: World, metas: seq<Meta>, b: WithdrawBatch)
    requires ExpectProgram(w, metas, true, Some(1)).Ok? && ExpectWithdraw(w, metas, false).Ok?
    requires ReceiverListed(w, metas, false)
    ensures var r, tx := CheckWithdraw(env, w, metas, b), env.fundingTx(b.tx);
            if At(w, metas[0].key).p.settlementHash != EMPTY_HASH then r == Err(Custom(605))
            else if At(w, metas[1].key).hash != EMPTY_HASH then r == Err(Custom(618))
            else if tx.None? then r == Err(Custom(617))
            else if tx.value.outputs > 0 then r == Err(Custom(611))
            else if |tx.value.inputs| != |b.inputTypes| then r == Err(Custom(622))
            else r == VerifyWithdrawals(env, w, metas, b.tokens, At(w, metas[0].key).p.network,
                                        ClearEvents(At(w, metas[0].key).p))
  {
    HasReceiverIff(w, metas, false);
  }

  /** An entry whose wallet may be used, but whose fee account or fee wallet may not. */
  lemma VerifyOneErrors(env: Env, w: World, metas: seq<Meta>, account: u8, t: TokenState, d: Withdrawal,
                        network: Network)
    requires Usable(env, t, d.address, network)
    ensures var r, f := VerifyOne(env, w, metas, account, t, d, network), ExpectToken(w, metas, d.feeAccount, true);
            && (f.Err? ==> r == Err(f.error))
            && (f.Ok? && !Usable(env, f.value, d.feeAddress, network) ==>
                  r.Err? && (r.error == Panic || Some(r.error) == Coded(Problem(env, f.value, d.feeAddress, network))))
  {
    UsableIff(env, t, d.address, network);
    if ExpectToken(w, metas, d.feeAccount, true).Ok? {
      UsableIff(env, ExpectToken(w, metas, d.feeAccount, true).value, d.feeAddress, network);
    }
  }

  function Coded(code: Option<nat>): Option<Error> {
    if code.Some? then Some(Custom(code.value)) else None
  }

  /** Whatever fails the check, or the draft, fails the prepare. */
  lemma PrepareWithdrawErrors(env: Env, w: World, metas: seq<Meta>, b: WithdrawBatch, raw: Bytes)
    ensures var r, c := PrepareWithdraw(env, w, metas, b, raw), CheckWithdraw(env, w, metas, b);
            && (c.Err? ==> r == Err(c.error))
            && (c.Ok? && r.Err? ==>
                  var x := DraftWithdraw(env, w[metas[0].key := Program(c.value)], metas, b, c.value);
                  c.value.events == [] && x.Err? && r.error == x.error)
  {
  }

  /** A fee whose home is at another address, and a fee that is not there. */
  lemma FeeErrors(w: World, metas: seq<Meta>, account: u8, d: Withdrawal, feeAddress: Bytes)
    requires d.feeAmount > 0 && d.feeAccount as nat < |metas| && At(w, metas[d.feeAccount].key).Token?
    requires |At(w, metas[d.feeAccount].key).t.slots| > 0
    ensures ChargeFee(w, metas, account, d, feeAddress) == Err(Custom(604))
        <==> AddressIn(At(w, metas[d.feeAccount].key).t, 0) != feeAddress
    ensures ExpectToken(w, metas, d.feeAccount, true).Ok? ==>
              (RefundFee(w, metas, account, d, feeAddress) == Err(Custom(604))
               <==> AddressIn(At(w, metas[d.feeAccount].key).t, 0) != feeAddress)
  {
  }

  /** A draft without outputs, or with runes and no receiver. */
  lemma DraftErrors(env: Env, w: World, metas: seq<Meta>, b: WithdrawBatch, p: ProgramState)
    requires 0 < |metas| && ReceiverListed(w, metas, false)
    ensures var x := PrepareAll(env, Draft(w, NO_PAYOUT), metas, b.tokens, UpToNul(p.feeAccount), p.network);
            var r := DraftWithdraw(env, w, metas, b, p);
            && (x.Err? ==> r == Err(x.error))
            && (x.Ok? && x.value.o.edicts != [] && !At(w, metas[2].key).RuneReceiver? ==> r == Err(Custom(622)))
            && (x.Ok? && x.value.o.edicts == [] && x.value.o.outputs == [] ==> r == Err(Custom(620)))
  {
    HasReceiverIff(w, metas, false);
  }

  /** A submit of bytes other than those that were prepared, and one that is stopped
      while it is built. */
  lemma SubmitWithdrawErrors(env: Env, w: World, metas: seq<Meta>, programId: Key, b: WithdrawBatch, raw: Bytes)
    requires ExpectProgram(w, metas, false, Some(1)).Ok? && ExpectWithdraw(w, metas, true).Ok?
    requires ReceiverListed(w, metas, true)
    ensures var r := SubmitWithdraw(env, w, metas, programId, b, raw);
            && (At(w, metas[1].key).hash != env.sha(raw) ==> r == Err(Custom(619)))
            && (At(w, metas[1].key).hash == env.sha(raw) && env.fundingTx(b.tx).None? ==> r == Err(Custom(617)))
  {
    HasReceiverIff(w, metas, true);
  }

  /** Bytes that do not decode are refused as such; any other ones are performed. */
  lemma ProcessErrors(env: Env, w: World, metas: seq<Meta>, programId: Key, data: Bytes)
    ensures Read(data).Bad? ==> Process(env, w, metas, programId, data) == Err(InvalidInstructionData)
    ensures Read(data).Got? ==>
              Process(env, w, metas, programId, data)
              == Perform(env, w, metas, programId, Read(data).value, data[1..])
  {
  }
}
