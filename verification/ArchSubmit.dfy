/** The transaction that a submitted withdrawal batch asks to be signed. */
module ArchSubmit {
  import opened Machine
  import opened ArchTypes
  import opened ArchLedger
  import opened ArchFrames
  import opened ArchReports
  import opened ArchInvariants
  import opened ArchMoney
  import opened ArchSessions
  import opened ArchWithdrawal
  import opened ArchRollback
  import opened ArchPayout

  // ---------------------------------------------------------------------------
  // Token ids over a run
  // ---------------------------------------------------------------------------

  /** Token accounts keep their ids. */
  ghost predicate IdsKept(w: World, w': World) {
    forall k: Key {:trigger At(w', k)} ::
        At(w, k).Token? ==> At(w', k).Token? && At(w', k).t.tokenId == At(w, k).t.tokenId
  }

  lemma AmountsKeepIds(w: World, w': World, owner: Key)
    requires AmountsOnly(w, w', owner)
    ensures IdsKept(w, w')
  {
  }

  lemma StoreKeepsIds(w: World, w1: World, w2: World, k: Key, a: Account)
    requires IdsKept(w, w1) && w2 == w1[k := a] && !At(w1, k).Token?
    ensures IdsKept(w, w2)
  {
    forall j: Key | At(w, j).Token? ensures At(w2, j).Token? && At(w2, j).t.tokenId == At(w, j).t.tokenId {
      assert At(w1, j).Token?;
    }
  }

  lemma {:induction false} SetUpKeepsIds(env: Env, original: World, w: World, metas: seq<Meta>,
                                         setups: seq<TokenSetup>, network: Network)
    requires SetUpTokens(env, original, w, metas, setups, network).Ok?
    ensures IdsKept(w, SetUpTokens(env, original, w, metas, setups, network).value)
    decreases |setups|
  {
    if setups != [] {
      var t := ExpectToken(w, metas, setups[0].account, true).value;
      var key := metas[setups[0].account].key;
      var size := SizeOf(At(original, key));
      SetAddressesFrame(env, Grow(t, size, |setups[0].wallets|), t.count, setups[0].wallets, network);
      var t' := AddWallets(env, t, size, setups[0].wallets, network).value;
      SetUpKeepsIds(env, original, w[key := Token(t')], metas, setups[1..], network);
    }
  }

  lemma PrepareKeepsIds(env: Env, w: World, metas: seq<Meta>, b: WithdrawBatch, raw: Bytes)
    requires PrepareWithdraw(env, w, metas, b, raw).Ok?
    ensures IdsKept(w, PrepareWithdraw(env, w, metas, b, raw).value)
  {
    var p1 := CheckWithdraw(env, w, metas, b).value;
    CheckWithdrawFrame(env, w, metas, b);
    if p1.events == [] {
      DraftWithdrawFrame(env, w, metas, b, p1);
      var w1 := w[metas[0].key := Program(p1)];
      var w2 := DraftWithdraw(env, w1, metas, b, p1).value.w;
      AmountsKeepIds(w1, w2, metas[0].key);
      assert At(w2, metas[1].key) == At(w1, metas[1].key);
      assert IdsKept(w, w2) by {
        forall j: Key | At(w, j).Token? ensures At(w2, j).Token? && At(w2, j).t.tokenId == At(w, j).t.tokenId {
          assert At(w1, j) == At(w, j);
        }
      }
      StoreKeepsIds(w, w2, w2[metas[1].key := Withdraw(metas[0].key, env.sha(raw))], metas[1].key,
          Withdraw(metas[0].key, env.sha(raw)));
    }
  }

  lemma SettlementKeepsIds(env: Env, w: World, metas: seq<Meta>, ss: seq<Settlement>, raw: Bytes)
    ensures PrepareSettlement(env, w, metas, ss, raw).Ok?
        ==> IdsKept(w, PrepareSettlement(env, w, metas, ss, raw).value)
    ensures SubmitSettlement(env, w, metas, ss, raw).Ok? ==> IdsKept(w, SubmitSettlement(env, w, metas, ss, raw).value)
  {
    if SubmitSettlement(env, w, metas, ss, raw).Ok? {
      SettleAllFrame(w, metas, ss);
      var w1 := SettleAll(w, metas, ss).value;
      var w2 := SubmitSettlement(env, w, metas, ss, raw).value;
      AmountsKeepIds(w, w1, metas[0].key);
      assert At(w1, metas[0].key) == At(w, metas[0].key);
      StoreKeepsIds(w, w1, w2, metas[0].key, w2[metas[0].key]);
    }
  }

  lemma PerformKeepsIds(env: Env, w: World, metas: seq<Meta>, programId: Key, i: Instruction, raw: Bytes)
    requires Perform(env, w, metas, programId, i, raw).Ok? && !i.SetTokenRuneId?
    ensures IdsKept(w, Perform(env, w, metas, programId, i, raw).value)
  {
    match i
    case InitWalletBalances(setups) => SetUpKeepsIds(env, w, w, metas, setups, At(w, metas[0].key).p.network);
    case BatchDeposit(deposits) =>
      DepositFrame(w, metas, deposits);
      AmountsKeepIds(w, DepositAll(w, metas, deposits).value, metas[0].key);
    case PrepareBatchWithdraw(batch) => PrepareKeepsIds(env, w, metas, batch, raw);
    case PrepareBatchSettlement(settlements) => SettlementKeepsIds(env, w, metas, settlements, raw);
    case SubmitBatchSettlement(settlements) => SettlementKeepsIds(env, w, metas, settlements, raw);
    case RollbackBatchWithdraw(tokens) =>
      var fee := UpToNul(At(w, metas[0].key).p.feeAccount);
      RefundAllFrame(w, metas, tokens, fee);
      var w1 := RefundAll(w, metas, tokens, fee).value;
      AmountsKeepIds(w, w1, metas[0].key);
      assert At(w1, metas[1].key) == At(w, metas[1].key);
      StoreKeepsIds(w, w1, w1[metas[1].key := Withdraw(metas[0].key, EMPTY_HASH)], metas[1].key,
          Withdraw(metas[0].key, EMPTY_HASH));
    case _ =>
  }

  /** This transaction gives no token of the instance a rune id. */
  predicate NoRuneChange(tx: Tx, owner: Key) {
    0 < |tx.metas| && tx.metas[0].key == owner && InstructionOf(tx).Some? ==> !InstructionOf(tx).value.SetTokenRuneId?
  }

  lemma StepKeepsId(env: Env, w: World, tx: Tx, k: Key, owner: Key)
    requires Addresses(env) && Good(env, w) && NoRuneChange(tx, owner) && At(w, k).Token? && At(w, k).t.program == owner
    ensures KeepsNames(w, Step(env, w, tx), k)
  {
    StepKept(env, w, tx);
    if Succeeds(env, w, tx) {
      assert MayBecome(k, At(w, k), At(Step(env, w, tx), k), tx.metas[0].key);
      if tx.metas[0].key == owner {
        PerformKeepsIds(env, w, tx.metas, tx.programId, InstructionOf(tx).value, RawOf(tx));
      }
    }
  }

  lemma {:induction false} RunKeepsNames(env: Env, w: World, txs: seq<Tx>, k: Key, owner: Key)
    requires Addresses(env) && Good(env, w) && (forall tx | tx in txs :: NoRuneChange(tx, owner))
    requires At(w, k).Token? && At(w, k).t.program == owner
    ensures KeepsNames(w, Run(env, w, txs), k)
  {
    if txs != [] {
      var front, last := txs[..|txs| - 1], txs[|txs| - 1];
      assert last in txs && forall tx | tx in front :: tx in txs;
      RunKeepsNames(env, w, front, k, owner);
      RunGood(env, w, front);
      StepKeepsId(env, Run(env, w, front), last, k, owner);
    }
  }

  // ---------------------------------------------------------------------------
  // A batch pays out exactly what it debited
  // ---------------------------------------------------------------------------

  /** The lines of a batch as it stands in some state. */
  function BatchLines(env: Env, w: World, metas: seq<Meta>, b: WithdrawBatch): seq<Line> {
    if 0 < |metas| && At(w, metas[0].key).Program? then Lines(env, w, metas, b.tokens, At(w, metas[0].key).p.network)
        else []
  }

  lemma PayableAssigned(env: Env, w: World, metas: seq<Meta>, b: WithdrawBatch, raw: Bytes)
    requires PrepareWithdraw(env, w, metas, b, raw).Ok? && NothingToReport(env, w, metas, b)
    ensures WalletsAssigned(w, metas, b.tokens)
  {
    PreparedEntries(env, w, metas, b, raw);
    forall x | x in b.tokens
      ensures At(w, KeyAt(metas, x.account)).Token?
      ensures forall d | d in x.withdrawals ::
        d.address.index < At(w, KeyAt(metas, x.account)).t.count
            && d.address.index < |At(w, KeyAt(metas, x.account)).t.slots|
    {
      assert AllPayable(env, w, metas, x, At(w, metas[0].key).p.network);
    }
  }

  /** What prepare takes from each account, and what the batch's lines pay on its
      behalf, outputs for a coin and edict amounts for a rune: they differ by exactly
      what the account's entries overpay. */
  lemma PrepareDebitsLines(env: Env, w: World, metas: seq<Meta>, b: WithdrawBatch, raw: Bytes, k: Key)
    requires PrepareWithdraw(env, w, metas, b, raw).Ok? && NothingToReport(env, w, metas, b)
    requires MoneyIn(k, At(w, k)) + Rises(metas, Entries(b.tokens), k) < U64
    ensures MoneyIn(k, At(PrepareWithdraw(env, w, metas, b, raw).value, k)) + PaidFor(BatchLines(env, w, metas, b), k)
        == MoneyIn(k, At(w, k)) + Overpaid(metas, Entries(b.tokens), k, RuneAt(env, w, k))
  {
    var p1 := CheckWithdraw(env, w, metas, b).value;
    CheckWithdrawFrame(env, w, metas, b);
    PayableAssigned(env, w, metas, b, raw);
    var w1 := w[metas[0].key := Program(p1)];
    ProgramStepFrame(w, w1, metas, b.tokens);
    LinesSameTokens(env, w, w1, metas, b.tokens, p1.network);
    DraftWithdrawFrame(env, w, metas, b, p1);
    var x := DraftWithdraw(env, w1, metas, b, p1).value;
    assert At(x.w, metas[1].key) == At(w1, metas[1].key);
    DraftPays(env, w1, metas, b, p1, k);
  }

  lemma DraftPays(env: Env, w1: World, metas: seq<Meta>, b: WithdrawBatch, p1: ProgramState, k: Key)
    requires 0 < |metas| && BoundBatch(w1, metas, b.tokens, metas[0].key) && WalletsAssigned(w1, metas, b.tokens)
    requires DraftWithdraw(env, w1, metas, b, p1).Ok?
    requires MoneyIn(k, At(w1, k)) + Rises(metas, Entries(b.tokens), k) < U64
    ensures MoneyIn(k, At(DraftWithdraw(env, w1, metas, b, p1).value.w, k))
          + PaidFor(Lines(env, w1, metas, b.tokens, p1.network), k)
         == MoneyIn(k, At(w1, k)) + Overpaid(metas, Entries(b.tokens), k, RuneAt(env, w1, k))
  {
    PrepareAllPays(env, Draft(w1, NO_PAYOUT), metas, b.tokens, UpToNul(p1.feeAccount), p1.network, metas[0].key, k);
  }

  /** Changing accounts other than tokens changes no line. */
  lemma LinesSameTokens(env: Env, w: World, w': World, metas: seq<Meta>, tokens: seq<TokenWithdrawals>,
                        network: Network)
    requires WalletsAssigned(w, metas, tokens)
    requires forall k: Key :: At(w, k).Token? ==> At(w', k) == At(w, k)
    ensures Lines(env, w', metas, tokens, network) == Lines(env, w, metas, tokens, network)
    ensures WalletsAssigned(w', metas, tokens)
  {
    LinesSame(env, w, w', metas, metas, tokens, network);
  }

  /** The payout drafted at prepare is the batch's lines, from the first output on. */
  lemma DraftIsLines(env: Env, w: World, metas: seq<Meta>, b: WithdrawBatch, raw: Bytes)
    requires PrepareWithdraw(env, w, metas, b, raw).Ok? && NothingToReport(env, w, metas, b)
    ensures var p1 := CheckWithdraw(env, w, metas, b).value;
            && DraftWithdraw(env, w[metas[0].key := Program(p1)], metas, b, p1).Ok?
            && DraftWithdraw(env, w[metas[0].key := Program(p1)], metas, b, p1).value.o
                == WithLines(NO_PAYOUT, BatchLines(env, w, metas, b))
  {
    var p1 := CheckWithdraw(env, w, metas, b).value;
    CheckWithdrawFrame(env, w, metas, b);
    PayableAssigned(env, w, metas, b, raw);
    var w1 := w[metas[0].key := Program(p1)];
    ProgramStepFrame(w, w1, metas, b.tokens);
    LinesSameTokens(env, w, w1, metas, b.tokens, p1.network);
    PrepareAllLines(env, Draft(w1, NO_PAYOUT), metas, b.tokens, UpToNul(p1.feeAccount), p1.network, metas[0].key);
  }

  predicate SameKeys(metas: seq<Meta>, metas': seq<Meta>) {
    |metas'| == |metas| && forall i | 0 <= i < |metas| :: metas'[i].key == metas[i].key
  }

  /** The lines of a prepared batch are still the same after any run in which no
      token of the instance is given a rune id. */
  lemma LinesStable(env: Env, w0: World, prep: Tx, txs: seq<Tx>, submit: seq<Meta>)
    requires Addresses(env) && Good(env, w0) && PreparesBatch(env, w0, prep) && SameKeys(prep.metas, submit)
    requires forall tx | tx in txs :: NoRuneChange(tx, prep.metas[0].key)
    ensures var b := InstructionOf(prep).value.batch;
            BatchLines(env, Run(env, Step(env, w0, prep), txs), submit, b) == BatchLines(env, w0, prep.metas, b)
  {
    var b, owner := InstructionOf(prep).value.batch, prep.metas[0].key;
    var w1 := Step(env, w0, prep);
    var w := Run(env, w1, txs);
    PreparedEntries(env, w0, prep.metas, b, RawOf(prep));
    PayableAssigned(env, w0, prep.metas, b, RawOf(prep));
    StepKept(env, w0, prep);
    LaterAccounts(env, w0, prep, txs);
    assert Later(At(w0, owner), At(w, owner));
    forall x | x in b.tokens ensures KeepsNames(w0, w, KeyAt(prep.metas, x.account)) {
      var k := KeyAt(prep.metas, x.account);
      assert BoundTo(w0, prep.metas, x.account, owner);
      StepKeepsId(env, w0, prep, k, owner);
      RunKeepsNames(env, w1, txs, k, owner);
    }
    LinesSame(env, w0, w, prep.metas, submit, b.tokens, At(w0, owner).p.network);
  }

  /** The outputs and edicts of the withdrawals follow the state transition, in
      batch order. */
  lemma SubmitPaysLines(env: Env, w: World, metas: seq<Meta>, programId: Key, b: WithdrawBatch, raw: Bytes)
    requires SubmitWithdraw(env, w, metas, programId, b, raw).Ok?
    ensures 2 < |metas|
    ensures SubmitWithdraw(env, w, metas, programId, b, raw).value.toSign.outputs
         == Finish(env, WithLines(Payout(StateOutputs(env, metas), []), BatchLines(env, w, metas, b)), programId,
             b.changeAmount, metas[2].key).outputs
    ensures SubmitWithdraw(env, w, metas, programId, b, raw).value.toSign.edicts
         == Finish(env, WithLines(Payout(StateOutputs(env, metas), []), BatchLines(env, w, metas, b)), programId,
             b.changeAmount, metas[2].key).edicts
  {
    var p := At(w, metas[0].key).p;
    PayAllLines(env, w, metas, b.tokens, p.network, Payout(StateOutputs(env, metas), []));
  }

  /** The lines paid at submit are the lines drafted at prepare, moved behind the
      state transition. */
  lemma SubmitStartsWithDraft(env: Env, w0: World, prep: Tx, txs: seq<Tx>, submit: seq<Meta>, programId: Key,
                              raw: Bytes)
    requires Addresses(env) && Good(env, w0) && PreparesBatch(env, w0, prep) && SameKeys(prep.metas, submit)
    requires forall tx | tx in txs :: NoRuneChange(tx, prep.metas[0].key)
    requires SubmitWithdraw(env, Run(env, Step(env, w0, prep), txs), submit, programId,
        InstructionOf(prep).value.batch, raw).Ok?
    ensures var b := InstructionOf(prep).value.batch;
            var tx := SubmitWithdraw(env, Run(env, Step(env, w0, prep), txs), submit, programId, b, raw).value.toSign;
            var paid := WithLines(Payout(StateOutputs(env, submit), []), BatchLines(env, w0, prep.metas, b));
            paid.outputs <= tx.outputs && paid.edicts <= tx.edicts
  {
    var b := InstructionOf(prep).value.batch;
    var w := Run(env, Step(env, w0, prep), txs);
    LinesStable(env, w0, prep, txs, submit);
    SubmitPaysLines(env, w, submit, programId, b, raw);
    FinishExtends(env, WithLines(Payout(StateOutputs(env, submit), []), BatchLines(env, w0, prep.metas, b)), programId,
        b.changeAmount, submit[2].key);
  }

  lemma PrepareTookLines(env: Env, w0: World, prep: Tx, k: Key)
    requires PreparesBatch(env, w0, prep)
    requires MoneyIn(k, At(w0, k)) + Rises(prep.metas, Entries(InstructionOf(prep).value.batch.tokens), k) < U64
    ensures var b := InstructionOf(prep).value.batch;
            MoneyIn(k, At(Step(env, w0, prep), k)) + PaidFor(BatchLines(env, w0, prep.metas, b), k)
            == MoneyIn(k, At(w0, k)) + Overpaid(prep.metas, Entries(b.tokens), k, RuneAt(env, w0, k))
  {
    PrepareDebitsLines(env, w0, prep.metas, InstructionOf(prep).value.batch, RawOf(prep), k);
  }

  /** Account `k` loses at prepare exactly what the drafted lines pay for it, if and
      only if each of its entries is disciplined. */
  lemma PrepareTookLinesIff(env: Env, w0: World, prep: Tx, k: Key)
    requires Addresses(env) && Good(env, w0) && PreparesBatch(env, w0, prep)
    ensures var b := InstructionOf(prep).value.batch; var es := Entries(b.tokens);
            var had, has := MoneyIn(k, At(w0, k)), MoneyIn(k, At(Step(env, w0, prep), k));
            && (DisciplinedFor(env, w0, prep.metas, es, k) && had < U64
                ==> had - has == PaidFor(BatchLines(env, w0, prep.metas, b), k))
            && (had + Rises(prep.metas, es, k) < U64 && FeesFor(prep.metas, es, k, false) < U64
                ==> (had - has == PaidFor(BatchLines(env, w0, prep.metas, b), k)
                     <==> DisciplinedFor(env, w0, prep.metas, es, k)))
  {
    var b := InstructionOf(prep).value.batch;
    var es := Entries(b.tokens);
    if DisciplinedFor(env, w0, prep.metas, es, k) {
      DisciplinedPays(env, w0, prep.metas, es, k);
    }
    if MoneyIn(k, At(w0, k)) + Rises(prep.metas, es, k) < U64 {
      PrepareTookLines(env, w0, prep, k);
    }
    if FeesFor(prep.metas, es, k, false) < U64 {
      NothingOverpaidIff(env, w0, prep.metas, es, k);
    }
  }

  /** A withdrawal batch pays out exactly what it debited.  Across a prepare, any
      run without a rune id change, and a submit of the same batch with the same
      accounts: the lines paid at submit are the lines drafted at prepare, moved
      behind the state transition; and what prepare took from an account is what the
      lines pay on its behalf if and only if its fees are taken as they should be. */
  lemma PaysWhatItDebited(env: Env, w0: World, prep: Tx, txs: seq<Tx>, submit: seq<Meta>, programId: Key,
                          raw: Bytes, k: Key)
    requires Addresses(env) && Good(env, w0) && PreparesBatch(env, w0, prep) && SameKeys(prep.metas, submit)
    requires forall tx | tx in txs :: NoRuneChange(tx, prep.metas[0].key)
    requires SubmitWithdraw(env, Run(env, Step(env, w0, prep), txs), submit, programId,
        InstructionOf(prep).value.batch, raw).Ok?
    ensures var b := InstructionOf(prep).value.batch; var lines := BatchLines(env, w0, prep.metas, b);
            var tx := SubmitWithdraw(env, Run(env, Step(env, w0, prep), txs), submit, programId, b, raw).value.toSign;
            var paid := WithLines(Payout(StateOutputs(env, submit), []), lines);
            && paid.outputs <= tx.outputs && paid.edicts <= tx.edicts
            && var es, had := Entries(b.tokens), MoneyIn(k, At(w0, k)); var has :=
                MoneyIn(k, At(Step(env, w0, prep), k));
               && (DisciplinedFor(env, w0, prep.metas, es, k) && had < U64 ==> had - has == PaidFor(lines, k))
               && (had + Rises(prep.metas, es, k) < U64 && FeesFor(prep.metas, es, k, false) < U64
                   ==> (had - has == PaidFor(lines, k) <==> DisciplinedFor(env, w0, prep.metas, es, k)))
  {
    SubmitStartsWithDraft(env, w0, prep, txs, submit, programId, raw);
    PrepareTookLinesIff(env, w0, prep, k);
  }

  // ---------------------------------------------------------------------------
  // Wiring of the final transaction
  // ---------------------------------------------------------------------------

  /** The change lines: one dust output and one zero edict per rune. */
  function ChangeLines(runes: seq<RuneId>, receiver: Key, script: Bytes): seq<Line> {
    if runes == [] then [] else
    [RuneLine(receiver, TxOut(DUST_THRESHOLD, script), runes[0], 0)] + ChangeLines(runes[1..], receiver, script)
  }

  lemma {:induction false} ChangeIsLines(o: Payout, runes: seq<RuneId>, receiver: Key, script: Bytes)
    ensures PayChange(o, runes, script) == WithLines(o, ChangeLines(runes, receiver, script))
    decreases |runes|
  {
    if runes != [] {
      var l := RuneLine(receiver, TxOut(DUST_THRESHOLD, script), runes[0], 0);
      assert [l][1..] == [];
      assert EdictsAt([l], |o.outputs|) == [Edict(l.rune, l.amount, |o.outputs| % U32)];
      assert PayRune(o, runes[0], script, 0) == WithLines(o, [l]);
      ChangeIsLines(PayRune(o, runes[0], script, 0), runes[1..], receiver, script);
      LinesConcat(o, [l], ChangeLines(runes[1..], receiver, script));
    }
  }

  lemma FinishExtends(env: Env, o: Payout, programId: Key, change: u64, receiver: Key)
    ensures o.outputs <= Finish(env, o, programId, change, receiver).outputs
    ensures o.edicts <= Finish(env, o, programId, change, receiver).edicts
  {
    var o1 := if change > 0 then o.(outputs := o.outputs + [TxOut(change, env.accountScript(programId))]) else o;
    if o.edicts != [] {
      ChangeIsLines(o1, env.order(RuneIds(o1.edicts)), receiver, env.accountScript(receiver));
    }
  }

  /** Edict `i` of these lines names the output that was pushed with it. */
  lemma {:induction false} EdictNamesItsOutput(ls: seq<Line>, n: nat, i: nat) returns (j: nat)
    requires i < |EdictsAt(ls, n)| && n + |ls| <= U32
    ensures j < |ls| && ls[j].RuneLine?
    ensures EdictsAt(ls, n)[i] == Edict(ls[j].rune, ls[j].amount, n + j)
  {
    var head := if ls[0].RuneLine? then 1 else 0;
    if i < head {
      j := 0;
    } else {
      j := EdictNamesItsOutput(ls[1..], n + 1, i - head);
      j := j + 1;
    }
  }

  /** The rune ids are visited once each, in some order. */
  ghost predicate VisitsOnce(env: Env) {
    forall s: set<RuneId> :: (forall r :: r in env.order(s) <==> r in s)
                             && forall i, j | 0 <= i < j < |env.order(s)| :: env.order(s)[i] != env.order(s)[j]
  }

  /** What is left of the funding goes back to the program. */
  function ChangeCoin(env: Env, programId: Key, change: u64): seq<Line> {
    if change > 0 then [CoinLine(programId, TxOut(change, env.accountScript(programId)))] else []
  }

  lemma CoinIsLines(env: Env, o: Payout, programId: Key, change: u64)
    ensures WithLines(o, ChangeCoin(env, programId, change))
         == if change > 0 then o.(outputs := o.outputs + [TxOut(change, env.accountScript(programId))]) else o
  {
    if change > 0 {
      var coin := ChangeCoin(env, programId, change);
      assert coin[1..] == [] && EdictsAt(coin, |o.outputs|) == [] + EdictsAt(coin[1..], |o.outputs| + 1);
    }
  }

  /** All lines of the final transaction behind the state transition, and where the
      change lines begin. */
  function FinalLines(env: Env, lines: seq<Line>, n: nat, programId: Key, change: u64, receiver: Key): seq<Line> {
    lines
    + ChangeCoin(env, programId, change)
    + (if EdictsAt(lines, n) == [] then []
       else ChangeLines(env.order(RuneIds(EdictsAt(lines, n))), receiver, env.accountScript(receiver)))
  }

  /** The transaction is the state transition, then its lines, then, if any runes
      move, the runestone that holds all the edicts. */
  lemma FinishIsLines(env: Env, start: seq<TxOut>, lines: seq<Line>, programId: Key, change: u64, receiver: Key)
    ensures var all := WithLines(Payout(start, []), FinalLines(env, lines, |start|, programId, change, receiver));
            var done := Finish(env, WithLines(Payout(start, []), lines), programId, change, receiver);
            && done.edicts == all.edicts
            && done.outputs == all.outputs + if EdictsAt(lines, |start|) == [] then []
                else [TxOut(0, env.runestone(all.edicts))]
  {
    var o := WithLines(Payout(start, []), lines);
    var coin := ChangeCoin(env, programId, change);
    assert o.edicts == EdictsAt(lines, |start|);
    CoinIsLines(env, o, programId, change);
    LinesConcat(Payout(start, []), lines, coin);
    if o.edicts == [] {
      assert lines + coin + [] == lines + coin;
    } else {
      var runes := env.order(RuneIds(o.edicts));
      ChangeIsLines(WithLines(o, coin), runes, receiver, env.accountScript(receiver));
      LinesConcat(Payout(start, []), lines + coin, ChangeLines(runes, receiver, env.accountScript(receiver)));
    }
  }

  /** Edict `i` is the one of line `j`, and names the output of that line. */
  predicate NamesOutput(env: Env, tx: ToSign, start: seq<TxOut>, lines: seq<Line>, programId: Key, change: u64,
                        receiver: Key, i: nat, j: nat) {
    var all := FinalLines(env, lines, |start|, programId, change, receiver);
    && j < |all| && all[j].RuneLine? && i < |tx.edicts| && tx.edicts[i].rune == all[j].rune
    && tx.edicts[i].amount == all[j].amount && tx.edicts[i].output == |start| + j
    && |start| + j < |tx.outputs| && tx.outputs[|start| + j] == all[j].output
  }

  lemma FinishedEdict(env: Env, tx: ToSign, start: seq<TxOut>, lines: seq<Line>, programId: Key, change: u64,
                      receiver: Key, i: nat)
    returns (j: nat)
    requires Payout(tx.outputs, tx.edicts)
        == Finish(env, WithLines(Payout(start, []), lines), programId, change, receiver)
    requires i < |tx.edicts| && |tx.outputs| <= U32
    ensures NamesOutput(env, tx, start, lines, programId, change, receiver, i, j)
  {
    FinishIsLines(env, start, lines, programId, change, receiver);
    j := EdictNamesItsOutput(FinalLines(env, lines, |start|, programId, change, receiver), |start|, i);
  }

  /** In the final transaction every edict, whether it moves a withdrawal or
      collects change, names the dust output that was pushed with it. */
  lemma EveryEdictNamesItsOutput(env: Env, w: World, metas: seq<Meta>, programId: Key, b: WithdrawBatch, raw: Bytes,
                                 tx: ToSign, i: nat)
    returns (j: nat)
    requires SubmitWithdraw(env, w, metas, programId, b, raw).Ok?
        && tx == SubmitWithdraw(env, w, metas, programId, b, raw).value.toSign
    requires i < |tx.edicts| && |tx.outputs| <= U32 && 2 < |metas|
    ensures NamesOutput(env, tx, StateOutputs(env, metas), BatchLines(env, w, metas, b), programId, b.changeAmount,
        metas[2].key, i, j)
  {
    SubmitPaysLines(env, w, metas, programId, b, raw);
    j := FinishedEdict(env, tx, StateOutputs(env, metas), BatchLines(env, w, metas, b), programId, b.changeAmount,
        metas[2].key, i);
  }

  // Change edicts ---------------------------------------------------------------

  /** Edict `i` of these collects the change of a rune: it moves nothing, and names
      a dust output with this script. */
  predicate CollectsChange(o: Payout, i: nat, rune: RuneId, script: Bytes) {
    && i < |o.edicts| && o.edicts[i].rune == rune && o.edicts[i].amount == 0
    && o.edicts[i].output < |o.outputs| && o.outputs[o.edicts[i].output] == TxOut(DUST_THRESHOLD, script)
  }

  lemma {:induction false} PayChangeAt(o: Payout, runes: seq<RuneId>, script: Bytes, q: nat)
    requires |o.outputs| + |runes| <= U32 && q < |runes|
    ensures CollectsChange(PayChange(o, runes, script), |o.edicts| + q, runes[q], script)
    decreases |runes|
  {
    var o1 := PayRune(o, runes[0], script, 0);
    PayChangeGrows(o1, runes[1..], script);
    if q > 0 {
      PayChangeAt(o1, runes[1..], script, q - 1);
    }
  }

  lemma {:induction false} PayChangeGrows(o: Payout, runes: seq<RuneId>, script: Bytes)
    ensures var o' := PayChange(o, runes, script);
            && o.outputs <= o'.outputs && |o'.outputs| == |o.outputs| + |runes|
            && o.edicts <= o'.edicts && |o'.edicts| == |o.edicts| + |runes|
    decreases |runes|
  {
    if runes != [] {
      PayChangeGrows(PayRune(o, runes[0], script, 0), runes[1..], script);
    }
  }

  /** Behind the first `n` edicts of a payout, each of their runes has exactly one
      edict, which collects its change for this script, and there are no others. */
  ghost predicate OneChangeEach(o: Payout, n: nat, script: Bytes) {
    && n <= |o.edicts|
    && (forall i | n <= i < |o.edicts| ::
          CollectsChange(o, i, o.edicts[i].rune, script) && o.edicts[i].rune in RuneIds(o.edicts[..n]))
    && (forall r | r in RuneIds(o.edicts[..n]) :: exists i :: n <= i < |o.edicts| && o.edicts[i].rune == r)
    && (forall i, j | n <= i < j < |o.edicts| :: o.edicts[i].rune != o.edicts[j].rune)
  }

  lemma ChangePaidOnce(env: Env, o: Payout, script: Bytes)
    requires VisitsOnce(env) && |o.outputs| + |env.order(RuneIds(o.edicts))| <= U32
    ensures OneChangeEach(PayChange(o, env.order(RuneIds(o.edicts)), script), |o.edicts|, script)
  {
    var runes, n := env.order(RuneIds(o.edicts)), |o.edicts|;
    var o' := PayChange(o, runes, script);
    PayChangeGrows(o, runes, script);
    assert o'.edicts[..n] == o.edicts;
    forall i | n <= i < |o'.edicts|
      ensures CollectsChange(o', i, runes[i - n], script) && o'.edicts[i].rune == runes[i - n]
      ensures o'.edicts[i].rune in RuneIds(o.edicts)
    {
      PayChangeAt(o, runes, script, i - n);
      assert runes[i - n] in runes;
    }
    forall r | r in RuneIds(o.edicts) ensures exists i :: n <= i < |o'.edicts| && o'.edicts[i].rune == r {
      assert r in runes;
      var q :| 0 <= q < |runes| && runes[q] == r;
      assert o'.edicts[n + q].rune == runes[n + q - n];
    }
  }

  lemma FinishedChange(env: Env, o: Payout, programId: Key, change: u64, receiver: Key)
    requires VisitsOnce(env) && |Finish(env, o, programId, change, receiver).outputs| <= U32
    ensures OneChangeEach(Finish(env, o, programId, change, receiver), |o.edicts|, env.accountScript(receiver))
    ensures o.edicts <= Finish(env, o, programId, change, receiver).edicts
  {
    var script := env.accountScript(receiver);
    var o1 := if change > 0 then o.(outputs := o.outputs + [TxOut(change, env.accountScript(programId))]) else o;
    if o.edicts != [] {
      var runes := env.order(RuneIds(o1.edicts));
      var o2, done := PayChange(o1, runes, script), Finish(env, o, programId, change, receiver);
      PayChangeGrows(o1, runes, script);
      assert done == o2.(outputs := o2.outputs + [TxOut(0, env.runestone(o2.edicts))]);
      ChangePaidOnce(env, o1, script);
      forall i | |o.edicts| <= i < |done.edicts| ensures CollectsChange(done, i, done.edicts[i].rune, script) {
        assert CollectsChange(o2, i, o2.edicts[i].rune, script);
      }
    }
  }

  /** In a submitted transaction, behind the edicts of the withdrawals, each rune
      that they move has exactly one more edict, and there are no others: it moves
      nothing and names a dust output to the third account. */
  lemma OneChangeEdictPerRune(env: Env, w: World, metas: seq<Meta>, programId: Key, b: WithdrawBatch, raw: Bytes)
    requires SubmitWithdraw(env, w, metas, programId, b, raw).Ok? && VisitsOnce(env)
    requires |SubmitWithdraw(env, w, metas, programId, b, raw).value.toSign.outputs| <= U32
    ensures 2 < |metas|
    ensures var tx := SubmitWithdraw(env, w, metas, programId, b, raw).value.toSign;
            var moved := EdictsAt(BatchLines(env, w, metas, b), |StateOutputs(env, metas)|);
            moved <= tx.edicts && OneChangeEach(Payout(tx.outputs, tx.edicts), |moved|, env.accountScript(metas[2].key))
  {
    SubmitPaysLines(env, w, metas, programId, b, raw);
    FinishedChange(env, WithLines(Payout(StateOutputs(env, metas), []), BatchLines(env, w, metas, b)), programId,
        b.changeAmount, metas[2].key);
  }

  // Signers -------------------------------------------------------------------

  lemma {:induction false} SignersInOrder(inputs: nat, types: seq<InputUtxoType>, programId: Key, metas: seq<Meta>)
    requires |metas| > 2
    ensures Signers(inputs, types, programId, metas).Ok? <==> inputs <= |types| + 1
    ensures Signers(inputs, types, programId, metas).Ok? ==>
              var s := Signers(inputs, types, programId, metas).value;
              && |s| == inputs
              && forall i | 0 <= i < inputs :: s[i] == InputToSign(i,
                   if i == 0 then metas[1].key else if types[i - 1] == BitcoinUtxo then programId else metas[2].key)
  {
    if inputs > 0 {
      SignersInOrder(inputs - 1, types, programId, metas);
    }
  }

  lemma {:induction false} StateInputCount(metas: seq<Meta>, i: nat)
    requires i < |metas| && metas[i].writable
    ensures |StateInputs(metas)| >= 1
    ensures |StateInputs(metas)| == 1 ==> StateInputs(metas) == [StateInput(metas[i].key)]
    ensures |StateInputs(metas)| == 1 ==> forall j | 0 <= j < |metas| && j != i :: !metas[j].writable
  {
    if i > 0 {
      StateInputCount(metas[1..], i - 1);
    } else {
      NoStateInput(metas[1..]);
    }
  }

  lemma {:induction false} NoStateInput(metas: seq<Meta>)
    ensures |StateInputs(metas)| == 0 <==> forall j | 0 <= j < |metas| :: !metas[j].writable
  {
    if metas != [] {
      NoStateInput(metas[1..]);
      assert forall j | 0 < j < |metas| :: metas[j] == metas[1..][j - 1];
    }
  }

  /** A submit whose input types match its funding inputs, as prepare checked, goes
      through only if the withdraw account is the only writable entry; then there
      is one signature request per input, in order: the withdraw account signs the
      state input, and the types choose the signer of every other. */
  lemma SubmittedSigners(env: Env, w: World, metas: seq<Meta>, programId: Key, b: WithdrawBatch, raw: Bytes)
    requires SubmitWithdraw(env, w, metas, programId, b, raw).Ok?
    requires env.fundingTx(b.tx).Some? && |env.fundingTx(b.tx).value.inputs| == |b.inputTypes|
    ensures 2 < |metas| && metas[1].writable && forall j | 0 <= j < |metas| && j != 1 :: !metas[j].writable
    ensures var tx := SubmitWithdraw(env, w, metas, programId, b, raw).value.toSign;
            && tx.inputs == [StateInput(metas[1].key)] + Fundings(env.fundingTx(b.tx).value.inputs)
            && |tx.signers| == |tx.inputs| == |b.inputTypes| + 1
            && tx.signers[0] == InputToSign(0, metas[1].key)
            && forall i | 0 <= i < |b.inputTypes| ::
                 tx.signers[i + 1] == InputToSign(i + 1, if b.inputTypes[i] == BitcoinUtxo then programId
                     else metas[2].key)
  {
    SignersInOrder(|StateInputs(metas) + Fundings(env.fundingTx(b.tx).value.inputs)|, b.inputTypes, programId, metas);
    StateInputCount(metas, 1);
  }

  /** The length check behind that: whatever is submitted over a run was prepared,
      so its type list is as long as its funding inputs are many. */
  lemma SubmittedTypesMatch(env: Env, w: World, txs: seq<Tx>, n: nat)
    requires DigestsNonEmpty(env) && CollisionFree(env, txs) && n < |txs|
    requires Succeeds(env, Run(env, w, txs[..n]), txs[n]) && InstructionOf(txs[n]).value.SubmitBatchWithdraw?
    requires 1 < |txs[n].metas| && WithdrawWord(w, txs[n].metas[1].key) == EMPTY_HASH
    ensures var b := InstructionOf(txs[n]).value.batch;
            env.fundingTx(b.tx).Some? && |env.fundingTx(b.tx).value.inputs| == |b.inputTypes|
  {
    var m := WithdrawalExactlyOnce(env, w, txs, n);
    PreparedTypesMatch(env, Run(env, w, txs[..m]), txs[m].metas, InstructionOf(txs[m]).value.batch, RawOf(txs[m]));
  }

  lemma PreparedTypesMatch(env: Env, w: World, metas: seq<Meta>, b: WithdrawBatch, raw: Bytes)
    requires PrepareWithdraw(env, w, metas, b, raw).Ok?
    ensures env.fundingTx(b.tx).Some? && |env.fundingTx(b.tx).value.inputs| == |b.inputTypes|
  {
    assert CheckWithdraw(env, w, metas, b).Ok?;
  }
}
