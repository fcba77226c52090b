/** Exactly when a withdrawal batch can be submitted, and that a prepared one always
    can: nothing that happens in between stands in its way, but a submit, a rollback or
    a rune id. */
module ArchSubmission {
  import opened Machine
  import opened Wrappers
  import opened ArchTypes
  import opened ArchLedger
  import opened ArchFrames
  import opened ArchChecks
  import opened ArchReports
  import opened ArchInvariants
  import opened ArchSessions
  import opened ArchRollback
  import opened ArchPayout
  import opened ArchSubmit
  import opened ArchOutcomes
  import opened ArchCharges

  // ---------------------------------------------------------------------------
  // Submitting
  // ---------------------------------------------------------------------------

  /** The fee account is listed, and the wallet is named and holds an address of the
      network. */
  predicate Submittable(env: Env, w: World, metas: seq<Meta>, t: TokenState, d: Withdrawal, network: Network) {
    && ExpectToken(w, metas, d.feeAccount, false).Ok? && Names(t, d.address)
    && env.parses(AddressIn(t, d.address.index)) && env.onNetwork(AddressIn(t, d.address.index), network)
  }

  ghost predicate AllSubmittable(env: Env, w: World, metas: seq<Meta>, tokens: seq<TokenWithdrawals>,
                                 network: Network) {
    forall x | x in tokens ::
      && ExpectToken(w, metas, x.account, false).Ok?
      && forall d | d in x.withdrawals ::
           Submittable(env, w, metas, ExpectToken(w, metas, x.account, false).value, d, network)
  }

  lemma {:induction false} PayTokenIff(env: Env, w: World, metas: seq<Meta>, t: TokenState, ds: seq<Withdrawal>,
                                       network: Network, o: Payout)
    ensures PayToken(env, w, metas, t, ds, network, o).Ok?
        <==> forall d | d in ds :: Submittable(env, w, metas, t, d, network)
    decreases |ds|
  {
    if ds != [] {
      ValidatedIndexIff(t, ds[0].address);
      assert forall d :: d in ds <==> d == ds[0] || d in ds[1..];
      if Submittable(env, w, metas, t, ds[0], network) {
        PayTokenIff(env, w, metas, t, ds[1..], network, Pay(env, t, ds[0], network, o).value);
      }
    }
  }

  lemma {:induction false} PayAllIff(env: Env, w: World, metas: seq<Meta>, tokens: seq<TokenWithdrawals>,
                                     network: Network, o: Payout)
    ensures PayAll(env, w, metas, tokens, network, o).Ok? <==> AllSubmittable(env, w, metas, tokens, network)
    decreases |tokens|
  {
    if tokens != [] {
      var x, token := tokens[0], ExpectToken(w, metas, tokens[0].account, false);
      assert forall y :: y in tokens <==> y == x || y in tokens[1..];
      if token.Ok? {
        PayTokenIff(env, w, metas, token.value, x.withdrawals, network, o);
        var o' := PayToken(env, w, metas, token.value, x.withdrawals, network, o);
        if o'.Ok? {
          PayAllIff(env, w, metas, tokens[1..], network, o'.value);
        }
      }
    }
  }

  /** How many entries are listed as writable. */
  function WritableCount(metas: seq<Meta>): nat {
    if metas == [] then 0 else (if metas[0].writable then 1 else 0) + WritableCount(metas[1..])
  }

  lemma {:induction false} StateInputsAre(metas: seq<Meta>)
    ensures |StateInputs(metas)| == WritableCount(metas)
  {
    if metas != [] {
      StateInputsAre(metas[1..]);
    }
  }

  lemma BuildIff(env: Env, w: World, metas: seq<Meta>, programId: Key, b: WithdrawBatch, p: ProgramState)
    requires 0 < |metas| && ReceiverListed(w, metas, true)
    ensures BuildTransaction(env, w, metas, programId, b, p).Ok?
        <==> && env.fundingTx(b.tx).Some? && AllSubmittable(env, w, metas, b.tokens, p.network)
             && ((exists l :: l in Lines(env, w, metas, b.tokens, p.network) && l.RuneLine?)
                 ==> At(w, metas[2].key).RuneReceiver?)
             && WritableCount(metas) + |env.fundingTx(b.tx).value.inputs| <= |b.inputTypes| + 1
  {
    HasReceiverIff(w, metas, true);
    if env.fundingTx(b.tx).Some? {
      var start := Payout(StateOutputs(env, metas), []);
      var lines := Lines(env, w, metas, b.tokens, p.network);
      PayAllIff(env, w, metas, b.tokens, p.network, start);
      if PayAll(env, w, metas, b.tokens, p.network, start).Ok? {
        PayAllLines(env, w, metas, b.tokens, p.network, start);
        RuneEdicts(lines, |start.outputs|);
        assert WithLines(start, lines).edicts == [] + EdictsAt(lines, |start.outputs|);
        StateInputsAre(metas);
        SignersInOrder(|StateInputs(metas) + Fundings(env.fundingTx(b.tx).value.inputs)|, b.inputTypes, programId,
            metas);
      }
    }
  }

  /** Exactly when a batch is submitted. */
  lemma SubmitWithdrawIff(env: Env, w: World, metas: seq<Meta>, programId: Key, b: WithdrawBatch, raw: Bytes)
    ensures SubmitWithdraw(env, w, metas, programId, b, raw).Ok?
        <==> && ExpectProgram(w, metas, false, Some(1)).Ok? && ExpectWithdraw(w, metas, true).Ok?
             && ReceiverListed(w, metas, true) && At(w, metas[1].key).hash == env.sha(raw)
             && var p := At(w, metas[0].key).p;
                && env.fundingTx(b.tx).Some? && AllSubmittable(env, w, metas, b.tokens, p.network)
                && ((exists l :: l in Lines(env, w, metas, b.tokens, p.network) && l.RuneLine?)
                    ==> At(w, metas[2].key).RuneReceiver?)
                && WritableCount(metas) + |env.fundingTx(b.tx).value.inputs| <= |b.inputTypes| + 1
  {
    if ExpectProgram(w, metas, false, Some(1)).Ok? {
      HasReceiverIff(w, metas, true);
      if ReceiverListed(w, metas, true) {
        BuildIff(env, w, metas, programId, b, At(w, metas[0].key).p);
      }
    }
  }

  // ---------------------------------------------------------------------------
  // The transaction
  // ---------------------------------------------------------------------------

  lemma {:induction false} NoStateOutputs(env: Env, metas: seq<Meta>)
    requires forall i | 0 <= i < |metas| :: !metas[i].writable
    ensures StateOutputs(env, metas) == []
  {
    if metas != [] {
      NoStateOutputs(env, metas[1..]);
    }
  }

  lemma OneStateOutput(env: Env, metas: seq<Meta>)
    requires 2 < |metas| && forall i | 0 <= i < |metas| :: metas[i].writable <==> i == 1
    ensures StateOutputs(env, metas) == [TxOut(env.stateValue(metas[1].key), env.accountScript(metas[1].key))]
  {
    NoStateOutputs(env, metas[2..]);
    assert metas[1..][1..] == metas[2..] && metas[1..][0] == metas[1];
    assert StateOutputs(env, metas) == [] + StateOutputs(env, metas[1..]);
  }

  /** The lines come behind the state output, then change, and at the end the runestone
      of all edicts, if there are any. */
  lemma FinishedOutputs(env: Env, state: TxOut, lines: seq<Line>, programId: Key, change: u64, receiver: Key)
    ensures var n := 1 + |lines|;
            var done := Finish(env, WithLines(Payout([state], []), lines), programId, change, receiver);
            && n <= |done.outputs| && done.outputs[0] == state
            && (forall i | 0 <= i < |lines| :: done.outputs[1 + i] == lines[i].output)
            && (change > 0 ==> n < |done.outputs| && done.outputs[n] == TxOut(change, env.accountScript(programId)))
            && (done.edicts == [] ==> |done.outputs| == n + if change > 0 then 1 else 0)
            && (done.edicts != [] ==> done.outputs[|done.outputs| - 1] == TxOut(0, env.runestone(done.edicts)))
  {
    var start := [state];
    FinishIsLines(env, start, lines, programId, change, receiver);
    FinishExtends(env, WithLines(Payout(start, []), lines), programId, change, receiver);
    if EdictsAt(lines, 1) == [] {
      assert ChangeCoin(env, programId, change) == [] || !ChangeCoin(env, programId, change)[0].RuneLine?;
      EdictsConcat(lines, ChangeCoin(env, programId, change), 1);
    }
  }

  /** A transaction that spends the state of the withdraw account and then the funding
      inputs in order, and whose outputs are the new state, these lines in order, change
      to the program, and at the end the runestone of all edicts. */
  predicate TransactionFor(env: Env, tx: ToSign, account: Key, programId: Key, funding: seq<Bytes>, lines: seq<Line>,
                           change: u64) {
    var n := 1 + |lines|;
    && |tx.inputs| == 1 + |funding| && tx.inputs[0] == StateInput(account)
    && (forall i | 0 <= i < |funding| :: tx.inputs[1 + i] == Funding(funding[i]))
    && n <= |tx.outputs| && tx.outputs[0] == TxOut(env.stateValue(account), env.accountScript(account))
    && (forall i | 0 <= i < |lines| :: tx.outputs[1 + i] == lines[i].output)
    && (change > 0 ==> n < |tx.outputs| && tx.outputs[n] == TxOut(change, env.accountScript(programId)))
    && (tx.edicts == [] ==> |tx.outputs| == n + if change > 0 then 1 else 0)
    && (tx.edicts != [] ==> tx.outputs[|tx.outputs| - 1] == TxOut(0, env.runestone(tx.edicts)))
  }

  lemma FinishedTransaction(env: Env, tx: ToSign, account: Key, programId: Key, funding: seq<Bytes>, lines: seq<Line>,
                            change: u64, receiver: Key)
    requires var state := TxOut(env.stateValue(account), env.accountScript(account));
             var done := Finish(env, WithLines(Payout([state], []), lines), programId, change, receiver);
             && tx.inputs == [StateInput(account)] + Fundings(funding)
             && tx.outputs == done.outputs && tx.edicts == done.edicts
    ensures TransactionFor(env, tx, account, programId, funding, lines, change)
  {
    FinishedOutputs(env, TxOut(env.stateValue(account), env.accountScript(account)), lines, programId, change,
        receiver);
  }

  /** So is the transaction that is handed out for signing, with the withdrawals of the
      batch as its lines. */
  lemma SubmittedTransaction(env: Env, w: World, metas: seq<Meta>, programId: Key, b: WithdrawBatch, raw: Bytes)
    requires SubmitWithdraw(env, w, metas, programId, b, raw).Ok?
    requires env.fundingTx(b.tx).Some? && |env.fundingTx(b.tx).value.inputs| == |b.inputTypes|
    ensures 2 < |metas|
    ensures TransactionFor(env, SubmitWithdraw(env, w, metas, programId, b, raw).value.toSign, metas[1].key, programId,
                           env.fundingTx(b.tx).value.inputs, BatchLines(env, w, metas, b), b.changeAmount)
  {
    SubmittedSigners(env, w, metas, programId, b, raw);
    SubmitPaysLines(env, w, metas, programId, b, raw);
    OneStateOutput(env, metas);
    FinishedTransaction(env, SubmitWithdraw(env, w, metas, programId, b, raw).value.toSign, metas[1].key, programId,
        env.fundingTx(b.tx).value.inputs, BatchLines(env, w, metas, b), b.changeAmount, metas[2].key);
  }

  // ---------------------------------------------------------------------------
  // What was prepared can be submitted
  // ---------------------------------------------------------------------------

  /** Same accounts, listed with the flags that submit asks for: the first three sign,
      and the withdraw account alone is writable. */
  ghost predicate SubmitFlags(w0: World, prepare: seq<Meta>, submit: seq<Meta>) {
    && SameKeys(prepare, submit) && 2 < |submit|
    && submit[0].signer && submit[1].signer && (At(w0, submit[2].key).RuneReceiver? ==> submit[2].signer)
    && (forall i | 0 <= i < |submit| :: submit[i].writable <==> i == 1)
    && forall i | 0 <= i < |submit| :: !prepare[i].signer && prepare[i].writable && i != 1 ==> !submit[i].signer
  }

  lemma {:induction false} NoneWritable(metas: seq<Meta>)
    requires forall i | 0 <= i < |metas| :: !metas[i].writable
    ensures WritableCount(metas) == 0
  {
    if metas != [] {
      NoneWritable(metas[1..]);
    }
  }

  lemma OnlySecondWritable(metas: seq<Meta>)
    requires 2 < |metas| && forall i | 0 <= i < |metas| :: metas[i].writable <==> i == 1
    ensures WritableCount(metas) == 1
  {
    NoneWritable(metas[2..]);
    assert metas[1..][1..] == metas[2..] && metas[1..][0] == metas[1];
  }

  lemma NamesLater(t: TokenState, t': TokenState, a: AddressIndex)
    requires Names(t, a) && Grows(t, t')
    ensures Names(t', a) && AddressIn(t', a.index) == AddressIn(t, a.index)
  {
  }

  /** An entry that could be paid can be submitted in any later state. */
  lemma PayableSubmittable(env: Env, w: World, w': World, prepare: seq<Meta>, submit: seq<Meta>, x: TokenWithdrawals,
                           network: Network)
    requires AllPayable(env, w, prepare, x, network) && SubmitFlags(w, prepare, submit)
    requires At(w, prepare[1].key).Withdraw?
    requires forall k: Key :: Later(At(w, k), At(w', k))
    ensures ExpectToken(w', submit, x.account, false).Ok?
    ensures forall d | d in x.withdrawals ::
              Submittable(env, w', submit, ExpectToken(w', submit, x.account, false).value, d, network)
  {
    var t, k := ExpectToken(w, prepare, x.account, true).value, prepare[x.account].key;
    assert Later(At(w, k), At(w', k));
    assert ExpectToken(w', submit, x.account, false) == Ok(At(w', k).t);
    forall d | d in x.withdrawals ensures Submittable(env, w', submit, At(w', k).t, d, network) {
      var f, fk := ExpectToken(w, prepare, d.feeAccount, true).value, prepare[d.feeAccount].key;
      assert Payable(env, t, f, d, network);
      assert Later(At(w, fk), At(w', fk));
      assert ExpectToken(w', submit, d.feeAccount, false) == Ok(At(w', fk).t);
      NamesLater(t, At(w', k).t, d.address);
    }
  }

  /** What a prepare that goes through has found. */
  lemma PreparedFacts(env: Env, w0: World, metas: seq<Meta>, b: WithdrawBatch, raw: Bytes)
    requires PrepareWithdraw(env, w0, metas, b, raw).Ok? && NothingToReport(env, w0, metas, b)
    ensures ExpectProgram(w0, metas, true, Some(1)).Ok? && ExpectWithdraw(w0, metas, false).Ok?
    ensures ReceiverListed(w0, metas, false)
    ensures env.fundingTx(b.tx).Some? && |env.fundingTx(b.tx).value.inputs| == |b.inputTypes|
    ensures forall x | x in b.tokens :: AllPayable(env, w0, metas, x, At(w0, metas[0].key).p.network)
  {
    assert CheckWithdraw(env, w0, metas, b).Ok?;
    CheckWithdrawIff(env, w0, metas, b);
    PreparedEntries(env, w0, metas, b, raw);
  }

  /** Runes are paid only where a receiver is listed. */
  lemma PreparedReceiver(env: Env, w0: World, metas: seq<Meta>, b: WithdrawBatch, raw: Bytes)
    requires PrepareWithdraw(env, w0, metas, b, raw).Ok? && NothingToReport(env, w0, metas, b)
    ensures 2 < |metas|
    ensures (exists l :: l in BatchLines(env, w0, metas, b) && l.RuneLine?) ==> At(w0, metas[2].key).RuneReceiver?
  {
    DraftIsLines(env, w0, metas, b, raw);
    CheckWithdrawFrame(env, w0, metas, b);
    var p1 := CheckWithdraw(env, w0, metas, b).value;
    var w1 := w0[metas[0].key := Program(p1)];
    var lines := BatchLines(env, w0, metas, b);
    RuneEdicts(lines, 0);
    assert WithLines(NO_PAYOUT, lines).edicts == [] + EdictsAt(lines, 0);
    assert HasReceiver(w1, metas, false).Ok?;
    HasReceiverIff(w1, metas, false);
  }

  /** The accounts that a submit needs, in a later state. */
  lemma LaterSubmitAccounts(env: Env, w0: World, w: World, prepare: seq<Meta>, submit: seq<Meta>)
    requires ExpectProgram(w0, prepare, true, Some(1)).Ok? && ExpectWithdraw(w0, prepare, false).Ok?
    requires ReceiverListed(w0, prepare, false) && SubmitFlags(w0, prepare, submit)
    requires forall k: Key :: Later(At(w0, k), At(w, k))
    ensures ExpectProgram(w, submit, false, Some(1)).Ok? && ExpectWithdraw(w, submit, true).Ok?
    ensures ReceiverListed(w, submit, true)
    ensures At(w, submit[0].key).p.network == At(w0, prepare[0].key).p.network
    ensures At(w, submit[2].key).RuneReceiver? <==> At(w0, prepare[2].key).RuneReceiver?
  {
    assert Later(At(w0, prepare[0].key), At(w, submit[0].key));
    assert Later(At(w0, prepare[1].key), At(w, submit[1].key));
    assert Later(At(w0, prepare[2].key), At(w, submit[2].key));
  }

  /** Whatever was prepared can be submitted: after any run without a rune id change, and
      while the digest of the batch is stored, with the accounts listed as they should
      be. */
  lemma PreparedCanBeSubmitted(env: Env, w0: World, prep: Tx, txs: seq<Tx>, submit: seq<Meta>, programId: Key,
                               raw: Bytes)
    requires Addresses(env) && Good(env, w0) && PreparesBatch(env, w0, prep) && SubmitFlags(w0, prep.metas, submit)
    requires forall tx | tx in txs :: NoRuneChange(tx, prep.metas[0].key)
    requires WithdrawWord(Run(env, Step(env, w0, prep), txs), submit[1].key) == env.sha(raw)
    ensures SubmitWithdraw(env, Run(env, Step(env, w0, prep), txs), submit, programId,
                           InstructionOf(prep).value.batch, raw).Ok?
  {
    var b, w := InstructionOf(prep).value.batch, Run(env, Step(env, w0, prep), txs);
    PreparedFacts(env, w0, prep.metas, b, RawOf(prep));
    PreparedReceiver(env, w0, prep.metas, b, RawOf(prep));
    LaterAccounts(env, w0, prep, txs);
    LaterSubmitAccounts(env, w0, w, prep.metas, submit);
    var network := At(w0, prep.metas[0].key).p.network;
    forall x | x in b.tokens
      ensures ExpectToken(w, submit, x.account, false).Ok?
      ensures forall d | d in x.withdrawals ::
                Submittable(env, w, submit, ExpectToken(w, submit, x.account, false).value, d, network)
    {
      PayableSubmittable(env, w0, w, prep.metas, submit, x, network);
    }
    LinesStable(env, w0, prep, txs, submit);
    OnlySecondWritable(submit);
    SubmitWithdrawIff(env, w, submit, programId, b, raw);
  }
}
