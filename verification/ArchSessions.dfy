/** The two session words of an instance, its settlement hash and its withdrawal
    hash: who writes them, and that every submit consumes exactly one prepare. */
module ArchSessions {
  import opened Machine
  import opened Wrappers
  import opened ArchTypes
  import opened ArchCodec
  import opened ArchLedger
  import opened ArchFrames
  import opened ArchReports
  import opened ArchInvariants
  import opened Sessions

  function SettlementWord(w: World, k: Key): Hash {
    if At(w, k).Program? then At(w, k).p.settlementHash else EMPTY_HASH
  }

  function WithdrawWord(w: World, k: Key): Hash {
    if At(w, k).Withdraw? then At(w, k).hash else EMPTY_HASH
  }

  /** The digest of something is never the empty hash. */
  ghost predicate DigestsNonEmpty(env: Env) {
    forall data: Bytes :: env.sha(data) != EMPTY_HASH
  }

  /** The settlement hash of the instance after an instruction that went through. */
  function SettlementWordAfter(env: Env, w: World, metas: seq<Meta>, i: Instruction, raw: Bytes): Hash
    requires 0 < |metas|
  {
    match i
    case PrepareBatchSettlement(ss) => if Uncovered(w, metas, ss) == [] then env.sha(raw) else EMPTY_HASH
    case SubmitBatchSettlement(_) => EMPTY_HASH
    case RollbackBatchSettlement => EMPTY_HASH
    case _ => SettlementWord(w, metas[0].key)
  }

  /** Every entry of the withdrawal batch can be paid. */
  predicate NothingToReport(env: Env, w: World, metas: seq<Meta>, b: WithdrawBatch) {
    && 0 < |metas| && At(w, metas[0].key).Program?
    && Failures(env, w, metas, b.tokens, At(w, metas[0].key).p.network) == []
  }

  /** The withdrawal hash of the instance after an instruction that went through. */
  function WithdrawWordAfter(env: Env, w: World, metas: seq<Meta>, i: Instruction, raw: Bytes): Hash
    requires 1 < |metas|
  {
    match i
    case PrepareBatchWithdraw(b) =>
      if NothingToReport(env, w, metas, b) then env.sha(raw) else EMPTY_HASH
    case RollbackBatchWithdraw(_) => EMPTY_HASH
    case SubmitBatchWithdraw(_) => EMPTY_HASH
    case _ => WithdrawWord(w, metas[1].key)
  }

  /** Only the named instructions move the session words, and only those of the
      instance that the instruction runs under. */
  ghost predicate WordsMove(env: Env, w: World, w': World, metas: seq<Meta>, i: Instruction, raw: Bytes) {
    && 0 < |metas|
    && (forall k: Key :: SettlementWord(w', k)
          == if k == metas[0].key then SettlementWordAfter(env, w, metas, i, raw) else SettlementWord(w, k))
    && (forall k: Key :: WithdrawWord(w', k)
          == if 1 < |metas| && k == metas[1].key then WithdrawWordAfter(env, w, metas, i, raw) else WithdrawWord(w, k))
  }

  lemma AmountsKeepWords(w: World, w': World, owner: Key)
    requires AmountsOnly(w, w', owner)
    ensures forall k: Key :: SettlementWord(w', k) == SettlementWord(w, k) && WithdrawWord(w', k) == WithdrawWord(w, k)
  {
    forall k: Key ensures SettlementWord(w', k) == SettlementWord(w, k) && WithdrawWord(w', k) == WithdrawWord(w, k) {
      var a := At(w', k);
      assert a == At(w, k) || a.Token?;
    }
  }

  lemma {:induction false} SetUpTokensKeepWords(env: Env, original: World, w: World, metas: seq<Meta>,
                                                setups: seq<TokenSetup>, network: Network)
    requires SetUpTokens(env, original, w, metas, setups, network).Ok?
    ensures var w' := SetUpTokens(env, original, w, metas, setups, network).value;
            forall k: Key :: SettlementWord(w', k) == SettlementWord(w, k) && WithdrawWord(w', k) == WithdrawWord(w, k)
    decreases |setups|
  {
    if setups != [] {
      var t := ExpectToken(w, metas, setups[0].account, true).value;
      var key := metas[setups[0].account].key;
      var t' := AddWallets(env, t, SizeOf(At(original, key)), setups[0].wallets, network).value;
      SetUpTokensKeepWords(env, original, w[key := Token(t')], metas, setups[1..], network);
    }
  }

  /** Storing an account moves the words as that account says. */
  lemma StoreWords(w: World, w': World, k: Key, a: Account)
    requires w' == w[k := a]
    ensures forall j: Key :: SettlementWord(w', j)
                          == (if j == k then (if a.Program? then a.p.settlementHash else EMPTY_HASH)
                              else SettlementWord(w, j))
    ensures forall j: Key :: WithdrawWord(w', j)
                          == (if j == k then (if a.Withdraw? then a.hash else EMPTY_HASH) else WithdrawWord(w, j))
  {
    forall j: Key
      ensures SettlementWord(w', j)
          == (if j == k then (if a.Program? then a.p.settlementHash else EMPTY_HASH) else SettlementWord(w, j))
      ensures WithdrawWord(w', j)
          == (if j == k then (if a.Withdraw? then a.hash else EMPTY_HASH) else WithdrawWord(w, j))
    {
      assert At(w', j) == if j == k then a else At(w, j);
    }
  }

  lemma PreparedWords(env: Env, w: World, w2: World, p1: ProgramState, metas: seq<Meta>, b: WithdrawBatch, raw: Bytes)
    requires |metas| > 1 && At(w, metas[0].key).Program? && At(w, metas[1].key) == Withdraw(metas[0].key, EMPTY_HASH)
    requires p1.settlementHash == SettlementWord(w, metas[0].key)
    requires AmountsOnly(w[metas[0].key := Program(p1)], w2, metas[0].key)
    requires NothingToReport(env, w, metas, b)
    ensures WordsMove(env, w, w2[metas[1].key := Withdraw(metas[0].key, env.sha(raw))], metas,
        PrepareBatchWithdraw(b), raw)
  {
    var w1 := w[metas[0].key := Program(p1)];
    StoreWords(w, w1, metas[0].key, Program(p1));
    AmountsKeepWords(w1, w2, metas[0].key);
    var done := Withdraw(metas[0].key, env.sha(raw));
    StoreWords(w2, w2[metas[1].key := done], metas[1].key, done);
    assert At(w2, metas[1].key) == At(w1, metas[1].key);
  }

  lemma ReportedWords(env: Env, w: World, p1: ProgramState, metas: seq<Meta>, b: WithdrawBatch, raw: Bytes)
    requires |metas| > 1 && At(w, metas[0].key).Program? && At(w, metas[1].key) == Withdraw(metas[0].key, EMPTY_HASH)
    requires p1.settlementHash == SettlementWord(w, metas[0].key)
    requires !NothingToReport(env, w, metas, b)
    ensures WordsMove(env, w, w[metas[0].key := Program(p1)], metas, PrepareBatchWithdraw(b), raw)
  {
    StoreWords(w, w[metas[0].key := Program(p1)], metas[0].key, Program(p1));
  }

  lemma PrepareWithdrawWords(env: Env, w: World, metas: seq<Meta>, b: WithdrawBatch, raw: Bytes)
    requires PrepareWithdraw(env, w, metas, b, raw).Ok?
    ensures WordsMove(env, w, PrepareWithdraw(env, w, metas, b, raw).value, metas, PrepareBatchWithdraw(b), raw)
  {
    var p1 := CheckWithdraw(env, w, metas, b).value;
    CheckWithdrawFrame(env, w, metas, b);
    if p1.events == [] {
      DraftWithdrawFrame(env, w, metas, b, p1);
      var x := DraftWithdraw(env, w[metas[0].key := Program(p1)], metas, b, p1).value;
      PreparedWords(env, w, x.w, p1, metas, b, raw);
    } else {
      ReportedWords(env, w, p1, metas, b, raw);
    }
  }

  lemma PrepareSettlementWords(env: Env, w: World, metas: seq<Meta>, ss: seq<Settlement>, raw: Bytes)
    requires PrepareSettlement(env, w, metas, ss, raw).Ok?
    ensures WordsMove(env, w, PrepareSettlement(env, w, metas, ss, raw).value, metas, PrepareBatchSettlement(ss), raw)
  {
    PrepareSettlementReport(env, w, metas, ss, raw);
    var w' := PrepareSettlement(env, w, metas, ss, raw).value;
    StoreWords(w, w', metas[0].key, At(w', metas[0].key));
  }

  lemma SubmitSettlementWords(env: Env, w: World, metas: seq<Meta>, ss: seq<Settlement>, raw: Bytes)
    requires SubmitSettlement(env, w, metas, ss, raw).Ok?
    ensures WordsMove(env, w, SubmitSettlement(env, w, metas, ss, raw).value, metas, SubmitBatchSettlement(ss), raw)
  {
    var w1 := SettleAll(w, metas, ss).value;
    SettleAllFrame(w, metas, ss);
    AmountsKeepWords(w, w1, metas[0].key);
    var w' := SubmitSettlement(env, w, metas, ss, raw).value;
    StoreWords(w1, w', metas[0].key, w'[metas[0].key]);
    assert At(w1, metas[0].key) == At(w, metas[0].key);
  }

  lemma RollbackWithdrawWords(env: Env, w: World, metas: seq<Meta>, tokens: seq<TokenWithdrawals>, raw: Bytes)
    requires RollbackWithdraw(w, metas, tokens).Ok?
    ensures WordsMove(env, w, RollbackWithdraw(w, metas, tokens).value, metas, RollbackBatchWithdraw(tokens), raw)
  {
    var fee := UpToNul(At(w, metas[0].key).p.feeAccount);
    RefundAllFrame(w, metas, tokens, fee);
    AmountsKeepWords(w, RefundAll(w, metas, tokens, fee).value, metas[0].key);
  }

  lemma InitProgramWords(env: Env, w: World, metas: seq<Meta>, i: Instruction, raw: Bytes)
    requires i.InitProgramState? && InitProgram(env, w, metas, i.feeAccount, i.changeAddress, i.network).Ok?
    ensures WordsMove(env, w, InitProgram(env, w, metas, i.feeAccount, i.changeAddress, i.network).value, metas, i, raw)
  {
  }

  lemma InitTokenWords(env: Env, w: World, metas: seq<Meta>, id: Bytes, raw: Bytes)
    ensures InitToken(env, w, metas, id).Ok?
        ==> WordsMove(env, w, InitToken(env, w, metas, id).value, metas, InitTokenState(id), raw)
    ensures SetRuneId(env, w, metas, id).Ok?
        ==> WordsMove(env, w, SetRuneId(env, w, metas, id).value, metas, SetTokenRuneId(id), raw)
  {
    if InitToken(env, w, metas, id).Ok? {
      var w' := InitToken(env, w, metas, id).value;
      StoreWords(w, w', metas[1].key, w'[metas[1].key]);
    }
    if SetRuneId(env, w, metas, id).Ok? {
      var w' := SetRuneId(env, w, metas, id).value;
      StoreWords(w, w', metas[1].key, w'[metas[1].key]);
    }
  }

  lemma InitReceiverWords(env: Env, w: World, metas: seq<Meta>, raw: Bytes)
    requires InitRuneReceiver(w, metas).Ok?
    ensures WordsMove(env, w, InitRuneReceiver(w, metas).value, metas, InitRuneReceiverState, raw)
  {
  }

  lemma DepositWords(env: Env, w: World, metas: seq<Meta>, ds: seq<TokenDeposits>, raw: Bytes)
    requires DepositBatch(w, metas, ds).Ok?
    ensures WordsMove(env, w, DepositBatch(w, metas, ds).value, metas, BatchDeposit(ds), raw)
  {
    DepositFrame(w, metas, ds);
    AmountsKeepWords(w, DepositAll(w, metas, ds).value, metas[0].key);
  }

  lemma SubmitWithdrawWords(env: Env, w: World, metas: seq<Meta>, programId: Key, b: WithdrawBatch, raw: Bytes)
    requires SubmitWithdraw(env, w, metas, programId, b, raw).Ok?
    ensures WordsMove(env, w, SubmitWithdraw(env, w, metas, programId, b, raw).value.w, metas,
        SubmitBatchWithdraw(b), raw)
  {
    StoreWords(w, SubmitWithdraw(env, w, metas, programId, b, raw).value.w, metas[1].key,
        Withdraw(metas[0].key, EMPTY_HASH));
  }

  lemma RollbackSettlementWords(env: Env, w: World, metas: seq<Meta>, raw: Bytes)
    requires RollbackSettlement(w, metas).Ok?
    ensures WordsMove(env, w, RollbackSettlement(w, metas).value, metas, RollbackBatchSettlement, raw)
  {
    var w' := RollbackSettlement(w, metas).value;
    StoreWords(w, w', metas[0].key, w'[metas[0].key]);
  }

  lemma PerformWords(env: Env, w: World, metas: seq<Meta>, programId: Key, i: Instruction, raw: Bytes)
    requires Perform(env, w, metas, programId, i, raw).Ok?
    ensures WordsMove(env, w, Perform(env, w, metas, programId, i, raw).value, metas, i, raw)
  {
    match i
    case PrepareBatchWithdraw(batch) => PrepareWithdrawWords(env, w, metas, batch, raw);
    case PrepareBatchSettlement(settlements) => PrepareSettlementWords(env, w, metas, settlements, raw);
    case SubmitBatchSettlement(settlements) => SubmitSettlementWords(env, w, metas, settlements, raw);
    case RollbackBatchWithdraw(tokens) => RollbackWithdrawWords(env, w, metas, tokens, raw);
    case InitProgramState(_, _, _) => InitProgramWords(env, w, metas, i, raw);
    case InitTokenState(id) => InitTokenWords(env, w, metas, id, raw);
    case InitRuneReceiverState => InitReceiverWords(env, w, metas, raw);
    case SetTokenRuneId(id) => InitTokenWords(env, w, metas, id, raw);
    case InitWalletBalances(setups) => SetUpTokensKeepWords(env, w, w, metas, setups, At(w, metas[0].key).p.network);
    case BatchDeposit(deposits) => DepositWords(env, w, metas, deposits, raw);
    case SubmitBatchWithdraw(batch) => SubmitWithdrawWords(env, w, metas, programId, batch, raw);
    case RollbackBatchSettlement => RollbackSettlementWords(env, w, metas, raw);
    case UpdateWithdrawStateUtxo(_, _) =>
  }

  // ---------------------------------------------------------------------------
  // Exactly once
  // ---------------------------------------------------------------------------

  /** The bytes of a transaction that its batch hash covers. */
  function RawOf(tx: Tx): Bytes {
    if tx.data == [] then [] else tx.data[1..]
  }

  function WordAsOption(h: Hash): Option<Hash> {
    if h == EMPTY_HASH then None else Some(h)
  }

  /** What a transaction does to the settlement session of program account `owner`. */
  function SettlementEvent(env: Env, w: World, tx: Tx, owner: Key): SessionEvent<Hash> {
    if !Succeeds(env, w, tx) || |tx.metas| == 0 || tx.metas[0].key != owner then Other else
    match InstructionOf(tx).value
    case PrepareBatchSettlement(ss) => if Uncovered(w, tx.metas, ss) == [] then Prepare(env.sha(RawOf(tx))) else Other
    case SubmitBatchSettlement(_) => Submit(env.sha(RawOf(tx)))
    case RollbackBatchSettlement => Clear
    case _ => Other
  }

  /** What a transaction does to the session of withdraw account `account`. */
  function WithdrawEvent(env: Env, w: World, tx: Tx, account: Key): SessionEvent<Hash> {
    if !Succeeds(env, w, tx) || |tx.metas| < 2 || tx.metas[1].key != account then Other else
    match InstructionOf(tx).value
    case PrepareBatchWithdraw(b) => if NothingToReport(env, w, tx.metas, b) then Prepare(env.sha(RawOf(tx))) else Other
    case SubmitBatchWithdraw(_) => Submit(env.sha(RawOf(tx)))
    case RollbackBatchWithdraw(_) => Clear
    case _ => Other
  }

  function SettlementEvents(env: Env, owner: Key): (World, Tx) -> SessionEvent<Hash> {
    (w, tx) => SettlementEvent(env, w, tx, owner)
  }

  function WithdrawEvents(env: Env, account: Key): (World, Tx) -> SessionEvent<Hash> {
    (w, tx) => WithdrawEvent(env, w, tx, account)
  }

  function PreparedSettlement(owner: Key): World -> Option<Hash> {
    (w: World) => WordAsOption(SettlementWord(w, owner))
  }

  function PreparedWithdrawal(account: Key): World -> Option<Hash> {
    (w: World) => WordAsOption(WithdrawWord(w, account))
  }

  predicate AnyWorld(w: World) { true }

  /** A prepare goes through only when its session is idle. */
  lemma PreparesFromIdle(env: Env, w: World, metas: seq<Meta>, programId: Key, i: Instruction, raw: Bytes)
    requires Perform(env, w, metas, programId, i, raw).Ok?
    ensures i.PrepareBatchSettlement? ==> 0 < |metas| && SettlementWord(w, metas[0].key) == EMPTY_HASH
    ensures i.PrepareBatchWithdraw?
        ==> 1 < |metas| && WithdrawWord(w, metas[1].key) == EMPTY_HASH && SettlementWord(w, metas[0].key) == EMPTY_HASH
  {
    if i.PrepareBatchSettlement? {
      PrepareSettlementReport(env, w, metas, i.settlements, raw);
    } else if i.PrepareBatchWithdraw? {
      CheckWithdrawFrame(env, w, metas, i.batch);
    }
  }

  lemma SettlementStep(env: Env, w: World, tx: Tx, owner: Key)
    requires DigestsNonEmpty(env)
    ensures var e := SettlementEvent(env, w, tx, owner);
            && WordAsOption(SettlementWord(Step(env, w, tx), owner)) == After(WordAsOption(SettlementWord(w, owner)), e)
            && (e.Submit? ==> WordAsOption(SettlementWord(w, owner)) == Some(e.id))
  {
    if Succeeds(env, w, tx) {
      var i := InstructionOf(tx).value;
      PerformWords(env, w, tx.metas, tx.programId, i, RawOf(tx));
      if i.PrepareBatchSettlement? {
        PreparesFromIdle(env, w, tx.metas, tx.programId, i, RawOf(tx));
      }
    }
  }

  /** A submit that goes through finds its own digest. */
  lemma WithdrawSubmitFinds(env: Env, w: World, tx: Tx, account: Key)
    requires DigestsNonEmpty(env) && WithdrawEvent(env, w, tx, account).Submit?
    ensures WordAsOption(WithdrawWord(w, account)) == Some(WithdrawEvent(env, w, tx, account).id)
  {
  }

  lemma WithdrawWordMoved(env: Env, w: World, tx: Tx, account: Key)
    ensures WithdrawWord(Step(env, w, tx), account)
         == if Succeeds(env, w, tx) && 1 < |tx.metas| && tx.metas[1].key == account
            then WithdrawWordAfter(env, w, tx.metas, InstructionOf(tx).value, RawOf(tx)) else WithdrawWord(w, account)
  {
    if Succeeds(env, w, tx) {
      PerformWords(env, w, tx.metas, tx.programId, InstructionOf(tx).value, RawOf(tx));
    }
  }

  lemma WithdrawStep(env: Env, w: World, tx: Tx, account: Key)
    requires DigestsNonEmpty(env)
    ensures WordAsOption(WithdrawWord(Step(env, w, tx), account))
         == After(WordAsOption(WithdrawWord(w, account)), WithdrawEvent(env, w, tx, account))
  {
    WithdrawWordMoved(env, w, tx, account);
    if Succeeds(env, w, tx) && InstructionOf(tx).value.PrepareBatchWithdraw? {
      PreparesFromIdle(env, w, tx.metas, tx.programId, InstructionOf(tx).value, RawOf(tx));
    }
  }

  lemma SettlementTracks(env: Env, owner: Key)
    requires DigestsNonEmpty(env)
    ensures Tracks(Stepper(env), SettlementEvents(env, owner), PreparedSettlement(owner), AnyWorld)
  {
    forall w, tx
      ensures WordAsOption(SettlementWord(Step(env, w, tx), owner))
           == After(WordAsOption(SettlementWord(w, owner)), SettlementEvent(env, w, tx, owner))
      ensures SettlementEvent(env, w, tx, owner).Submit?
          ==> WordAsOption(SettlementWord(w, owner)) == Some(SettlementEvent(env, w, tx, owner).id)
    {
      SettlementStep(env, w, tx, owner);
    }
  }

  lemma WithdrawTracks(env: Env, account: Key)
    requires DigestsNonEmpty(env)
    ensures Tracks(Stepper(env), WithdrawEvents(env, account), PreparedWithdrawal(account), AnyWorld)
  {
    forall w, tx
      ensures WordAsOption(WithdrawWord(Step(env, w, tx), account))
           == After(WordAsOption(WithdrawWord(w, account)), WithdrawEvent(env, w, tx, account))
      ensures WithdrawEvent(env, w, tx, account).Submit?
          ==> WordAsOption(WithdrawWord(w, account)) == Some(WithdrawEvent(env, w, tx, account).id)
    {
      WithdrawStep(env, w, tx, account);
      if WithdrawEvent(env, w, tx, account).Submit? {
        WithdrawSubmitFinds(env, w, tx, account);
      }
    }
  }

  /** No two batches of the run have the same digest. */
  ghost predicate CollisionFree(env: Env, txs: seq<Tx>) {
    forall i, j | 0 <= i < |txs| && 0 <= j < |txs| ::
      env.sha(RawOf(txs[i])) == env.sha(RawOf(txs[j])) ==> RawOf(txs[i]) == RawOf(txs[j])
  }

  /** This transaction prepares the batch with these bytes, and goes through with
      nothing to report. */
  predicate PreparesSettlement(env: Env, w: World, tx: Tx, owner: Key, raw: Bytes) {
    && Succeeds(env, w, tx) && 0 < |tx.metas| && tx.metas[0].key == owner && RawOf(tx) == raw
    && InstructionOf(tx).value.PrepareBatchSettlement?
    && Uncovered(w, tx.metas, InstructionOf(tx).value.settlements) == []
  }

  lemma SettlementEventMeans(env: Env, w: World, tx: Tx, owner: Key)
    ensures SettlementEvent(env, w, tx, owner).Prepare?
        ==> PreparesSettlement(env, w, tx, owner, RawOf(tx))
            && SettlementEvent(env, w, tx, owner).id == env.sha(RawOf(tx))
    ensures Succeeds(env, w, tx) && InstructionOf(tx).value.SubmitBatchSettlement? && 0 < |tx.metas|
        && tx.metas[0].key == owner
        ==> SettlementEvent(env, w, tx, owner) == Submit(env.sha(RawOf(tx)))
  {
  }

  /** The earlier transaction that a digest in the session word came from. */
  lemma SettlementSession(env: Env, w: World, txs: seq<Tx>, n: nat, owner: Key) returns (m: nat)
    requires DigestsNonEmpty(env) && n < |txs| && SettlementWord(w, owner) == EMPTY_HASH
    requires SettlementEvent(env, Run(env, w, txs[..n]), txs[n], owner) == Submit(env.sha(RawOf(txs[n])))
    ensures m < n && SettlementEvent(env, Run(env, w, txs[..m]), txs[m], owner) == Prepare(env.sha(RawOf(txs[n])))
    ensures forall j | m < j < n :: SettlementEvent(env, Run(env, w, txs[..j]), txs[j], owner) == Other
  {
    SettlementTracks(env, owner);
    m := ExactlyOnce(Stepper(env), SettlementEvents(env, owner), PreparedSettlement(owner), AnyWorld, w, txs, n);
  }

  /** Every settlement that goes through was prepared earlier, with identical
      bytes, and nothing happened to the session in between. */
  lemma SettlementExactlyOnce(env: Env, w: World, txs: seq<Tx>, n: nat) returns (m: nat)
    requires DigestsNonEmpty(env) && CollisionFree(env, txs) && n < |txs|
    requires Succeeds(env, Run(env, w, txs[..n]), txs[n]) && InstructionOf(txs[n]).value.SubmitBatchSettlement?
    requires 0 < |txs[n].metas| && SettlementWord(w, txs[n].metas[0].key) == EMPTY_HASH
    ensures m < n && PreparesSettlement(env, Run(env, w, txs[..m]), txs[m], txs[n].metas[0].key, RawOf(txs[n]))
    ensures InstructionOf(txs[m]).value.settlements == InstructionOf(txs[n]).value.settlements
    ensures forall j | m < j < n :: SettlementEvent(env, Run(env, w, txs[..j]), txs[j], txs[n].metas[0].key) == Other
  {
    var owner := txs[n].metas[0].key;
    SettlementEventMeans(env, Run(env, w, txs[..n]), txs[n], owner);
    m := SettlementSession(env, w, txs, n, owner);
    SettlementEventMeans(env, Run(env, w, txs[..m]), txs[m], owner);
    SameRawSameBatch(txs[m].data, txs[n].data);
  }

  predicate PreparesWithdrawal(env: Env, w: World, tx: Tx, account: Key, raw: Bytes) {
    && Succeeds(env, w, tx) && 1 < |tx.metas| && tx.metas[1].key == account && RawOf(tx) == raw
    && InstructionOf(tx).value.PrepareBatchWithdraw?
    && NothingToReport(env, w, tx.metas, InstructionOf(tx).value.batch)
  }

  /** A prepare and a submit whose hashes cover the same bytes name the same batch. */
  lemma SameRawSameBatch(prepare: Bytes, submit: Bytes)
    requires Read(prepare).Got? && Read(submit).Got? && prepare[1..] == submit[1..]
    ensures Read(prepare).value.PrepareBatchWithdraw? && Read(submit).value.SubmitBatchWithdraw?
        ==> Read(prepare).value.batch == Read(submit).value.batch
    ensures Read(prepare).value.PrepareBatchSettlement? && Read(submit).value.SubmitBatchSettlement?
        ==> Read(prepare).value.settlements == Read(submit).value.settlements
  {
    TagsOf(prepare);
    TagsOf(submit);
  }

  /** Which tag byte an instruction of the two-phase kinds was read from. */
  lemma TagsOf(s: Bytes)
    requires Read(s).Got?
    ensures Read(s).value.PrepareBatchWithdraw? ==> Read(s).value.batch == ReadWithdrawBatch(s[1..]).value
    ensures Read(s).value.SubmitBatchWithdraw? ==> Read(s).value.batch == ReadWithdrawBatch(s[1..]).value
    ensures Read(s).value.PrepareBatchSettlement? ==> Read(s).value.settlements == ReadVec(ReadSettlement, s[1..]).value
    ensures Read(s).value.SubmitBatchSettlement? ==> Read(s).value.settlements == ReadVec(ReadSettlement, s[1..]).value
  {
    BatchOf(s);
    SettlementsOf(s);
  }

  lemma BatchOf(s: Bytes)
    requires Read(s).Got?
    ensures Read(s).value.PrepareBatchWithdraw? ==> Read(s).value.batch == ReadWithdrawBatch(s[1..]).value
    ensures Read(s).value.SubmitBatchWithdraw? ==> Read(s).value.batch == ReadWithdrawBatch(s[1..]).value
  {
    if s[0] == 4 || s[0] == 9 {
      BatchAt(s[0], s[1..]);
    }
  }

  lemma BatchAt(tag: u8, r: Bytes)
    requires (tag == 4 || tag == 9) && ReadParams(tag, r).Got?
    ensures ReadParams(tag, r).value
         == var b := ReadWithdrawBatch(r).value; if tag == 4 then PrepareBatchWithdraw(b) else SubmitBatchWithdraw(b)
  {
  }

  lemma SettlementsOf(s: Bytes)
    requires Read(s).Got?
    ensures Read(s).value.PrepareBatchSettlement? ==> Read(s).value.settlements == ReadVec(ReadSettlement, s[1..]).value
    ensures Read(s).value.SubmitBatchSettlement? ==> Read(s).value.settlements == ReadVec(ReadSettlement, s[1..]).value
  {
    if s[0] == 5 || s[0] == 6 {
      SettlementsAt(s[0], s[1..]);
    }
  }

  lemma SettlementsAt(tag: u8, r: Bytes)
    requires (tag == 5 || tag == 6) && ReadParams(tag, r).Got?
    ensures ReadParams(tag, r).value
         == var ss := ReadVec(ReadSettlement, r).value; if tag == 5 then PrepareBatchSettlement(ss)
             else SubmitBatchSettlement(ss)
  {
  }

  lemma WithdrawEventMeans(env: Env, w: World, tx: Tx, account: Key)
    ensures WithdrawEvent(env, w, tx, account).Prepare?
        ==> PreparesWithdrawal(env, w, tx, account, RawOf(tx))
            && WithdrawEvent(env, w, tx, account).id == env.sha(RawOf(tx))
    ensures Succeeds(env, w, tx) && InstructionOf(tx).value.SubmitBatchWithdraw? && 1 < |tx.metas|
        && tx.metas[1].key == account
        ==> WithdrawEvent(env, w, tx, account) == Submit(env.sha(RawOf(tx)))
  {
  }

  /** The earlier transaction that a digest in the session word came from. */
  lemma WithdrawalSession(env: Env, w: World, txs: seq<Tx>, n: nat, account: Key) returns (m: nat)
    requires DigestsNonEmpty(env) && n < |txs| && WithdrawWord(w, account) == EMPTY_HASH
    requires WithdrawEvent(env, Run(env, w, txs[..n]), txs[n], account) == Submit(env.sha(RawOf(txs[n])))
    ensures m < n && WithdrawEvent(env, Run(env, w, txs[..m]), txs[m], account) == Prepare(env.sha(RawOf(txs[n])))
    ensures forall j | m < j < n :: WithdrawEvent(env, Run(env, w, txs[..j]), txs[j], account) == Other
  {
    WithdrawTracks(env, account);
    m := ExactlyOnce(Stepper(env), WithdrawEvents(env, account), PreparedWithdrawal(account), AnyWorld, w, txs, n);
  }

  /** Every withdrawal batch that is submitted was prepared earlier, with identical
      bytes, and nothing happened to the session in between. */
  lemma WithdrawalExactlyOnce(env: Env, w: World, txs: seq<Tx>, n: nat) returns (m: nat)
    requires DigestsNonEmpty(env) && CollisionFree(env, txs) && n < |txs|
    requires Succeeds(env, Run(env, w, txs[..n]), txs[n]) && InstructionOf(txs[n]).value.SubmitBatchWithdraw?
    requires 1 < |txs[n].metas| && WithdrawWord(w, txs[n].metas[1].key) == EMPTY_HASH
    ensures m < n && PreparesWithdrawal(env, Run(env, w, txs[..m]), txs[m], txs[n].metas[1].key, RawOf(txs[n]))
    ensures InstructionOf(txs[m]).value.batch == InstructionOf(txs[n]).value.batch
    ensures forall j | m < j < n :: WithdrawEvent(env, Run(env, w, txs[..j]), txs[j], txs[n].metas[1].key) == Other
  {
    var account := txs[n].metas[1].key;
    WithdrawEventMeans(env, Run(env, w, txs[..n]), txs[n], account);
    m := WithdrawalSession(env, w, txs, n, account);
    WithdrawEventMeans(env, Run(env, w, txs[..m]), txs[m], account);
    SameRawSameBatch(txs[m].data, txs[n].data);
  }

  /** What a rollback finds: after any run, a withdrawal is pending if and only if
      some transaction of the run prepared it, and none since has submitted it or
      rolled it back.  A rollback looks at neither, so that it goes through in
      either case; ArchWitness has one that nothing was prepared for. */
  lemma PendingIff(env: Env, w: World, txs: seq<Tx>, account: Key, d: Hash)
    requires DigestsNonEmpty(env) && WithdrawWord(w, account) == EMPTY_HASH && d != EMPTY_HASH
    ensures WithdrawWord(Run(env, w, txs), account) == d
        <==> exists m :: Sessions.StillOpen(Stepper(env), WithdrawEvents(env, account), w, txs, m, d)
  {
    WithdrawTracks(env, account);
    BusyIff(Stepper(env), WithdrawEvents(env, account), PreparedWithdrawal(account), AnyWorld, w, txs, d);
  }
}
