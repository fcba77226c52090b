/** Whole transactions of the Arch exchange program: decode, dispatch, and put
    everything back when something fails. */
module ArchProcess {
  import opened Machine
  import opened Wrappers
  import opened ArchTypes
  import opened ArchLedger
  import opened ArchAccounts
  import opened ArchProgram
  import opened ArchWithdrawProgram
  import opened ArchWire

  method Dispatch(env: Env, programId: Key, accounts: seq<AccountInfo>, i: Instruction, raw: Bytes, ghost w: World)
    returns (r: Result<()>, toSign: Option<ToSign>)
    requires Agrees(accounts, w, w) && OnePerKey(accounts) && Fresh(accounts, w)
    modifies accounts
    ensures Achieves(accounts, w, r, Perform(env, w, Metas(accounts), programId, i, raw))
    ensures toSign.Some? ==> i.SubmitBatchWithdraw?
    ensures i.SubmitBatchWithdraw? && r.Ok? ==>
      toSign == Some(SubmitWithdraw(env, w, Metas(accounts), programId, i.batch, raw).value.toSign)
  {
    toSign := None;
    match i
    case InitProgramState(fee, change, network) => r :=
        ArchProgram.InitProgramState(env, accounts, fee, change, network, w);
    case InitTokenState(id) => r := ArchProgram.InitTokenState(env, accounts, id, w);
    case InitWalletBalances(setups) => r := ArchProgram.InitWalletBalances(env, accounts, setups, w);
    case BatchDeposit(deposits) => r := ArchProgram.DepositBatch(accounts, deposits, w);
    case PrepareBatchWithdraw(batch) => r := PrepareWithdrawBatch(env, accounts, batch, raw, w);
    case PrepareBatchSettlement(settlements) => r := PrepareSettlementBatch(env, accounts, settlements, raw, w);
    case SubmitBatchSettlement(settlements) => r := SubmitSettlementBatch(env, accounts, settlements, raw, w);
    case RollbackBatchSettlement => r := RollbackSettlementBatch(accounts, w);
    case RollbackBatchWithdraw(tokens) => r := RollbackWithdrawBatch(accounts, tokens, w);
    case SubmitBatchWithdraw(batch) =>
      var tx := SubmitWithdrawBatch(env, programId, accounts, batch, raw, w);
      r := Checked(tx);
      toSign := if tx.Ok? then Some(tx.value) else None;
    case UpdateWithdrawStateUtxo(txId, _) => r := ArchWithdrawProgram.UpdateWithdrawStateUtxo(env, accounts, txId, w);
    case InitRuneReceiverState => r := ArchProgram.InitRuneReceiverState(accounts, w);
    case SetTokenRuneId(id) => r := ArchProgram.SetTokenRuneId(env, accounts, id, w);
  }

  /** process_instruction. */
  method ProcessInstruction(env: Env, programId: Key, accounts: seq<AccountInfo>, data: Bytes, ghost w: World)
    returns (r: Result<()>, toSign: Option<ToSign>)
    requires Agrees(accounts, w, w) && OnePerKey(accounts) && Fresh(accounts, w)
    modifies accounts
    ensures Achieves(accounts, w, r, Process(env, w, Metas(accounts), programId, data))
  {
    var reader := new Reader(data);
    var i := reader.DecodeInstruction();
    if i.Err? {
      return Err(i.error), None;
    }
    r, toSign := Dispatch(env, programId, accounts, i.value, data[1..], w);
  }

  /** The data of all accounts. */
  method Snapshot(accounts: seq<AccountInfo>, ghost w: World) returns (saved: seq<Bytes>)
    requires Agrees(accounts, w, w)
    ensures Saved(accounts, saved, w)
  {
    saved := [];
    for i := 0 to |accounts|
      invariant |saved| == i && forall j | 0 <= j < i :: saved[j] == accounts[j].data
    {
      saved := saved + [accounts[i].data];
    }
  }

  /** Data with which the accounts agree with `w`. */
  ghost predicate Saved(accounts: seq<AccountInfo>, saved: seq<Bytes>, w: World) {
    && |saved| == |accounts|
    && (forall i, j | 0 <= i < |accounts| && 0 <= j < |accounts| && accounts[i] == accounts[j] :: saved[i] == saved[j])
    && forall i | 0 <= i < |accounts| :: accounts[i].Holds(saved[i], At(w, accounts[i].key))
  }

  method AllFit(accounts: seq<AccountInfo>) returns (fits: bool)
    ensures fits <==> forall i | 0 <= i < |accounts| :: |accounts[i].data| <= MAX_PERMITTED_DATA_LENGTH
  {
    for i := 0 to |accounts|
      invariant forall j | 0 <= j < i :: |accounts[j].data| <= MAX_PERMITTED_DATA_LENGTH
    {
      if |accounts[i].data| > MAX_PERMITTED_DATA_LENGTH {
        return false;
      }
    }
    return true;
  }

  /** What is kept of an outcome. */
  function Kept(w: World, outcome: Result<World>): World {
    match outcome
    case Err(_) => w
    case Ok(w') => if Storable(w') then w' else w
  }

  /** Keep the accounts as they are, or put them back. */
  method KeepOrRestore(accounts: seq<AccountInfo>, r: Result<()>, saved: seq<Bytes>, ghost w: World,
                       ghost outcome: Result<World>)
    returns (kept: bool)
    requires OnePerKey(accounts) && Storable(w) && Saved(accounts, saved, w) && Achieves(accounts, w, r, outcome)
    modifies accounts
    ensures Agrees(accounts, w, Kept(w, outcome))
  {
    kept := false;
    if r.Ok? {
      StorableIff(accounts, w, outcome.value);
      kept := AllFit(accounts);
    }
    if !kept {
      RestoreAll(accounts, saved, w);
    }
  }

  /** Run a transaction; an error, a panic or an account that has become too large
      leaves all accounts as they were. */
  method ProcessTransaction(env: Env, programId: Key, accounts: seq<AccountInfo>, data: Bytes, ghost w: World)
    returns (toSign: Option<ToSign>)
    requires Agrees(accounts, w, w) && OnePerKey(accounts) && Fresh(accounts, w) && Storable(w)
    modifies accounts
    ensures Agrees(accounts, w, Step(env, w, Tx(Metas(accounts), programId, data)))
  {
    var saved := Snapshot(accounts, w);
    var r;
    r, toSign := ProcessInstruction(env, programId, accounts, data, w);
    ghost var outcome := Process(env, w, Metas(accounts), programId, data);
    var kept := KeepOrRestore(accounts, r, saved, w, outcome);
    StepKeeps(env, w, Tx(Metas(accounts), programId, data));
    if !kept {
      toSign := None;
    }
  }

  lemma StepKeeps(env: Env, w: World, tx: Tx)
    ensures Step(env, w, tx) == Kept(w, Process(env, w, tx.metas, tx.programId, tx.data))
  {
  }

  lemma StorableIff(accounts: seq<AccountInfo>, base: World, w: World)
    requires Agrees(accounts, base, w) && Storable(base)
    ensures Storable(w) <==> forall i | 0 <= i < |accounts| :: |accounts[i].data| <= MAX_PERMITTED_DATA_LENGTH
  {
    if forall i | 0 <= i < |accounts| :: |accounts[i].data| <= MAX_PERMITTED_DATA_LENGTH {
      forall k | k in w ensures SizeOf(w[k]) <= MAX_PERMITTED_DATA_LENGTH {
        if Listed(accounts, k) {
          var a :| a in accounts && a.key == k;
          assert a.rec == At(w, k);
        } else {
          assert At(w, k) == At(base, k);
        }
      }
    } else {
      var i :| 0 <= i < |accounts| && |accounts[i].data| > MAX_PERMITTED_DATA_LENGTH;
      assert accounts[i] in accounts;
      assert accounts[i].rec == At(w, accounts[i].key) && SizeOf(accounts[i].rec) == |accounts[i].data|;
    }
  }

  /** Put back the data that the accounts had when they agreed with `w`. */
  method RestoreAll(accounts: seq<AccountInfo>, saved: seq<Bytes>, ghost w: World)
    requires OnePerKey(accounts) && Saved(accounts, saved, w)
    modifies accounts
    ensures Agrees(accounts, w, w)
  {
    for i := 0 to |accounts|
      invariant forall j | 0 <= j < i :: accounts[j].data == saved[j] && accounts[j].rec == At(w, accounts[j].key)
    {
      accounts[i].Restore(saved[i], At(w, accounts[i].key));
    }
    forall a | a in accounts ensures a.Valid() && a.rec == At(w, a.key) {
      var i :| 0 <= i < |accounts| && accounts[i] == a;
      assert accounts[i].Holds(saved[i], At(w, accounts[i].key));
    }
  }
}
