/** What holds of Exchange.sol over every run: solvency, one application per
    prepared batch, and the sovereign withdrawal delay. */
module ExchangeTheorems {
  import opened Wrappers
  import opened SolidityLedger
  import opened ExchangeModel
  import opened Sessions

  /** The state after deployment. */
  function Deployed(owner: Address, submitter: Address, feeAccount: Address, delay: Uint256): State {
    State(map[], submitter, feeAccount, Zero, Zero, Zero, map[], delay, map[], owner, map[])
  }

  // ---------------------------------------------------------------------------
  // Solvency
  // ---------------------------------------------------------------------------

  /** What the contract holds of a token beyond what it owes. */
  ghost function Slack(s: State, t: Address): int {
    Held(s.holdings, t) - Owed(s.balances, t)
  }

  /** The part of the storage that money movements never touch. */
  ghost predicate SameControl(s: State, s': State) {
    s' == s.(balances := s'.balances, holdings := s'.holdings)
  }

  lemma CreditDepositKeepsSlack(s: State, sender: Address, token: Address, amount: Uint256, t: Address)
    requires CreditDeposit(s, sender, token, amount).Some?
    ensures Slack(CreditDeposit(s, sender, token, amount).value, t) == Slack(s, t)
  {
    OwedAfterStore(s.balances, sender, token, BalanceOf(s.balances, sender, token) + amount, t);
  }

  lemma WithdrawKeepsSlack(s: State, msg: Msg, sender: Address, token: Address, amount: Uint256, fee: Uint256,
                           t: Address)
    requires Withdraw(s, msg, sender, token, amount, fee).Some?
    ensures Slack(Withdraw(s, msg, sender, token, amount, fee).value, t) == Slack(s, t)
    ensures SameControl(s, Withdraw(s, msg, sender, token, amount, fee).value)
  {
    if amount <= BalanceOf(s.balances, sender, token) {
      OwedAfterStore(s.balances, sender, token, BalanceOf(s.balances, sender, token) - amount, t);
      var b1 := Sub(s.balances, sender, token, amount).value;
      OwedAfterStore(b1, s.feeAccount, token, BalanceOf(b1, s.feeAccount, token) + fee, t);
    }
  }

  lemma WithdrawOneKeepsSlack(abi: Abi, s: State, msg: Msg, item: Bytes, t: Address)
    requires WithdrawOne(abi, s, msg, item).Some?
    ensures var s' := WithdrawOne(abi, s, msg, item).value; Slack(s', t) == Slack(s, t) && s'.batchHash == s.batchHash
  {
    var w := abi.withdrawal(item).value;
    var balance := BalanceOf(s.balances, w.sender, w.token);
    var pending := w.zeroSignature && IsPendingSovereign(s.sovereignWithdrawals, w);
    if pending || (w.recovered.Some? && SignatureAccepted(s.linkedSigners, w.sender, w.recovered.value)) {
      if !w.all {
        WithdrawKeepsSlack(s, msg, w.sender, w.token, w.amount, w.fee, t);
      } else if w.fee < balance {
        WithdrawKeepsSlack(s, msg, w.sender, w.token, if w.amount > balance then balance else w.amount, w.fee, t);
      }
    }
  }

  lemma {:induction false} WithdrawManyKeepsSlack(abi: Abi, s: State, msg: Msg, items: seq<Bytes>, t: Address)
    requires WithdrawMany(abi, s, msg, items).Some?
    ensures var s' := WithdrawMany(abi, s, msg, items).value; Slack(s', t) == Slack(s, t) && s'.batchHash == s.batchHash
    decreases |items|
  {
    if items != [] {
      WithdrawOneKeepsSlack(abi, s, msg, items[0], t);
      WithdrawManyKeepsSlack(abi, WithdrawOne(abi, s, msg, items[0]).value, msg, items[1..], t);
    }
  }

  lemma SovereignKeepsSlack(s: State, msg: Msg, token: Address, amount: Uint256, t: Address)
    requires Sovereign(s, msg, token, amount).Some?
    ensures var s' := Sovereign(s, msg, token, amount).value; Slack(s', t) == Slack(s, t) && s'.batchHash == s.batchHash
  {
    var request := RequestOf(s.sovereignWithdrawals, msg.sender);
    if request.timestamp != 0 && request.token == token && request.amount == amount {
      var out := if request.amount == 0 then BalanceOf(s.balances, msg.sender, token) else request.amount;
      WithdrawKeepsSlack(s, msg, msg.sender, request.token, out, 0, t);
    }
  }

  /** The cast imbalance that a transaction applies in a token: nothing unless it
      is a settlement that goes through. */
  function Minted(abi: Abi, s: State, tx: Tx, t: Address): int {
    if tx.call.SubmitSettlementBatch? && Perform(abi, s, tx).Some?
    then TokenImbalance(abi.batch(tx.call.data).value.lists, t) else 0
  }

  lemma PreparedNets(abi: Abi, s: State, data: Bytes)
    requires PendingNets(abi.batch, s.batchHash) && PrepareSettlement(abi, s, data).Some?
    ensures var s' := PrepareSettlement(abi, s, data).value;
            PendingNets(abi.batch, s'.batchHash) && s' == s.(batchHash := s'.batchHash)
  {
    var batch := abi.batch(data).value;
    VerifiedNets(s.balances, batch.wallets, true, batch.lists);
  }

  lemma SubmittedSlack(abi: Abi, s: State, data: Bytes, t: Address)
    requires PendingNets(abi.batch, s.batchHash) && SubmitSettlement(abi, s, data).Some?
    ensures var s' := SubmitSettlement(abi, s, data).value;
            && s'.batchHash == Zero
            && Slack(s', t) == Slack(s, t) - U256 * TokenImbalance(abi.batch(data).value.lists, t)
  {
    var batch := abi.batch(data).value;
    ListsOwed(s.balances, batch.wallets, s.feeAccount, batch.lists, t);
  }

  lemma StepSlack(abi: Abi, s: State, tx: Tx, t: Address)
    requires PendingNets(abi.batch, s.batchHash)
    ensures PendingNets(abi.batch, Step(abi, s, tx).batchHash)
    ensures Slack(Step(abi, s, tx), t) == Slack(s, t) - U256 * Minted(abi, s, tx, t)
  {
    if Perform(abi, s, tx).Some? {
      match tx.call
      case Receive(value) => CreditDepositKeepsSlack(s, tx.msg.sender, NATIVE, value, t);
      case Deposit(token, amount) => CreditDepositKeepsSlack(s, tx.msg.sender, token, amount, t);
      case SovereignWithdrawal(token, amount) => SovereignKeepsSlack(s, tx.msg, token, amount, t);
      case SubmitWithdrawals(items) => WithdrawManyKeepsSlack(abi, s, tx.msg, items, t);
      case PrepareSettlementBatch(data) => PreparedNets(abi, s, data);
      case SubmitSettlementBatch(data) => SubmittedSlack(abi, s, data, t);
      case _ =>
    }
  }

  function MintedOver(abi: Abi, s: State, txs: seq<Tx>, t: Address): int {
    if txs == [] then 0 else
    var front := txs[..|txs| - 1];
    MintedOver(abi, s, front, t) + Minted(abi, Run(abi, s, front), txs[|txs| - 1], t)
  }

  /** The ledger identity of any run whatsoever: holdings and debts move together
      except for the cast imbalance of the settlements that went through. */
  lemma {:induction false} RunSlack(abi: Abi, s: State, txs: seq<Tx>, t: Address)
    requires PendingNets(abi.batch, s.batchHash)
    ensures PendingNets(abi.batch, Run(abi, s, txs).batchHash)
    ensures Slack(Run(abi, s, txs), t) == Slack(s, t) - U256 * MintedOver(abi, s, txs, t)
  {
    if txs != [] {
      var front := txs[..|txs| - 1];
      RunSlack(abi, s, front, t);
      StepSlack(abi, Run(abi, s, front), txs[|txs| - 1], t);
    }
  }

  /** From deployment on, the contract owes no more of a token than it holds if
      and only if the settlements that went through credited no more
      beyond-int256 amounts of that token than they debited. */
  lemma SolventIff(abi: Abi, owner: Address, submitter: Address, feeAccount: Address, delay: Uint256, txs: seq<Tx>,
                   t: Address)
    ensures var s0 := Deployed(owner, submitter, feeAccount, delay);
            Owed(Run(abi, s0, txs).balances, t) <= Held(Run(abi, s0, txs).holdings, t)
            <==> MintedOver(abi, s0, txs, t) <= 0
  {
    RunSlack(abi, Deployed(owner, submitter, feeAccount, delay), txs, t);
  }

  lemma WitnessPrepared(s: State, abi: Abi, m: Msg, batch: Batch)
    requires s.batchHash == Zero && m.sender == s.submitter && abi.batch([]) == Some(batch)
    requires Verify(s.balances, batch) == Some(true)
    ensures Step(abi, s, Tx(m, PrepareSettlementBatch([]))) == s.(batchHash := Keccak([]))
  {
  }

  lemma WitnessApplied(s: State, abi: Abi, m: Msg, batch: Batch, b: Ledger)
    requires s.batchHash == Keccak([]) && m.sender == s.submitter && abi.batch([]) == Some(batch)
    requires Apply(s.balances, s.feeAccount, batch) == Some(b)
    ensures Step(abi, s, Tx(m, SubmitSettlementBatch([])))
         == s.(balances := b, lastSettlementBatchHash := Keccak([]), batchHash := Zero)
  {
  }

  /** Two transactions to a new contract after which it owes 2^256 of a token of
      which it holds nothing: the batch with the wrapping amount, prepared and
      submitted. */
  lemma InsolventRun(m: Msg, owner: Address, delay: Uint256)
    ensures var batch := Batch([1], 1, [TokenList(7, [Adjustment(0, U256 - 5)], [], 5)]);
            var abi := Abi(_ => Some(batch), _ => None, (_, _) => None);
            var s0 := Deployed(owner, m.sender, 2, delay);
            var s := Run(abi, s0, [Tx(m, PrepareSettlementBatch([])), Tx(m, SubmitSettlementBatch([]))]);
            Owed(s.balances, 7) == U256 && Held(s.holdings, 7) == 0
  {
    var batch := Batch([1], 1, [TokenList(7, [Adjustment(0, U256 - 5)], [], 5)]);
    var abi := Abi(_ => Some(batch), _ => None, (_, _) => None);
    var s0 := Deployed(owner, m.sender, 2, delay);
    var prepare, submit := Tx(m, PrepareSettlementBatch([])), Tx(m, SubmitSettlementBatch([]));
    var b: Ledger := map[(1, 7) := U256 - 5, (2, 7) := 5];
    CastMintsWitness();
    WitnessPrepared(s0, abi, m, batch);
    WitnessApplied(s0.(batchHash := Keccak([])), abi, m, batch, b);
    assert [prepare, submit][..1] == [prepare] && [prepare][..0] == [];
    assert Run(abi, s0, [prepare]) == Step(abi, Run(abi, s0, []), prepare);
    assert Run(abi, s0, [prepare, submit]) == Step(abi, Run(abi, s0, [prepare]), submit);
    OwedAfterStore(map[], 1, 7, U256 - 5, 7);
    OwedAfterStore(map[(1, 7) := U256 - 5], 2, 7, 5, 7);
    assert map[(1, 7) := U256 - 5][(2, 7) := 5] == b;
  }

  /** Every settlement submitted in the run keeps its amounts below 2^255. */
  ghost predicate SubmitsFitInt256(abi: Abi, txs: seq<Tx>) {
    forall tx | tx in txs && tx.call.SubmitSettlementBatch? && abi.batch(tx.call.data).Some? ::
      forall l | l in abi.batch(tx.call.data).value.lists :: FitsInt256(l)
  }

  lemma {:induction false} FittingMintsNothing(abi: Abi, s: State, txs: seq<Tx>, t: Address)
    requires SubmitsFitInt256(abi, txs)
    ensures MintedOver(abi, s, txs, t) == 0
  {
    if txs != [] {
      var front, last := txs[..|txs| - 1], txs[|txs| - 1];
      FittingMintsNothing(abi, s, front, t);
      if last.call.SubmitSettlementBatch? && abi.batch(last.call.data).Some? {
        assert last in txs;
        SmallBatchBalanced(abi.batch(last.call.data).value.lists, t);
      }
    }
  }

  /** Solvency over every run: holdings and debts are equal in every token, so a
      withdrawal is never refused for want of funds in the contract. */
  lemma Solvency(abi: Abi, owner: Address, submitter: Address, feeAccount: Address, delay: Uint256, txs: seq<Tx>,
                 t: Address, wallet: Address)
    requires SubmitsFitInt256(abi, txs)
    ensures var s := Run(abi, Deployed(owner, submitter, feeAccount, delay), txs);
            Owed(s.balances, t) == Held(s.holdings, t) && BalanceOf(s.balances, wallet, t) <= Held(s.holdings, t)
  {
    var s0 := Deployed(owner, submitter, feeAccount, delay);
    RunSlack(abi, s0, txs, t);
    FittingMintsNothing(abi, s0, txs, t);
    BalanceAtMostOwed(Run(abi, s0, txs).balances, wallet, t);
  }

  // ---------------------------------------------------------------------------
  // Exactly-once settlement
  // ---------------------------------------------------------------------------

  /** What a transaction does to the settlement session. */
  function SettlementEvent(abi: Abi, s: State, tx: Tx): SessionEvent<Bytes> {
    if Perform(abi, s, tx).None? then Other else
    match tx.call
    case PrepareSettlementBatch(data) => if Step(abi, s, tx).batchHash != Zero then Prepare(data) else Other
    case SubmitSettlementBatch(data) => Submit(data)
    case RollbackBatch => Clear
    case _ => Other
  }

  lemma WithdrawalsKeepHash(abi: Abi, s: State, tx: Tx)
    requires tx.call.SubmitWithdrawals? || tx.call.SovereignWithdrawal?
    ensures Step(abi, s, tx).batchHash == s.batchHash
  {
    if Perform(abi, s, tx).Some? {
      match tx.call
      case SubmitWithdrawals(items) => WithdrawManyKeepsSlack(abi, s, tx.msg, items, NATIVE);
      case SovereignWithdrawal(token, amount) => SovereignKeepsSlack(s, tx.msg, token, amount, NATIVE);
    }
  }

  function SettlementEvents(abi: Abi): (State, Tx) -> SessionEvent<Bytes> {
    (s, tx) => SettlementEvent(abi, s, tx)
  }

  function PreparedBatch(): State -> Option<Bytes> {
    (s: State) => Preimage(s.batchHash)
  }

  /** The batch hash is empty or the digest of one batch. */
  function OneDigest(): State -> bool {
    (s: State) => !s.batchHash.OfHashes?
  }

  lemma SettlementTracks(abi: Abi)
    ensures Tracks(Stepper(abi), SettlementEvents(abi), PreparedBatch(), OneDigest())
  {
    forall s, tx | OneDigest()(s)
      ensures OneDigest()(Step(abi, s, tx))
      ensures PreparedBatch()(Step(abi, s, tx)) == After(PreparedBatch()(s), SettlementEvent(abi, s, tx))
      ensures SettlementEvent(abi, s, tx).Submit? ==> PreparedBatch()(s) == Some(SettlementEvent(abi, s, tx).id)
    {
      if tx.call.SubmitWithdrawals? || tx.call.SovereignWithdrawal? {
        WithdrawalsKeepHash(abi, s, tx);
      }
    }
  }

  /** Exactly once: a settlement that goes through was prepared earlier with the
      same bytes, and nothing was prepared, submitted or rolled back in between. */
  lemma SettlementExactlyOnce(abi: Abi, s: State, txs: seq<Tx>, n: nat) returns (m: nat)
    requires s.batchHash == Zero
    requires n < |txs| && txs[n].call.SubmitSettlementBatch? && Perform(abi, Run(abi, s, txs[..n]), txs[n]).Some?
    ensures m < n && SettlementEvent(abi, Run(abi, s, txs[..m]), txs[m]) == Prepare(txs[n].call.data)
    ensures forall j | m < j < n :: SettlementEvent(abi, Run(abi, s, txs[..j]), txs[j]) == Other
  {
    SettlementTracks(abi);
    m := ExactlyOnce(Stepper(abi), SettlementEvents(abi), PreparedBatch(), OneDigest(), s, txs, n);
  }

  // ---------------------------------------------------------------------------
  // The sovereign withdrawal delay
  // ---------------------------------------------------------------------------

  /** This transaction completes a stored request of its sender. */
  predicate Completes(abi: Abi, s: State, tx: Tx) {
    && tx.call.SovereignWithdrawal?
    && Perform(abi, s, tx).Some?
    && tx.msg.sender in s.sovereignWithdrawals
    && var request := s.sovereignWithdrawals[tx.msg.sender];
       request.timestamp != 0 && request.token == tx.call.token && request.amount == tx.call.amount
  }

  /** What a transaction does to the stored request of `user`. */
  function RequestEvent(abi: Abi, s: State, tx: Tx, user: Address): SessionEvent<Request> {
    if Perform(abi, s, tx).None? then Other
    else if tx.call.SovereignWithdrawal? && tx.msg.sender == user then
      if Completes(abi, s, tx) then Submit(s.sovereignWithdrawals[user])
      else Prepare(Request(tx.call.token, tx.call.amount, tx.msg.timestamp))
    else if user in s.sovereignWithdrawals && user !in Step(abi, s, tx).sovereignWithdrawals then Clear
    else Other
  }

  /** Withdrawal batches only ever delete requests. */
  lemma {:induction false} WithdrawManyDeletes(abi: Abi, s: State, msg: Msg, items: seq<Bytes>, user: Address)
    requires WithdrawMany(abi, s, msg, items).Some?
    ensures var left := WithdrawMany(abi, s, msg, items).value.sovereignWithdrawals;
            user in left ==> user in s.sovereignWithdrawals && left[user] == s.sovereignWithdrawals[user]
    decreases |items|
  {
    if items != [] {
      var s1 := WithdrawOne(abi, s, msg, items[0]).value;
      assert forall u | u in s1.sovereignWithdrawals ::
          u in s.sovereignWithdrawals && s1.sovereignWithdrawals[u] == s.sovereignWithdrawals[u];
      WithdrawManyDeletes(abi, s1, msg, items[1..], user);
    }
  }

  function Stored(s: State, user: Address): Option<Request> {
    if user in s.sovereignWithdrawals then Some(s.sovereignWithdrawals[user]) else None
  }

  lemma StepRequest(abi: Abi, s: State, tx: Tx, user: Address)
    ensures var e := RequestEvent(abi, s, tx, user);
            && Stored(Step(abi, s, tx), user) == After(Stored(s, user), e)
            && (e.Submit? ==> Stored(s, user) == Some(e.id))
  {
    if Perform(abi, s, tx).Some? && tx.call.SubmitWithdrawals? {
      WithdrawManyDeletes(abi, s, tx.msg, tx.call.items, user);
    }
  }

  function RequestEvents(abi: Abi, user: Address): (State, Tx) -> SessionEvent<Request> {
    (s, tx) => RequestEvent(abi, s, tx, user)
  }

  function StoredFor(user: Address): State -> Option<Request> {
    (s: State) => Stored(s, user)
  }

  predicate AnyState(s: State) { true }

  lemma RequestTracks(abi: Abi, user: Address)
    ensures Tracks(Stepper(abi), RequestEvents(abi, user), StoredFor(user), AnyState)
  {
    forall s, tx
      ensures Stored(Step(abi, s, tx), user) == After(Stored(s, user), RequestEvent(abi, s, tx, user))
      ensures RequestEvent(abi, s, tx, user).Submit? ==> Stored(s, user) == Some(RequestEvent(abi, s, tx, user).id)
    {
      StepRequest(abi, s, tx, user);
    }
  }

  /** Every sovereign payout at time t follows a request by the same sender for
      the same token and amount, made at some t' with t >= t' + the delay then in
      force.  That request was neither replaced, paid out nor deleted by a
      withdrawal batch in between, so each request pays at most once. */
  lemma SovereignDelay(abi: Abi, s: State, txs: seq<Tx>, n: nat) returns (m: nat)
    requires s.sovereignWithdrawals == map[]
    requires n < |txs| && Completes(abi, Run(abi, s, txs[..n]), txs[n])
    ensures m < n && txs[m].msg.sender == txs[n].msg.sender && txs[m].call == txs[n].call
    ensures Perform(abi, Run(abi, s, txs[..m]), txs[m]).Some? && !Completes(abi, Run(abi, s, txs[..m]), txs[m])
    ensures txs[n].msg.timestamp >= txs[m].msg.timestamp + Run(abi, s, txs[..n]).sovereignWithdrawalDelay
    ensures forall j | m < j < n :: RequestEvent(abi, Run(abi, s, txs[..j]), txs[j], txs[n].msg.sender) == Other
  {
    var user := txs[n].msg.sender;
    RequestTracks(abi, user);
    m := ExactlyOnce(Stepper(abi), RequestEvents(abi, user), StoredFor(user), AnyState, s, txs, n);
  }

  // ---------------------------------------------------------------------------
  // Whose signature a withdrawal needs
  // ---------------------------------------------------------------------------

  /** What a transaction does to the signer linked to `user`. */
  function LinkEvent(abi: Abi, s: State, tx: Tx, user: Address): SessionEvent<Address> {
    if tx.msg.sender != user then Other else
    match tx.call
    case LinkSigner(a, digest, signature) =>
      if a != 0 && abi.recover(digest, signature) == Some(a) then Prepare(a) else Other
    case RemoveLinkedSigner => Clear
    case _ => Other
  }

  function LinkEvents(abi: Abi, user: Address): (State, Tx) -> SessionEvent<Address> {
    (s, tx) => LinkEvent(abi, s, tx, user)
  }

  function Linked(s: State, user: Address): Option<Address> {
    if user in s.linkedSigners then Some(s.linkedSigners[user]) else None
  }

  function LinkedTo(user: Address): State -> Option<Address> {
    (s: State) => Linked(s, user)
  }

  lemma {:induction false} WithdrawManyKeepsSigners(abi: Abi, s: State, msg: Msg, items: seq<Bytes>)
    requires WithdrawMany(abi, s, msg, items).Some?
    ensures WithdrawMany(abi, s, msg, items).value.linkedSigners == s.linkedSigners
    decreases |items|
  {
    if items != [] {
      WithdrawManyKeepsSigners(abi, WithdrawOne(abi, s, msg, items[0]).value, msg, items[1..]);
    }
  }

  lemma StepLinked(abi: Abi, s: State, tx: Tx, user: Address)
    ensures Linked(Step(abi, s, tx), user) == After(Linked(s, user), LinkEvent(abi, s, tx, user))
  {
    if Perform(abi, s, tx).Some? && tx.call.SubmitWithdrawals? {
      WithdrawManyKeepsSigners(abi, s, tx.msg, tx.call.items);
    }
  }

  lemma LinkTracks(abi: Abi, user: Address)
    ensures Tracks(Stepper(abi), LinkEvents(abi, user), LinkedTo(user), AnyState)
  {
    forall s, tx
      ensures Linked(Step(abi, s, tx), user) == After(Linked(s, user), LinkEvent(abi, s, tx, user))
    {
      StepLinked(abi, s, tx, user);
    }
  }

  /** After a run, a signer is linked to a user if and only if the user linked it
      in some transaction, and has neither linked another nor removed it since. */
  lemma LinkedIff(abi: Abi, s: State, txs: seq<Tx>, user: Address, signer: Address)
    requires s.linkedSigners == map[]
    ensures Linked(Run(abi, s, txs), user) == Some(signer)
        <==> exists m :: StillOpen(Stepper(abi), LinkEvents(abi, user), s, txs, m, signer)
  {
    LinkTracks(abi, user);
    BusyIff(Stepper(abi), LinkEvents(abi, user), LinkedTo(user), AnyState, s, txs, signer);
  }
}
