/** Prepare is all-or-nothing with an exact report: the event region names
    precisely the entries of a batch that cannot be carried out, in batch order,
    and the batch hash is set if and only if there are none. */
module ArchReports {
  import opened Machine
  import opened Wrappers
  import opened ArchTypes
  import opened ArchLedger
  import opened ArchFrames
  import opened ArchChecks

  /** `p'` is `p` with these events appended to its report. */
  ghost predicate Reports(p: ProgramState, p': ProgramState, es: seq<Event>) {
    && p' == p.(events := p.events + es, stale := p'.stale)
    && (|p.events| <= MAX_EVENTS ==> |p'.events| <= MAX_EVENTS)
    && (EVENT_SIZE * |p.events| + |p.stale| == EVENT_SIZE * MAX_EVENTS
        ==> EVENT_SIZE * |p'.events| + |p'.stale| == EVENT_SIZE * MAX_EVENTS)
  }

  lemma EmitReports(p: ProgramState, e: Event)
    requires EmitEvent(p, e).Ok?
    ensures Reports(p, EmitEvent(p, e).value, [e])
  {
  }

  lemma NothingReported(p: ProgramState)
    ensures Reports(p, p, [])
  {
    assert p.events + [] == p.events;
  }

  lemma ReportsChain(p: ProgramState, p1: ProgramState, p2: ProgramState, es1: seq<Event>, es2: seq<Event>)
    requires Reports(p, p1, es1) && Reports(p1, p2, es2)
    ensures Reports(p, p2, es1 + es2)
  {
    assert p.events + es1 + es2 == p.events + (es1 + es2);
  }

  // ---------------------------------------------------------------------------
  // Withdrawals
  // ---------------------------------------------------------------------------

  predicate Payable(env: Env, t: TokenState, feeToken: TokenState, d: Withdrawal, network: Network) {
    && Usable(env, t, d.address, network) && d.amount <= SlotAmount(t, d.address.index)
    && Usable(env, feeToken, d.feeAddress, network) && d.feeAmount <= SlotAmount(feeToken, d.feeAddress.index)
  }

  /** An entry goes unreported exactly when it can be paid from the balances as
      they stand. */
  lemma UnreportedIff(env: Env, w: World, metas: seq<Meta>, account: u8, t: TokenState, d: Withdrawal, network: Network)
    requires VerifyOne(env, w, metas, account, t, d, network).Ok?
    ensures VerifyOne(env, w, metas, account, t, d, network).value == None
        <==> Payable(env, t, ExpectToken(w, metas, d.feeAccount, true).value, d, network)
    ensures 0 < |metas| && BoundTo(w, metas, d.feeAccount, metas[0].key)
  {
    UsableIff(env, t, d.address, network);
    if Usable(env, t, d.address, network) {
      UsableIff(env, ExpectToken(w, metas, d.feeAccount, true).value, d.feeAddress, network);
    }
  }

  /** What is reported of one withdrawal: the first thing wrong with its wallet; or, if
      either balance falls short, both balances. */
  function Failure(env: Env, w: World, metas: seq<Meta>, account: u8, t: TokenState, d: Withdrawal,
                   network: Network): seq<Event> {
    var problem := Problem(env, t, d.address, network);
    var balance := SlotAmount(t, d.address.index);
    var feeBalance := match TokenAt(w, metas, d.feeAccount)
                      case Ok(f) => SlotAmount(f, d.feeAddress.index)
                      case Err(_) => 0;
    if problem.Some? then
      [FailedWithdrawal(account, d.address.index, d.feeAccount, d.feeAddress.index, d.amount, d.feeAmount,
                        0, 0, problem.value)]
    else if balance < d.amount || feeBalance < d.feeAmount then
      [FailedWithdrawal(account, d.address.index, d.feeAccount, d.feeAddress.index, d.amount, d.feeAmount,
                        balance, feeBalance, 603)]
    else []
  }

  /** An entry that is checked without error is reported just so. */
  lemma FailureIs(env: Env, w: World, metas: seq<Meta>, account: u8, t: TokenState, d: Withdrawal, network: Network)
    requires VerifyOne(env, w, metas, account, t, d, network).Ok?
    ensures Failure(env, w, metas, account, t, d, network)
         == match VerifyOne(env, w, metas, account, t, d, network).value case None => [] case Some(e) => [e]
  {
    UsableIff(env, t, d.address, network);
    if Usable(env, t, d.address, network) {
      UsableIff(env, ExpectToken(w, metas, d.feeAccount, true).value, d.feeAddress, network);
    }
  }

  function TokenFailures(env: Env, w: World, metas: seq<Meta>, account: u8, t: TokenState, ds: seq<Withdrawal>,
                         network: Network): seq<Event> {
    if ds == [] then [] else
    Failure(env, w, metas, account, t, ds[0], network) + TokenFailures(env, w, metas, account, t, ds[1..], network)
  }

  /** The entries of a withdrawal batch that cannot be paid, in batch order. */
  function Failures(env: Env, w: World, metas: seq<Meta>, tokens: seq<TokenWithdrawals>, network: Network): seq<Event> {
    if tokens == [] then [] else
    match ExpectToken(w, metas, tokens[0].account, true)
    case Err(_) => []
    case Ok(t) =>
      TokenFailures(env, w, metas, tokens[0].account, t, tokens[0].withdrawals, network)
      + Failures(env, w, metas, tokens[1..], network)
  }

  /** Every withdrawal of a token can be paid from the balances as they stand. */
  ghost predicate AllPayable(env: Env, w: World, metas: seq<Meta>, x: TokenWithdrawals, network: Network) {
    && ExpectToken(w, metas, x.account, true).Ok?
    && forall d | d in x.withdrawals ::
         && ExpectToken(w, metas, d.feeAccount, true).Ok?
         && Payable(env, ExpectToken(w, metas, x.account, true).value, ExpectToken(w, metas, d.feeAccount, true).value,
             d, network)
  }

  lemma {:induction false} TokenReport(env: Env, w: World, metas: seq<Meta>, account: u8, t: TokenState,
                                       ds: seq<Withdrawal>,
                                       network: Network, p: ProgramState)
    requires ExpectToken(w, metas, account, true) == Ok(t)
    requires VerifyToken(env, w, metas, account, t, ds, network, p).Ok?
    ensures Reports(p, VerifyToken(env, w, metas, account, t, ds, network, p).value,
        TokenFailures(env, w, metas, account, t, ds, network))
    ensures BoundWithdrawals(w, metas, ds, metas[0].key)
    ensures TokenFailures(env, w, metas, account, t, ds, network) == []
        ==> AllPayable(env, w, metas, TokenWithdrawals(account, ds), network)
    decreases |ds|
  {
    if ds == [] {
      NothingReported(p);
    } else {
      UnreportedIff(env, w, metas, account, t, ds[0], network);
      FailureIs(env, w, metas, account, t, ds[0], network);
      var e := VerifyOne(env, w, metas, account, t, ds[0], network).value;
      var p1 := Report(p, e).value;
      if e.None? {
        NothingReported(p);
      } else {
        EmitReports(p, e.value);
      }
      TokenReport(env, w, metas, account, t, ds[1..], network, p1);
      ReportsChain(p, p1, VerifyToken(env, w, metas, account, t, ds, network, p).value,
                   Failure(env, w, metas, account, t, ds[0], network),
                       TokenFailures(env, w, metas, account, t, ds[1..], network));
      assert forall d | d in ds :: d == ds[0] || d in ds[1..];
    }
  }

  lemma {:induction false} BatchReport(env: Env, w: World, metas: seq<Meta>, tokens: seq<TokenWithdrawals>,
                                       network: Network, p: ProgramState)
    requires 0 < |metas| && VerifyWithdrawals(env, w, metas, tokens, network, p).Ok?
    ensures Reports(p, VerifyWithdrawals(env, w, metas, tokens, network, p).value,
        Failures(env, w, metas, tokens, network))
    ensures BoundBatch(w, metas, tokens, metas[0].key)
    ensures Failures(env, w, metas, tokens, network) == []
        <==> forall x | x in tokens :: AllPayable(env, w, metas, x, network)
    decreases |tokens|
  {
    if tokens == [] {
      NothingReported(p);
    } else {
      var x := tokens[0];
      var t := ExpectToken(w, metas, x.account, true).value;
      TokenReport(env, w, metas, x.account, t, x.withdrawals, network, p);
      var p1 := VerifyToken(env, w, metas, x.account, t, x.withdrawals, network, p).value;
      BatchReport(env, w, metas, tokens[1..], network, p1);
      ReportsChain(p, p1, VerifyWithdrawals(env, w, metas, tokens, network, p).value,
                   TokenFailures(env, w, metas, x.account, t, x.withdrawals, network),
                       Failures(env, w, metas, tokens[1..], network));
      assert forall y | y in tokens :: y == x || y in tokens[1..];
      if forall y | y in tokens :: AllPayable(env, w, metas, y, network) {
        PayableMeansNoFailure(env, w, metas, x.account, t, x.withdrawals, network);
      }
    }
  }

  lemma {:induction false} PayableMeansNoFailure(env: Env, w: World, metas: seq<Meta>, account: u8, t: TokenState,
                                                 ds: seq<Withdrawal>, network: Network)
    requires ExpectToken(w, metas, account, true) == Ok(t)
        && AllPayable(env, w, metas, TokenWithdrawals(account, ds), network)
    ensures TokenFailures(env, w, metas, account, t, ds, network) == []
    decreases |ds|
  {
    if ds != [] {
      assert ds[0] in ds;
      UsableIff(env, t, ds[0].address, network);
      assert Failure(env, w, metas, account, t, ds[0], network) == [];
      assert forall d | d in ds[1..] :: d in ds;
      PayableMeansNoFailure(env, w, metas, account, t, ds[1..], network);
    }
  }

  /** Writing the program account leaves every token binding in place. */
  lemma ProgramStepFrame(w: World, w': World, metas: seq<Meta>, tokens: seq<TokenWithdrawals>)
    requires 0 < |metas| && At(w, metas[0].key).Program? && At(w', metas[0].key).Program?
    requires w' == w[metas[0].key := At(w', metas[0].key)] && BoundBatch(w, metas, tokens, metas[0].key)
    ensures BoundBatch(w', metas, tokens, metas[0].key)
  {
  }

  /** What the checks of a withdrawal batch leave in the program account. */
  lemma CheckWithdrawFrame(env: Env, w: World, metas: seq<Meta>, b: WithdrawBatch)
    requires CheckWithdraw(env, w, metas, b).Ok?
    ensures |metas| > 2 && At(w, metas[0].key).Program?
    ensures var p, p1 := At(w, metas[0].key).p, CheckWithdraw(env, w, metas, b).value;
            && p1 == p.(events := Failures(env, w, metas, b.tokens, p.network), stale := p1.stale)
            && |p1.events| <= MAX_EVENTS && p.settlementHash == EMPTY_HASH
            && (GoodProgram(env, p) ==> GoodProgram(env, p1))
    ensures BoundBatch(w, metas, b.tokens, metas[0].key)
    ensures At(w, metas[1].key) == Withdraw(metas[0].key, EMPTY_HASH)
  {
    var p := At(w, metas[0].key).p;
    var p0 := ClearEvents(p);
    BatchReport(env, w, metas, b.tokens, p.network, p0);
    assert p0.events + Failures(env, w, metas, b.tokens, p.network) == Failures(env, w, metas, b.tokens, p.network);
  }

  /** Carrying out a checked batch moves amounts only. */
  lemma DraftWithdrawFrame(env: Env, w: World, metas: seq<Meta>, b: WithdrawBatch, p: ProgramState)
    requires 0 < |metas| && At(w, metas[0].key).Program? && BoundBatch(w, metas, b.tokens, metas[0].key)
    requires DraftWithdraw(env, w[metas[0].key := Program(p)], metas, b, p).Ok?
    ensures AmountsOnly(w[metas[0].key := Program(p)],
        DraftWithdraw(env, w[metas[0].key := Program(p)], metas, b, p).value.w, metas[0].key)
  {
    var w1 := w[metas[0].key := Program(p)];
    ProgramStepFrame(w, w1, metas, b.tokens);
    PrepareAllFrame(env, Draft(w1, NO_PAYOUT), metas, b.tokens, UpToNul(p.feeAccount), p.network, metas[0].key);
  }

  /** A withdrawal batch that is checked without error is reported exactly: the
      report is the list of entries that cannot be paid, at most 100 of them; if
      there are any, no other account changes; and the batch hash is set if and
      only if every entry can be paid. */
  lemma PrepareWithdrawReport(env: Env, w: World, metas: seq<Meta>, b: WithdrawBatch, raw: Bytes)
    requires PrepareWithdraw(env, w, metas, b, raw).Ok?
    ensures var w' := PrepareWithdraw(env, w, metas, b, raw).value;
            && |metas| > 2 && At(w, metas[0].key).Program? && At(w', metas[0].key).Program?
            && var p := At(w, metas[0].key).p; var failed := Failures(env, w, metas, b.tokens, p.network);
            && At(w', metas[0].key).p.events == failed && |failed| <= MAX_EVENTS
            && SameConfig(p, At(w', metas[0].key).p)
            && (failed != []
                ==> w' == w[metas[0].key := At(w', metas[0].key)] && At(w', metas[1].key) == At(w, metas[1].key))
            && (failed == [] ==> At(w', metas[1].key) == Withdraw(metas[0].key, env.sha(raw)))
            && At(w, metas[1].key) == Withdraw(metas[0].key, EMPTY_HASH)
            && (failed == [] <==> forall x | x in b.tokens :: AllPayable(env, w, metas, x, p.network))
  {
    var p := At(w, metas[0].key).p;
    var p1 := CheckWithdraw(env, w, metas, b).value;
    CheckWithdrawFrame(env, w, metas, b);
    BatchReport(env, w, metas, b.tokens, p.network, ClearEvents(p));
    var w1 := w[metas[0].key := Program(p1)];
    if p1.events == [] {
      var x := DraftWithdraw(env, w1, metas, b, p1).value;
      DraftWithdrawFrame(env, w, metas, b, p1);
      assert At(x.w, metas[0].key) == At(w1, metas[0].key);
    }
  }

  // ---------------------------------------------------------------------------
  // Settlements
  // ---------------------------------------------------------------------------

  function DecrementFailures(t: TokenState, account: u8, adjs: seq<Adjustment>): seq<Event> {
    if adjs == [] then [] else
    var a := adjs[0];
    (if a.amount > SlotAmount(t, a.address.index)
     then [FailedSettlement(account, a.address.index, a.amount, SlotAmount(t, a.address.index), 603)]
     else [])
    + DecrementFailures(t, account, adjs[1..])
  }

  /** The decrements of a settlement batch that are not covered, in batch order. */
  function Uncovered(w: World, metas: seq<Meta>, ss: seq<Settlement>): seq<Event> {
    if ss == [] then [] else
    match ExpectToken(w, metas, ss[0].account, false)
    case Err(_) => []
    case Ok(t) => DecrementFailures(t, ss[0].account, ss[0].decrements) + Uncovered(w, metas, ss[1..])
  }

  lemma {:induction false} DecrementReport(t: TokenState, account: u8, adjs: seq<Adjustment>, y: Tally)
    requires VerifyDecrements(t, account, adjs, y).Ok?
    ensures Reports(y.p, VerifyDecrements(t, account, adjs, y).value.p, DecrementFailures(t, account, adjs))
    ensures DecrementFailures(t, account, adjs) == []
        <==> forall a | a in adjs :: Names(t, a.address) && a.amount <= SlotAmount(t, a.address.index)
    ensures forall a | a in adjs :: Names(t, a.address)
    decreases |adjs|
  {
    if adjs == [] {
      NothingReported(y.p);
    } else {
      var a := adjs[0];
      var balance := t.slots[a.address.index].amount;
      var e := FailedSettlement(account, a.address.index, a.amount, balance, ERROR_INSUFFICIENT_BALANCE);
      var p := if a.amount > balance then EmitEvent(y.p, e).value else y.p;
      if a.amount > balance {
        EmitReports(y.p, e);
      } else {
        NothingReported(y.p);
      }
      DecrementReport(t, account, adjs[1..], Tally(WrapAdd(y.total, a.amount), p));
      ReportsChain(y.p, p, VerifyDecrements(t, account, adjs, y).value.p, if a.amount > balance then [e] else [],
                   DecrementFailures(t, account, adjs[1..]));
      assert forall b | b in adjs :: b == a || b in adjs[1..];
    }
  }

  lemma {:induction false} SettlementReport(w: World, metas: seq<Meta>, ss: seq<Settlement>, n: Netting)
    requires VerifySettlements(w, metas, ss, n).Ok?
    ensures Reports(n.p, VerifySettlements(w, metas, ss, n).value.p, Uncovered(w, metas, ss))
    decreases |ss|
  {
    if ss == [] {
      NothingReported(n.p);
    } else {
      var s := ss[0];
      var t := ExpectToken(w, metas, s.account, false).value;
      DecrementReport(t, s.account, s.decrements, Tally(0, n.p));
      var next := VerifySettlement(t, s, n).value;
      SettlementReport(w, metas, ss[1..], next);
      ReportsChain(n.p, next.p, VerifySettlements(w, metas, ss, n).value.p,
                   DecrementFailures(t, s.account, s.decrements), Uncovered(w, metas, ss[1..]));
    }
  }

  /** A settlement batch that nets to zero is reported exactly, no account but the
      program account changes, and the batch hash is set if and only if every
      decrement is covered. */
  lemma PrepareSettlementReport(env: Env, w: World, metas: seq<Meta>, ss: seq<Settlement>, raw: Bytes)
    requires PrepareSettlement(env, w, metas, ss, raw).Ok?
    ensures var w' := PrepareSettlement(env, w, metas, ss, raw).value;
            && |metas| > 0 && At(w, metas[0].key).Program? && At(w', metas[0].key).Program?
            && w' == w[metas[0].key := At(w', metas[0].key)]
            && var p, p' := At(w, metas[0].key).p, At(w', metas[0].key).p; var failed := Uncovered(w, metas, ss);
            && p'.events == failed && |failed| <= MAX_EVENTS && SameConfig(p, p')
            && p.settlementHash == EMPTY_HASH && p'.lastSettlementHash == p.lastSettlementHash
            && p'.settlementHash == if failed == [] then env.sha(raw) else EMPTY_HASH
  {
    var p := At(w, metas[0].key).p;
    SettlementReport(w, metas, ss, Netting(0, ClearEvents(p)));
    assert [] + Uncovered(w, metas, ss) == Uncovered(w, metas, ss);
  }
}
