/** The withdrawal handlers of the Arch exchange program (program/src/lib.rs),
    over mutable accounts and a transaction that is built up output by output. */
module ArchWithdrawProgram {
  import opened Machine
  import opened Wrappers
  import opened ArchTypes
  import opened ArchLedger
  import opened ArchAccounts
  import opened ArchProgram

  // ---------------------------------------------------------------------------
  // The transaction under construction
  // ---------------------------------------------------------------------------

  /** The outputs and edicts that the handlers push to. */
  class TransactionBuilder {
    var outputs: seq<TxOut>
    var edicts: seq<Edict>

    function Paid(): Payout
      reads this
    {
      Payout(outputs, edicts)
    }

    constructor (outputs: seq<TxOut>)
      ensures Paid() == Payout(outputs, [])
    {
      this.outputs := outputs;
      this.edicts := [];
    }

    method AddOutput(output: TxOut)
      modifies this
      ensures Paid() == old(Paid()).(outputs := old(outputs) + [output])
    {
      outputs := outputs + [output];
    }

    /** An edict, and the output that it names. */
    method AddEdictAndOutput(rune: RuneId, script: Bytes, amount: u64)
      modifies this
      ensures Paid() == PayRune(old(Paid()), rune, script, amount)
    {
      edicts := edicts + [Edict(rune, amount, |outputs| % U32)];
      outputs := outputs + [TxOut(DUST_THRESHOLD, script)];
    }

    method AddWithdrawalOutput(env: Env, account: AccountInfo, d: Withdrawal, network: Network) returns (r: Result<()>)
      requires account.Valid() && account.rec.Token?
      modifies this
      ensures match Pay(env, account.rec.t, d, network, old(Paid()))
              case Ok(o) => r == Ok(()) && Paid() == o
              case Err(e) => r == Err(e)
    {
      var id := account.GetTokenId();
      var address :- account.GetWalletAddress(d.address.index);
      if !env.parses(address) || !env.onNetwork(address, network) {
        return Err(Panic);
      }
      var script, rune := env.script(address, network), env.rune(id);
      if rune.Some? {
        AddEdictAndOutput(rune.value, script, d.amount);
      } else {
        AddOutput(TxOut(WrapSub(d.amount, d.feeAmount), script));
      }
      return Ok(());
    }

    /** One zero edict per rune, each with its own output. */
    method AddChangeEdicts(runes: seq<RuneId>, script: Bytes)
      modifies this
      ensures Paid() == PayChange(old(Paid()), runes, script)
    {
      for i := 0 to |runes|
        invariant PayChange(old(Paid()), runes, script) == PayChange(Paid(), runes[i..], script)
      {
        assert runes[i..][1..] == runes[i + 1..];
        AddEdictAndOutput(runes[i], script, 0);
      }
    }

    /** The change output, the change edicts, and the runestone. */
    method Complete(env: Env, programId: Key, change: u64, receiver: Key)
      modifies this
      ensures Paid() == Finish(env, old(Paid()), programId, change, receiver)
    {
      if change > 0 {
        AddOutput(TxOut(change, env.accountScript(programId)));
      }
      if edicts != [] {
        AddChangeEdicts(env.order(RuneIds(edicts)), env.accountScript(receiver));
        AddOutput(TxOut(0, env.runestone(edicts)));
      }
    }
  }

  // ---------------------------------------------------------------------------
  // Preparing
  // ---------------------------------------------------------------------------

  /** Report a withdrawal that cannot be made. */
  method VerifyWithdrawal(env: Env, accounts: seq<AccountInfo>, index: u8, d: Withdrawal, network: Network,
                          ghost base: World, ghost w: World)
    returns (r: Result<Option<Event>>)
    requires Agrees(accounts, base, w) && index as nat < |accounts| && accounts[index].rec.Token?
    ensures r == VerifyOne(env, w, Metas(accounts), index, accounts[index].rec.t, d, network)
  {
    var account := accounts[index];
    var slot := account.GetValidatedIndexWithdraw(env, d.address, network);
    if slot.Err? && !slot.error.Custom? {
      return Err(slot.error);
    }
    var _ :- ValidateAccount(accounts, d.feeAccount, false, true, Some(TokenKind), Some(0), base, w);
    VerifiedAs(env, w, Metas(accounts), index, account.rec.t, d, network);
    r := VerifySlots(env, account, accounts[d.feeAccount], slot, index, d, network);
  }

  /** What there is to report, once the wallet has been looked up. */
  function Reported(env: Env, t: TokenState, f: TokenState, slot: Result<nat>, index: u8, d: Withdrawal,
                    network: Network): Result<Option<Event>>
    requires slot.Ok? ==> slot.value < |t.slots|
    requires slot.Err? ==> slot.error.Custom?
  {
    match slot
    case Err(e) => Ok(Some(BadIndex(index, d, e.code % U32)))
    case Ok(i) =>
      match ValidatedWithdrawIndex(env, f, d.feeAddress, network)
      case Err(e) => Err(e)
      case Ok(j) => Ok(Shortfall(index, d, t.slots[i].amount, f.slots[j].amount))
  }

  lemma VerifiedAs(env: Env, w: World, metas: seq<Meta>, index: u8, t: TokenState, d: Withdrawal, network: Network)
    requires ExpectToken(w, metas, d.feeAccount, true).Ok?
    requires var slot := ValidatedWithdrawIndex(env, t, d.address, network); slot.Err? ==> slot.error.Custom?
    ensures VerifyOne(env, w, metas, index, t, d, network)
         == Reported(env, t, ExpectToken(w, metas, d.feeAccount, true).value,
             ValidatedWithdrawIndex(env, t, d.address, network), index, d, network)
  {
  }

  method VerifySlots(env: Env, account: AccountInfo, feeAccount: AccountInfo, slot: Result<nat>, index: u8,
                     d: Withdrawal, network: Network)
    returns (r: Result<Option<Event>>)
    requires account.Valid() && account.rec.Token? && feeAccount.Valid() && feeAccount.rec.Token?
    requires slot.Ok? ==> slot.value < |account.rec.t.slots|
    requires slot.Err? ==> slot.error.Custom?
    ensures r == Reported(env, account.rec.t, feeAccount.rec.t, slot, index, d, network)
  {
    match slot
    case Ok(i) => r := VerifyBalances(env, account, feeAccount, i, index, d, network);
    case Err(e) => r := Ok(Some(BadIndex(index, d, e.code % U32)));
  }

  function BadIndex(index: u8, d: Withdrawal, code: u32): Event {
    FailedWithdrawal(index, d.address.index, d.feeAccount, d.feeAddress.index, d.amount, d.feeAmount, 0, 0, code)
  }

  /** Does the wallet cover the amount, and the fee wallet the fee? */
  method VerifyBalances(env: Env, account: AccountInfo, feeAccount: AccountInfo, slot: nat, index: u8,
                        d: Withdrawal, network: Network)
    returns (r: Result<Option<Event>>)
    requires account.Valid() && account.rec.Token? && slot < |account.rec.t.slots|
    requires feeAccount.Valid() && feeAccount.rec.Token?
    ensures r == match ValidatedWithdrawIndex(env, feeAccount.rec.t, d.feeAddress, network)
                 case Err(e) => Err(e)
                 case Ok(i) => Ok(Shortfall(index, d, account.rec.t.slots[slot].amount,
                     feeAccount.rec.t.slots[i].amount))
  {
    var balance := account.GetWalletBalance(slot);
    var feeSlot :- feeAccount.GetValidatedIndexWithdraw(env, d.feeAddress, network);
    var feeBalance := feeAccount.GetWalletBalance(feeSlot);
    return Ok(Shortfall(index, d, balance.value, feeBalance.value));
  }

  function Shortfall(index: u8, d: Withdrawal, balance: u64, feeBalance: u64): Option<Event> {
    if d.amount > balance || d.feeAmount > feeBalance
    then Some(FailedWithdrawal(index, d.address.index, d.feeAccount, d.feeAddress.index, d.amount, d.feeAmount,
                               balance, feeBalance, ERROR_INSUFFICIENT_BALANCE))
    else None
  }

  lemma VerifiesThrough(env: Env, w: World, metas: seq<Meta>, p: ProgramState, account: u8, t: TokenState,
                        d: Withdrawal, network: Network)
    requires 0 < |metas| && At(w, metas[0].key).Program?
    ensures VerifyOne(env, w[metas[0].key := Program(p)], metas, account, t, d, network)
        == VerifyOne(env, w, metas, account, t, d, network)
  {
    TokensSeenThrough(w, metas, p, d.feeAccount, true);
  }

  /** The first account reports on a world in which it holds the report so far. */
  ghost predicate Reporting(accounts: seq<AccountInfo>, base: World, w: World)
    reads accounts
  {
    && OnePerKey(accounts) && |accounts| > 0 && At(w, accounts[0].key).Program? && accounts[0].rec.Program?
    && Agrees(accounts, base, w[accounts[0].key := accounts[0].rec])
  }

  method EmitReport(accounts: seq<AccountInfo>, e: Option<Event>, ghost base: World, ghost w: World)
      returns (r: Result<()>)
    requires Reporting(accounts, base, w)
    modifies accounts
    ensures match Report(old(accounts[0].rec.p), e)
            case Ok(p) => r == Ok(()) && accounts[0].rec == Program(p) && Reporting(accounts, base, w)
            case Err(err) => r == Err(err)
  {
    if e.Some? {
      ghost var wi: World := w[accounts[0].key := accounts[0].rec];
      var _ :- accounts[0].Emit(e.value);
      Stores(accounts, accounts[0], base, wi);
      assert wi[accounts[0].key := accounts[0].rec] == w[accounts[0].key := accounts[0].rec];
    }
    return Ok(());
  }

  method VerifyTokenWithdrawals(env: Env, accounts: seq<AccountInfo>, index: u8, ds: seq<Withdrawal>,
                                network: Network, ghost base: World, ghost w: World)
    returns (r: Result<()>)
    requires Reporting(accounts, base, w) && index as nat < |accounts| && accounts[index].rec.Token?
    modifies accounts
    ensures match VerifyToken(env, w, Metas(accounts), index, old(accounts[index].rec.t), ds, network,
        old(accounts[0].rec.p))
            case Ok(p) => r == Ok(()) && accounts[0].rec == Program(p) && Reporting(accounts, base, w)
            case Err(e) => r == Err(e)
  {
    ghost var t, p0, metas := accounts[index].rec.t, accounts[0].rec.p, Metas(accounts);
    for i := 0 to |ds|
      invariant Reporting(accounts, base, w) && accounts[index].rec == Token(t)
      invariant VerifyToken(env, w, metas, index, t, ds, network, p0)
             == VerifyToken(env, w, metas, index, t, ds[i..], network, accounts[0].rec.p)
    {
      assert ds[i..][1..] == ds[i + 1..];
      VerifiesThrough(env, w, metas, accounts[0].rec.p, index, t, ds[i], network);
      var e :- VerifyWithdrawal(env, accounts, index, ds[i], network, base, w[accounts[0].key := accounts[0].rec]);
      var _ :- EmitReport(accounts, e, base, w);
    }
    return Ok(());
  }

  method VerifyAllWithdrawals(env: Env, accounts: seq<AccountInfo>, tokens: seq<TokenWithdrawals>, network: Network,
                              ghost base: World, ghost w: World)
    returns (r: Result<()>)
    requires Reporting(accounts, base, w)
    modifies accounts
    ensures match VerifyWithdrawals(env, w, Metas(accounts), tokens, network, old(accounts[0].rec.p))
            case Ok(p) => r == Ok(()) && accounts[0].rec == Program(p) && Reporting(accounts, base, w)
            case Err(e) => r == Err(e)
  {
    ghost var p0, metas := accounts[0].rec.p, Metas(accounts);
    for i := 0 to |tokens|
      invariant Reporting(accounts, base, w)
      invariant VerifyWithdrawals(env, w, metas, tokens, network, p0)
             == VerifyWithdrawals(env, w, metas, tokens[i..], network, accounts[0].rec.p)
    {
      VerifyNextAccount(env, w, metas, tokens, i, network, accounts[0].rec.p);
      var _ :- VerifyAccountWithdrawals(env, accounts, tokens[i], network, base, w);
    }
    return Ok(());
  }

  function VerifyAccount(env: Env, w: World, metas: seq<Meta>, x: TokenWithdrawals, network: Network,
                         p: ProgramState): Result<ProgramState> {
    var t :- ExpectToken(w, metas, x.account, true);
    VerifyToken(env, w, metas, x.account, t, x.withdrawals, network, p)
  }

  lemma VerifyNextAccount(env: Env, w: World, metas: seq<Meta>, tokens: seq<TokenWithdrawals>, i: nat,
                          network: Network, p: ProgramState)
    requires i < |tokens|
    ensures match VerifyAccount(env, w, metas, tokens[i], network, p)
            case Ok(p') => VerifyWithdrawals(env, w, metas, tokens[i..], network, p)
                == VerifyWithdrawals(env, w, metas, tokens[i + 1..], network, p')
            case Err(e) => VerifyWithdrawals(env, w, metas, tokens[i..], network, p) == Err(e)
  {
    assert tokens[i..][1..] == tokens[i + 1..];
  }

  method VerifyAccountWithdrawals(env: Env, accounts: seq<AccountInfo>, x: TokenWithdrawals, network: Network,
                                  ghost base: World, ghost w: World)
    returns (r: Result<()>)
    requires Reporting(accounts, base, w)
    modifies accounts
    ensures match VerifyAccount(env, w, Metas(accounts), x, network, old(accounts[0].rec.p))
            case Ok(p) => r == Ok(()) && accounts[0].rec == Program(p) && Reporting(accounts, base, w)
            case Err(e) => r == Err(e)
  {
    TokensSeenThrough(w, Metas(accounts), accounts[0].rec.p, x.account, true);
    var _ :- ValidateAccount(accounts, x.account, false, true, Some(TokenKind), Some(0), base,
        w[accounts[0].key := accounts[0].rec]);
    r := VerifyTokenWithdrawals(env, accounts, x.account, x.withdrawals, network, base, w);
  }

  // What a verified batch names ---------------------------------------------------

  predicate IsTokenAt(w: World, metas: seq<Meta>, i: nat) {
    i < |metas| && At(w, metas[i].key).Token?
  }

  predicate NamesTokens(w: World, metas: seq<Meta>, ds: seq<Withdrawal>) {
    forall d | d in ds :: IsTokenAt(w, metas, d.feeAccount)
  }

  lemma {:induction false} VerifiedNamesTokens(env: Env, w: World, metas: seq<Meta>, account: u8, t: TokenState,
                                               ds: seq<Withdrawal>, network: Network, p: ProgramState)
    requires VerifyToken(env, w, metas, account, t, ds, network, p).Ok?
    ensures NamesTokens(w, metas, ds)
    decreases |ds|
  {
    if ds != [] {
      var e := VerifyOne(env, w, metas, account, t, ds[0], network).value;
      VerifiedNamesTokens(env, w, metas, account, t, ds[1..], network, Report(p, e).value);
      assert forall d | d in ds :: d == ds[0] || d in ds[1..];
    }
  }

  predicate AllNameTokens(w: World, metas: seq<Meta>, tokens: seq<TokenWithdrawals>) {
    forall x | x in tokens :: IsTokenAt(w, metas, x.account) && NamesTokens(w, metas, x.withdrawals)
  }

  lemma {:induction false} AllVerifiedNameTokens(env: Env, w: World, metas: seq<Meta>,
                                                 tokens: seq<TokenWithdrawals>, network: Network, p: ProgramState)
    requires VerifyWithdrawals(env, w, metas, tokens, network, p).Ok?
    ensures AllNameTokens(w, metas, tokens)
    decreases |tokens|
  {
    if tokens != [] {
      var x := tokens[0];
      var t := ExpectToken(w, metas, x.account, true).value;
      VerifiedNamesTokens(env, w, metas, x.account, t, x.withdrawals, network, p);
      var p' := VerifyToken(env, w, metas, x.account, t, x.withdrawals, network, p).value;
      AllVerifiedNameTokens(env, w, metas, tokens[1..], network, p');
      assert forall y | y in tokens :: y == x || y in tokens[1..];
    }
  }

  // Applying ------------------------------------------------------------------------

  /** Tokens stay tokens, and other accounts stay as they are. */
  ghost predicate TokensOnly(w: World, w': World) {
    forall k: Key {:trigger At(w', k)} :: if At(w, k).Token? then At(w', k).Token? else At(w', k) == At(w, k)
  }

  /** Charge the fee of a withdrawal to slot 0 of the fee account. */
  method TakeFee(accounts: seq<AccountInfo>, index: u8, d: Withdrawal, feeAddress: Bytes, ghost base: World,
                 ghost w: World)
    returns (r: Result<()>)
    requires Agrees(accounts, base, w) && OnePerKey(accounts) && index as nat < |accounts|
    requires IsTokenAt(w, Metas(accounts), d.feeAccount)
    modifies accounts
    ensures match ChargeFee(w, Metas(accounts), index, d, feeAddress)
            case Ok(w') => r == Ok(()) && Agrees(accounts, base, w')
            case Err(e) => r == Err(e)
  {
    if d.feeAmount > 0 {
      var feeAccount := accounts[d.feeAccount];
      var address :- feeAccount.GetWalletAddress(0);
      if address != feeAddress {
        return Err(Custom(ERROR_ADDRESS_MISMATCH));
      }
      var credited := feeAccount.IncrementWalletBalance(0, d.feeAmount);
      if feeAccount.key != accounts[index].key {
        var _ :- feeAccount.DecrementWalletBalance(d.feeAddress.index, d.feeAmount);
      }
      Stores(accounts, feeAccount, base, w);
    }
    return Ok(());
  }

  /** Take a withdrawal and its fee from the balances. */
  method TakeWithdrawal(accounts: seq<AccountInfo>, index: u8, d: Withdrawal, feeAddress: Bytes, ghost base: World,
                        ghost w: World)
    returns (r: Result<()>)
    requires Agrees(accounts, base, w) && OnePerKey(accounts)
    requires IsTokenAt(w, Metas(accounts), index) && IsTokenAt(w, Metas(accounts), d.feeAccount)
    modifies accounts
    ensures match ChargeOne(w, Metas(accounts), index, d, feeAddress)
            case Ok(w') => r == Ok(()) && Agrees(accounts, base, w')
            case Err(e) => r == Err(e)
  {
    var account := accounts[index];
    var _ :- account.DecrementWalletBalance(d.address.index, d.amount);
    Stores(accounts, account, base, w);
    r := TakeFee(accounts, index, d, feeAddress, base, w[account.key := account.rec]);
  }

  lemma ChargedTokensOnly(w: World, metas: seq<Meta>, account: u8, d: Withdrawal, feeAddress: Bytes)
    requires ChargeOne(w, metas, account, d, feeAddress).Ok?
    ensures TokensOnly(w, ChargeOne(w, metas, account, d, feeAddress).value)
  {
  }

  lemma TokensOnlyTrans(w: World, w1: World, w2: World)
    requires TokensOnly(w, w1) && TokensOnly(w1, w2)
    ensures TokensOnly(w, w2)
  {
    forall k: Key ensures if At(w, k).Token? then At(w2, k).Token? else At(w2, k) == At(w, k) {
      var a := At(w1, k);
    }
  }

  method HandlePrepareWithdrawal(env: Env, accounts: seq<AccountInfo>, index: u8, d: Withdrawal, feeAddress: Bytes,
                                 network: Network,
                                 tx: TransactionBuilder, ghost base: World, ghost w: World)
    returns (r: Result<()>)
    requires Agrees(accounts, base, w) && OnePerKey(accounts)
    requires IsTokenAt(w, Metas(accounts), index) && IsTokenAt(w, Metas(accounts), d.feeAccount)
    modifies accounts, tx
    ensures match PrepareOne(env, Draft(w, old(tx.Paid())), Metas(accounts), index, d, feeAddress, network)
            case Ok(x) => r == Ok(()) && Agrees(accounts, base, x.w) && tx.Paid() == x.o && TokensOnly(w, x.w)
            case Err(e) => r == Err(e)
  {
    var _ :- TakeWithdrawal(accounts, index, d, feeAddress, base, w);
    ChargedTokensOnly(w, Metas(accounts), index, d, feeAddress);
    assert At(ChargeOne(w, Metas(accounts), index, d, feeAddress).value, accounts[index].key).Token?;
    r := tx.AddWithdrawalOutput(env, accounts[index], d, network);
  }

  method HandlePrepareWithdrawals(env: Env, accounts: seq<AccountInfo>, index: u8, ds: seq<Withdrawal>,
                                  feeAddress: Bytes, network: Network,
                                  tx: TransactionBuilder, ghost base: World, ghost w: World)
    returns (r: Result<()>, ghost w': World)
    requires Agrees(accounts, base, w) && OnePerKey(accounts)
    requires IsTokenAt(w, Metas(accounts), index) && NamesTokens(w, Metas(accounts), ds)
    modifies accounts, tx
    ensures match PrepareToken(env, Draft(w, old(tx.Paid())), Metas(accounts), index, ds, feeAddress, network)
            case Ok(x) => r == Ok(()) && Agrees(accounts, base, x.w) && tx.Paid() == x.o && TokensOnly(w, x.w)
                && w' == x.w
            case Err(e) => r == Err(e)
  {
    w' := w;
    ghost var metas := Metas(accounts);
    for i := 0 to |ds|
      invariant Agrees(accounts, base, w') && TokensOnly(w, w')
      invariant PrepareToken(env, Draft(w, old(tx.Paid())), metas, index, ds, feeAddress, network)
             == PrepareToken(env, Draft(w', tx.Paid()), metas, index, ds[i..], feeAddress, network)
    {
      assert ds[i..][1..] == ds[i + 1..];
      TokenStays(w, w', metas, index);
      assert ds[i] in ds;
      TokenStays(w, w', metas, ds[i].feeAccount);
      ghost var x := PrepareOne(env, Draft(w', tx.Paid()), metas, index, ds[i], feeAddress, network);
      r := HandlePrepareWithdrawal(env, accounts, index, ds[i], feeAddress, network, tx, base, w');
      if r.Err? {
        return;
      }
      TokensOnlyTrans(w, w', x.value.w);
      w' := x.value.w;
    }
    r := Ok(());
  }

  lemma TokenStays(w: World, w': World, metas: seq<Meta>, i: nat)
    requires TokensOnly(w, w') && IsTokenAt(w, metas, i)
    ensures IsTokenAt(w', metas, i)
  {
    var a := At(w', metas[i].key);
  }

  method PrepareAllWithdrawals(env: Env, accounts: seq<AccountInfo>, tokens: seq<TokenWithdrawals>,
                               network: Network, tx: TransactionBuilder,
                               ghost base: World, ghost w: World)
    returns (r: Result<()>, ghost w': World)
    requires Agrees(accounts, base, w) && OnePerKey(accounts) && |accounts| > 0
    requires AllNameTokens(w, Metas(accounts), tokens) && accounts[0].rec.Program?
    modifies accounts, tx
    ensures match PrepareAll(env, Draft(w, old(tx.Paid())), Metas(accounts), tokens,
        UpToNul(old(accounts[0].rec.p.feeAccount)), network)
            case Ok(x) => r == Ok(()) && Agrees(accounts, base, x.w) && tx.Paid() == x.o && TokensOnly(w, x.w)
                && w' == x.w
            case Err(e) => r == Err(e)
  {
    w' := w;
    ghost var metas, program := Metas(accounts), accounts[0].rec;
    for i := 0 to |tokens|
      invariant Agrees(accounts, base, w') && TokensOnly(w, w')
      invariant PrepareAll(env, Draft(w, old(tx.Paid())), metas, tokens, UpToNul(program.p.feeAccount), network)
             == PrepareAll(env, Draft(w', tx.Paid()), metas, tokens[i..], UpToNul(program.p.feeAccount), network)
    {
      assert tokens[i..][1..] == tokens[i + 1..];
      assert At(w', accounts[0].key) == program;
      var feeAddress := accounts[0].GetFeeAccountAddress();
      assert tokens[i] in tokens;
      AllStay(w, w', metas, tokens[i]);
      ghost var w1;
      r, w1 := HandlePrepareWithdrawals(env, accounts, tokens[i].account, tokens[i].withdrawals, feeAddress, network,
          tx, base, w');
      if r.Err? {
        return;
      }
      TokensOnlyTrans(w, w', w1);
      w' := w1;
    }
    r := Ok(());
  }

  lemma AllStay(w: World, w': World, metas: seq<Meta>, x: TokenWithdrawals)
    requires TokensOnly(w, w') && IsTokenAt(w, metas, x.account) && NamesTokens(w, metas, x.withdrawals)
    ensures IsTokenAt(w', metas, x.account) && NamesTokens(w', metas, x.withdrawals)
  {
    TokenStays(w, w', metas, x.account);
    forall d | d in x.withdrawals ensures IsTokenAt(w', metas, d.feeAccount) {
      TokenStays(w, w', metas, d.feeAccount);
    }
  }

  // The whole handler ---------------------------------------------------------------

  /** Everything in front of the first balance that is touched; on success, the
      first account holds the report, and the result says whether there is a rune
      receiver. */
  method CheckWithdrawBatch(env: Env, accounts: seq<AccountInfo>, b: WithdrawBatch, ghost w: World)
      returns (r: Result<bool>)
    requires Agrees(accounts, w, w) && OnePerKey(accounts)
    modifies accounts
    ensures match CheckWithdraw(env, w, Metas(accounts), b)
            case Ok(p) => r.Ok? && r == HasReceiver(w, Metas(accounts), false) && Reporting(accounts, w, w)
                && accounts[0].rec == Program(p)
            case Err(e) => r == Err(e)
  {
    var _ :- ValidateAccount(accounts, 0, true, true, Some(ProgramKind), Some(1), w, w);
    var _ :- ValidateAccount(accounts, 1, false, true, Some(WithdrawKind), Some(0), w, w);
    var hasReceiver :- FindRuneReceiver(accounts, false, w, w);
    var settling := accounts[0].GetSettlementHash();
    if settling != EMPTY_HASH {
      return Err(Custom(ERROR_SETTLEMENT_IN_PROGRESS));
    }
    var withdrawing := accounts[1].GetHash();
    if withdrawing != EMPTY_HASH {
      return Err(Custom(ERROR_WITHDRAWAL_IN_PROGRESS));
    }
    var tx := env.fundingTx(b.tx);
    if tx.None? {
      return Err(Custom(ERROR_INVALID_INPUT_TX));
    }
    if tx.value.outputs > 0 {
      return Err(Custom(ERROR_NO_OUTPUTS_ALLOWED));
    }
    if |tx.value.inputs| != |b.inputTypes| {
      return Err(Custom(ERROR_INVALID_UTXO_TYPES));
    }
    var _ :- ReportWithdrawals(env, accounts, b.tokens, w);
    return Ok(hasReceiver);
  }

  /** Clear the report, and write the new one. */
  method ReportWithdrawals(env: Env, accounts: seq<AccountInfo>, tokens: seq<TokenWithdrawals>, ghost w: World)
      returns (r: Result<()>)
    requires Agrees(accounts, w, w) && OnePerKey(accounts) && |accounts| > 0 && accounts[0].rec.Program?
    modifies accounts
    ensures var p0 := old(accounts[0].rec.p);
            match VerifyWithdrawals(env, w, Metas(accounts), tokens, p0.network, ClearEvents(p0))
            case Ok(p) => r == Ok(()) && accounts[0].rec == Program(p) && Reporting(accounts, w, w)
            case Err(e) => r == Err(e)
  {
    accounts[0].ClearReport();
    Stores(accounts, accounts[0], w, w);
    var network := accounts[0].GetNetworkType();
    r := VerifyAllWithdrawals(env, accounts, tokens, network, w, w);
  }

  /** Apply a batch that has nothing to report. */
  method DraftWithdrawBatch(env: Env, accounts: seq<AccountInfo>, b: WithdrawBatch, hasReceiver: bool,
                            ghost base: World, ghost w: World)
    returns (r: Result<()>, ghost w': World)
    requires Agrees(accounts, base, w) && OnePerKey(accounts) && |accounts| > 0 && accounts[0].rec.Program?
    requires AllNameTokens(w, Metas(accounts), b.tokens) && HasReceiver(w, Metas(accounts), false) == Ok(hasReceiver)
    modifies accounts
    ensures match DraftWithdraw(env, w, Metas(accounts), b, old(accounts[0].rec.p))
            case Ok(x) => r == Ok(()) && Agrees(accounts, base, x.w) && TokensOnly(w, x.w) && w' == x.w
            case Err(e) => r == Err(e)
  {
    var tx := new TransactionBuilder([]);
    var network := accounts[0].GetNetworkType();
    r, w' := PrepareAllWithdrawals(env, accounts, b.tokens, network, tx, base, w);
    if r.Err? {
      return;
    }
    if tx.edicts != [] && !hasReceiver {
      r := Err(Custom(ERROR_NO_RUNE_RECEIVER));
    } else if tx.outputs == [] {
      r := Err(Custom(ERROR_NO_TX_OUTPUTS));
    }
  }

  lemma AllNameTokensThrough(w: World, metas: seq<Meta>, p: ProgramState, tokens: seq<TokenWithdrawals>)
    requires 0 < |metas| && At(w, metas[0].key).Program? && AllNameTokens(w, metas, tokens)
    ensures AllNameTokens(w[metas[0].key := Program(p)], metas, tokens)
  {
    var w' := w[metas[0].key := Program(p)];
    forall x | x in tokens ensures IsTokenAt(w', metas, x.account) && NamesTokens(w', metas, x.withdrawals) {
      assert IsTokenAt(w, metas, x.account) && NamesTokens(w, metas, x.withdrawals);
      forall d | d in x.withdrawals ensures IsTokenAt(w', metas, d.feeAccount) {
        assert IsTokenAt(w, metas, d.feeAccount);
      }
    }
  }

  lemma CheckedNamesTokens(env: Env, w: World, metas: seq<Meta>, b: WithdrawBatch)
    requires CheckWithdraw(env, w, metas, b).Ok?
    ensures AllNameTokens(w, metas, b.tokens)
  {
    var p := ExpectProgram(w, metas, true, Some(1)).value;
    AllVerifiedNameTokens(env, w, metas, b.tokens, p.network, ClearEvents(p));
  }

  lemma ReceiverSeenThrough(w: World, metas: seq<Meta>, p: ProgramState, signer: bool)
    requires 0 < |metas| && At(w, metas[0].key).Program?
    ensures HasReceiver(w[metas[0].key := Program(p)], metas, signer) == HasReceiver(w, metas, signer)
  {
  }

  method PrepareWithdrawBatch(env: Env, accounts: seq<AccountInfo>, b: WithdrawBatch, raw: Bytes, ghost w: World)
      returns (r: Result<()>)
    requires Agrees(accounts, w, w) && OnePerKey(accounts)
    modifies accounts
    ensures Achieves(accounts, w, r, PrepareWithdraw(env, w, Metas(accounts), b, raw))
  {
    var hasReceiver :- CheckWithdrawBatch(env, accounts, b, w);
    var reported := accounts[0].GetEventsCount();
    if reported != 0 {
      return Ok(());
    }
    r := AcceptWithdrawBatch(env, accounts, b, hasReceiver, env.sha(raw), w);
  }

  method AcceptWithdrawBatch(env: Env, accounts: seq<AccountInfo>, b: WithdrawBatch, hasReceiver: bool, hash: Hash,
                             ghost w: World)
    returns (r: Result<()>)
    requires Reporting(accounts, w, w) && CheckWithdraw(env, w, Metas(accounts), b) == Ok(accounts[0].rec.p)
    requires HasReceiver(w, Metas(accounts), false) == Ok(hasReceiver)
    modifies accounts
    ensures var p := old(accounts[0].rec.p);
            match DraftWithdraw(env, w[accounts[0].key := Program(p)], Metas(accounts), b, p)
            case Ok(x) => |accounts| > 1 && r == Ok(())
                          && Agrees(accounts, w, x.w[accounts[1].key := Withdraw(accounts[0].key, hash)])
            case Err(e) => r == Err(e)
  {
    ghost var metas, p := Metas(accounts), accounts[0].rec.p;
    ghost var w1: World := w[accounts[0].key := Program(p)];
    CheckedNamesTokens(env, w, metas, b);
    AllNameTokensThrough(w, metas, p, b.tokens);
    ReceiverSeenThrough(w, metas, p, false);
    WithdrawAccountChecked(env, w, metas, b);
    ghost var w2;
    r, w2 := DraftWithdrawBatch(env, accounts, b, hasReceiver, w, w1);
    if r.Ok? {
      assert At(w2, accounts[1].key) == At(w1, accounts[1].key);
      accounts[1].SetHash(hash);
      Stores(accounts, accounts[1], w, w2);
    }
  }

  lemma WithdrawAccountChecked(env: Env, w: World, metas: seq<Meta>, b: WithdrawBatch)
    requires CheckWithdraw(env, w, metas, b).Ok?
    ensures |metas| > 1 && At(w, metas[1].key) == Withdraw(metas[0].key, EMPTY_HASH)
        && ExpectWithdraw(w, metas, false).Ok?
  {
  }

  // ---------------------------------------------------------------------------
  // Submitting
  // ---------------------------------------------------------------------------

  /** get_state_transition_tx: an input and an output for every writable account. */
  method StateTransition(env: Env, accounts: seq<AccountInfo>) returns (inputs: seq<TxIn>, outputs: seq<TxOut>)
    ensures inputs == StateInputs(Metas(accounts)) && outputs == StateOutputs(env, Metas(accounts))
  {
    inputs, outputs := [], [];
    ghost var metas := Metas(accounts);
    for i := 0 to |accounts|
      invariant StateInputs(metas) == inputs + StateInputs(metas[i..])
      invariant StateOutputs(env, metas) == outputs + StateOutputs(env, metas[i..])
    {
      assert metas[i..][1..] == metas[i + 1..];
      if accounts[i].isWritable {
        inputs := inputs + [StateInput(accounts[i].key)];
        outputs := outputs + [TxOut(env.stateValue(accounts[i].key), env.accountScript(accounts[i].key))];
      }
    }
  }

  method HandleSubmitWithdrawals(env: Env, accounts: seq<AccountInfo>, index: u8, ds: seq<Withdrawal>,
                                 network: Network, tx: TransactionBuilder,
                                 ghost w: World)
    returns (r: Result<()>)
    requires Agrees(accounts, w, w) && IsTokenAt(w, Metas(accounts), index)
    modifies tx
    ensures match PayToken(env, w, Metas(accounts), accounts[index].rec.t, ds, network, old(tx.Paid()))
            case Ok(o) => r == Ok(()) && tx.Paid() == o
            case Err(e) => r == Err(e)
  {
    var account := accounts[index];
    ghost var metas := Metas(accounts);
    for i := 0 to |ds|
      invariant PayToken(env, w, metas, account.rec.t, ds, network, old(tx.Paid()))
             == PayToken(env, w, metas, account.rec.t, ds[i..], network, tx.Paid())
    {
      assert ds[i..][1..] == ds[i + 1..];
      var _ :- ValidateAccount(accounts, ds[i].feeAccount, false, false, Some(TokenKind), Some(0), w, w);
      var _ :- account.GetValidatedIndex(ds[i].address);
      var _ :- tx.AddWithdrawalOutput(env, account, ds[i], network);
    }
    return Ok(());
  }

  method AddAllWithdrawals(env: Env, accounts: seq<AccountInfo>, tokens: seq<TokenWithdrawals>, network: Network,
                           tx: TransactionBuilder, ghost w: World)
    returns (r: Result<()>)
    requires Agrees(accounts, w, w)
    modifies tx
    ensures match PayAll(env, w, Metas(accounts), tokens, network, old(tx.Paid()))
            case Ok(o) => r == Ok(()) && tx.Paid() == o
            case Err(e) => r == Err(e)
  {
    ghost var metas := Metas(accounts);
    for i := 0 to |tokens|
      invariant PayAll(env, w, metas, tokens, network, old(tx.Paid()))
          == PayAll(env, w, metas, tokens[i..], network, tx.Paid())
    {
      assert tokens[i..][1..] == tokens[i + 1..];
      var _ :- ValidateAccount(accounts, tokens[i].account, false, false, Some(TokenKind), Some(0), w, w);
      var _ :- HandleSubmitWithdrawals(env, accounts, tokens[i].account, tokens[i].withdrawals, network, tx, w);
    }
    return Ok(());
  }

  /** Who signs which input. */
  method InputsToSign(n: nat, types: seq<InputUtxoType>, programId: Key, accounts: seq<AccountInfo>)
      returns (r: Result<seq<InputToSign>>)
    requires |accounts| > 2
    ensures r == ArchLedger.Signers(n, types, programId, Metas(accounts))
  {
    var signers := [];
    for i := 0 to n
      invariant ArchLedger.Signers(i, types, programId, Metas(accounts)) == Ok(signers)
    {
      if i > 0 && i > |types| {
        SignersFail(i + 1, n, types, programId, Metas(accounts));
        return Err(Panic);
      }
      var signer := if i == 0 then accounts[1].key else if types[i - 1] == BitcoinUtxo then programId
          else accounts[2].key;
      signers := signers + [InputToSign(i, signer)];
    }
    return Ok(signers);
  }

  lemma {:induction false} SignersFail(m: nat, n: nat, types: seq<InputUtxoType>, programId: Key, metas: seq<Meta>)
    requires |metas| > 2 && m <= n && ArchLedger.Signers(m, types, programId, metas) == Err(Panic)
    ensures ArchLedger.Signers(n, types, programId, metas) == Err(Panic)
    decreases n
  {
    if m < n {
      SignersFail(m, n - 1, types, programId, metas);
    }
  }

  /** The transaction that pays out the batch. */
  method BuildWithdrawTransaction(env: Env, programId: Key, accounts: seq<AccountInfo>, b: WithdrawBatch,
                                  hasReceiver: bool, ghost w: World)
    returns (r: Result<ToSign>)
    requires Agrees(accounts, w, w) && |accounts| > 2 && accounts[0].rec.Program?
    requires HasReceiver(w, Metas(accounts), true) == Ok(hasReceiver)
    ensures r == BuildTransaction(env, w, Metas(accounts), programId, b, accounts[0].rec.p)
  {
    var network := accounts[0].GetNetworkType();
    var inputs, outputs := StateTransition(env, accounts);
    var funding := env.fundingTx(b.tx);
    if funding.None? {
      return Err(Custom(ERROR_INVALID_INPUT_TX));
    }
    inputs := inputs + Fundings(funding.value.inputs);
    var tx := new TransactionBuilder(outputs);
    var _ :- AddAllWithdrawals(env, accounts, b.tokens, network, tx, w);
    if tx.edicts != [] && !hasReceiver {
      return Err(Custom(ERROR_NO_RUNE_RECEIVER));
    }
    tx.Complete(env, programId, b.changeAmount, accounts[2].key);
    var signers :- InputsToSign(|inputs|, b.inputTypes, programId, accounts);
    return Ok(ToSign(inputs, tx.outputs, tx.edicts, signers));
  }

  method SubmitWithdrawBatch(env: Env, programId: Key, accounts: seq<AccountInfo>, b: WithdrawBatch, raw: Bytes,
                             ghost w: World)
    returns (r: Result<ToSign>)
    requires Agrees(accounts, w, w) && OnePerKey(accounts)
    modifies accounts
    ensures match SubmitWithdraw(env, w, Metas(accounts), programId, b, raw)
            case Ok(s) => r == Ok(s.toSign) && Agrees(accounts, w, s.w)
            case Err(e) => r == Err(e)
  {
    var _ :- ValidateAccount(accounts, 0, true, false, Some(ProgramKind), Some(1), w, w);
    var _ :- ValidateAccount(accounts, 1, true, true, Some(WithdrawKind), Some(0), w, w);
    var hasReceiver :- FindRuneReceiver(accounts, true, w, w);
    var stored := accounts[1].GetHash();
    if stored != env.sha(raw) {
      return Err(Custom(ERROR_WITHDRAWAL_BATCH_MISMATCH));
    }
    var toSign :- BuildWithdrawTransaction(env, programId, accounts, b, hasReceiver, w);
    accounts[1].SetHash(EMPTY_HASH);
    Stores(accounts, accounts[1], w, w);
    return Ok(toSign);
  }

  // ---------------------------------------------------------------------------
  // Rolling back
  // ---------------------------------------------------------------------------

  method GiveFeeBack(accounts: seq<AccountInfo>, index: u8, d: Withdrawal, feeAddress: Bytes, ghost base: World,
                     ghost w: World)
    returns (r: Result<()>)
    requires Agrees(accounts, base, w) && OnePerKey(accounts) && index as nat < |accounts|
    modifies accounts
    ensures match RefundFee(w, Metas(accounts), index, d, feeAddress)
            case Ok(w') => r == Ok(()) && Agrees(accounts, base, w')
            case Err(e) => r == Err(e)
  {
    if d.feeAmount > 0 {
      var _ :- ValidateAccount(accounts, d.feeAccount, false, true, Some(TokenKind), Some(0), base, w);
      var feeAccount := accounts[d.feeAccount];
      var address :- feeAccount.GetWalletAddress(0);
      if address != feeAddress {
        return Err(Custom(ERROR_ADDRESS_MISMATCH));
      }
      var _ :- feeAccount.DecrementWalletBalance(0, d.feeAmount);
      if feeAccount.key != accounts[index].key {
        var _ :- feeAccount.IncrementWalletBalance(d.feeAddress.index, d.feeAmount);
      }
      Stores(accounts, feeAccount, base, w);
    }
    return Ok(());
  }

  method GiveWithdrawalBack(accounts: seq<AccountInfo>, index: u8, d: Withdrawal, feeAddress: Bytes,
                            ghost base: World, ghost w: World)
    returns (r: Result<()>)
    requires Agrees(accounts, base, w) && OnePerKey(accounts) && IsTokenAt(w, Metas(accounts), index)
    modifies accounts
    ensures match RefundOne(w, Metas(accounts), index, d, feeAddress)
            case Ok(w') => r == Ok(()) && Agrees(accounts, base, w')
            case Err(e) => r == Err(e)
  {
    var account := accounts[index];
    var slot :- account.GetValidatedIndex(d.address);
    var credited := account.IncrementWalletBalance(slot, d.amount);
    Stores(accounts, account, base, w);
    r := GiveFeeBack(accounts, index, d, feeAddress, base, w[account.key := account.rec]);
  }

  lemma RefundedTokensOnly(w: World, metas: seq<Meta>, account: u8, d: Withdrawal, feeAddress: Bytes)
    requires RefundOne(w, metas, account, d, feeAddress).Ok?
    ensures TokensOnly(w, RefundOne(w, metas, account, d, feeAddress).value)
  {
  }

  method HandleRollbackWithdrawals(accounts: seq<AccountInfo>, index: u8, ds: seq<Withdrawal>, feeAddress: Bytes,
                                   ghost base: World, ghost w: World)
    returns (r: Result<()>, ghost w': World)
    requires Agrees(accounts, base, w) && OnePerKey(accounts) && IsTokenAt(w, Metas(accounts), index)
    modifies accounts
    ensures match RefundToken(w, Metas(accounts), index, ds, feeAddress)
            case Ok(x) => r == Ok(()) && Agrees(accounts, base, x) && TokensOnly(w, x) && w' == x
            case Err(e) => r == Err(e)
  {
    w' := w;
    ghost var metas := Metas(accounts);
    for i := 0 to |ds|
      invariant Agrees(accounts, base, w') && TokensOnly(w, w')
      invariant RefundToken(w, metas, index, ds, feeAddress) == RefundToken(w', metas, index, ds[i..], feeAddress)
    {
      assert ds[i..][1..] == ds[i + 1..];
      TokenStays(w, w', metas, index);
      ghost var x := RefundOne(w', metas, index, ds[i], feeAddress);
      r := GiveWithdrawalBack(accounts, index, ds[i], feeAddress, base, w');
      if r.Err? {
        return;
      }
      RefundedTokensOnly(w', metas, index, ds[i], feeAddress);
      TokensOnlyTrans(w, w', x.value);
      w' := x.value;
    }
    r := Ok(());
  }

  method GiveAllBack(accounts: seq<AccountInfo>, tokens: seq<TokenWithdrawals>, ghost base: World, ghost w: World)
    returns (r: Result<()>, ghost w': World)
    requires Agrees(accounts, base, w) && OnePerKey(accounts) && |accounts| > 0 && accounts[0].rec.Program?
    modifies accounts
    ensures match RefundAll(w, Metas(accounts), tokens, UpToNul(old(accounts[0].rec.p.feeAccount)))
            case Ok(x) => r == Ok(()) && Agrees(accounts, base, x) && TokensOnly(w, x) && w' == x
            case Err(e) => r == Err(e)
  {
    w' := w;
    ghost var metas, program := Metas(accounts), accounts[0].rec;
    for i := 0 to |tokens|
      invariant Agrees(accounts, base, w') && TokensOnly(w, w')
      invariant RefundAll(w, metas, tokens, UpToNul(program.p.feeAccount))
          == RefundAll(w', metas, tokens[i..], UpToNul(program.p.feeAccount))
    {
      assert tokens[i..][1..] == tokens[i + 1..];
      assert At(w', accounts[0].key) == program;
      var valid := ValidateAccount(accounts, tokens[i].account, false, true, Some(TokenKind), Some(0), base, w');
      if valid.Err? {
        r := valid;
        return;
      }
      var feeAddress := accounts[0].GetFeeAccountAddress();
      ghost var w1;
      r, w1 := HandleRollbackWithdrawals(accounts, tokens[i].account, tokens[i].withdrawals, feeAddress, base, w');
      if r.Err? {
        return;
      }
      TokensOnlyTrans(w, w', w1);
      w' := w1;
    }
    r := Ok(());
  }

  method RollbackWithdrawBatch(accounts: seq<AccountInfo>, tokens: seq<TokenWithdrawals>, ghost w: World)
      returns (r: Result<()>)
    requires Agrees(accounts, w, w) && OnePerKey(accounts)
    modifies accounts
    ensures Achieves(accounts, w, r, RollbackWithdraw(w, Metas(accounts), tokens))
  {
    var _ :- ValidateAccount(accounts, 0, true, false, Some(ProgramKind), Some(1), w, w);
    var _ :- ValidateAccount(accounts, 1, false, true, Some(WithdrawKind), Some(0), w, w);
    ghost var w1;
    r, w1 := GiveAllBack(accounts, tokens, w, w);
    if r.Ok? {
      assert At(w1, accounts[1].key) == At(w, accounts[1].key);
      accounts[1].SetHash(EMPTY_HASH);
      Stores(accounts, accounts[1], w, w1);
    }
  }

  /** The state UTXO is kept by the node; the account data does not change. */
  method UpdateWithdrawStateUtxo(env: Env, accounts: seq<AccountInfo>, txId: Bytes, ghost w: World)
      returns (r: Result<()>)
    requires Agrees(accounts, w, w)
    ensures Achieves(accounts, w, r, UpdateUtxo(env, w, Metas(accounts), txId))
  {
    var _ :- ValidateAccount(accounts, 0, true, false, Some(ProgramKind), Some(1), w, w);
    var _ :- ValidateAccount(accounts, 1, true, true, Some(WithdrawKind), Some(0), w, w);
    if !env.txIdParses(txId) {
      return Err(Panic);
    }
    return Ok(());
  }
}
