/** The handlers of the Arch exchange program (program/src/lib.rs), over mutable
    accounts, each proved against what ArchLedger says its instruction does. */
module ArchProgram {
  import opened Machine
  import opened Wrappers
  import opened ArchTypes
  import opened ArchLedger
  import opened ArchLayout
  import opened ArchAccounts

  // ---------------------------------------------------------------------------
  // Accounts and the ledger they stand for
  // ---------------------------------------------------------------------------

  function Metas(accounts: seq<AccountInfo>): seq<Meta> {
    seq(|accounts|, i requires 0 <= i < |accounts| =>
        Meta(accounts[i].key, accounts[i].isSigner, accounts[i].isWritable))
  }

  /** An account may be listed more than once, but it is then the same object. */
  predicate OnePerKey(accounts: seq<AccountInfo>) {
    forall a, b | a in accounts && b in accounts :: a.key == b.key ==> a == b
  }

  predicate Listed(accounts: seq<AccountInfo>, k: Key) {
    exists a :: a in accounts && a.key == k
  }

  /** The accounts hold what `w` says, and the rest of `w` is as in `base`. */
  ghost predicate Agrees(accounts: seq<AccountInfo>, base: World, w: World)
    reads accounts
  {
    && (forall a | a in accounts :: a.Valid() && a.rec == At(w, a.key))
    && (forall k: Key | !Listed(accounts, k) :: At(w, k) == At(base, k))
  }

  /** The handler returned what the specification says, and on success the
      accounts hold what the specification says. */
  ghost predicate Achieves(accounts: seq<AccountInfo>, base: World, r: Result<()>, spec: Result<World>)
    reads accounts
  {
    match spec
    case Ok(w) => r == Ok(()) && Agrees(accounts, base, w)
    case Err(e) => r == Err(e)
  }

  function Checked<T>(r: Result<T>): Result<()> {
    match r case Ok(_) => Ok(()) case Err(e) => Err(e)
  }

  /** All accounts but `a` hold what `w` says. */
  ghost predicate AgreesBut(accounts: seq<AccountInfo>, a: AccountInfo, base: World, w: World)
    reads accounts
  {
    && (forall b | b in accounts && b != a :: b.Valid() && b.rec == At(w, b.key))
    && (forall k: Key | !Listed(accounts, k) :: At(w, k) == At(base, k))
  }

  /** Once one account has changed, the accounts agree with the world in which
      that account has changed. */
  lemma Stores(accounts: seq<AccountInfo>, a: AccountInfo, base: World, w: World)
    requires AgreesBut(accounts, a, base, w) && OnePerKey(accounts) && a in accounts && a.Valid()
    ensures Agrees(accounts, base, w[a.key := a.rec])
  {
  }

  /** Token accounts look the same whatever is in the program account. */
  lemma TokensSeenThrough(w: World, metas: seq<Meta>, p: ProgramState, index: nat, writable: bool)
    requires 0 < |metas| && At(w, metas[0].key).Program?
    ensures ExpectToken(w[metas[0].key := Program(p)], metas, index, writable) == ExpectToken(w, metas, index, writable)
  {
  }

  method ValidateAccount(accounts: seq<AccountInfo>, index: nat, signer: bool, writable: bool, kind: Option<Kind>,
                         related: Option<nat>, ghost base: World, ghost w: World) returns (r: Result<()>)
    requires Agrees(accounts, base, w)
    ensures kind.None? ==> r == ExpectEmpty(w, Metas(accounts), index, signer, writable)
    ensures kind.Some? ==> r == Checked(Expect(w, Metas(accounts), index, signer, writable, kind.value, related))
  {
    if index >= |accounts| {
      return Err(Custom(ERROR_INVALID_ACCOUNT_INDEX));
    }
    var account := accounts[index];
    if account.isSigner != signer || account.isWritable != writable {
      return Err(Custom(ERROR_INVALID_ACCOUNT_FLAGS));
    }
    if kind.Some? {
      r := ValidateType(accounts, account, kind.value, related);
    } else {
      EmptyData(account.rec);
      r := if |account.data| != 0 then Err(Custom(ERROR_ALREADY_INITIALIZED)) else Ok(());
    }
  }

  /** The type of an account, and the account it belongs to. */
  method ValidateType(accounts: seq<AccountInfo>, account: AccountInfo, kind: Kind, related: Option<nat>)
      returns (r: Result<()>)
    requires account.Valid()
    ensures r == if account.rec.Empty? then Err(Panic)
                 else if !IsKind(account.rec, kind) then Err(Custom(ERROR_INVALID_ACCOUNT_TYPE))
                 else if related.None? then Ok(())
                 else if related.value >= |accounts| then Err(Panic)
                 else if RelatedKey(account.rec) != accounts[related.value].key
                     then Err(Custom(ERROR_STATE_ACCOUNT_MISMATCH))
                 else Ok(())
  {
    var actual :- account.GetType();
    if actual != Some(kind) {
      return Err(Custom(ERROR_INVALID_ACCOUNT_TYPE));
    }
    if related.Some? {
      if related.value >= |accounts| {
        return Err(Panic);
      }
      var key := account.GetRelatedKey();
      if key != accounts[related.value].key {
        return Err(Custom(ERROR_STATE_ACCOUNT_MISMATCH));
      }
    }
    return Ok(());
  }

  lemma EmptyData(a: Account)
    requires Stored(a)
    ensures |BytesOf(a)| == 0 <==> a.Empty?
  {
  }

  /** Is the third account a rune receiver, and then a valid one? */
  method FindRuneReceiver(accounts: seq<AccountInfo>, signer: bool, ghost base: World, ghost w: World)
      returns (r: Result<bool>)
    requires Agrees(accounts, base, w)
    ensures r == HasReceiver(w, Metas(accounts), signer)
  {
    if |accounts| < 3 {
      return Err(Panic);
    }
    var kind :- accounts[2].GetType();
    if kind != Some(RuneReceiverKind) {
      return Ok(false);
    }
    var _ :- ValidateAccount(accounts, 2, signer, false, Some(RuneReceiverKind), Some(0), base, w);
    return Ok(true);
  }

  // ---------------------------------------------------------------------------
  // Setting up accounts
  // ---------------------------------------------------------------------------

  method InitTokenState(env: Env, accounts: seq<AccountInfo>, tokenId: Bytes, ghost w: World) returns (r: Result<()>)
    requires Agrees(accounts, w, w) && OnePerKey(accounts)
    modifies accounts
    ensures Achieves(accounts, w, r, InitToken(env, w, Metas(accounts), tokenId))
  {
    var _ :- ValidateAccount(accounts, 0, true, false, Some(ProgramKind), None, w, w);
    var _ :- ValidateAccount(accounts, 1, false, true, None, None, w, w);
    var feeAddress := accounts[0].GetFeeAccountAddress();
    var _ :- accounts[1].InitializeToken(env, tokenId, feeAddress, accounts[0].key);
    Stores(accounts, accounts[1], w, w);
    return Ok(());
  }

  method SetTokenRuneId(env: Env, accounts: seq<AccountInfo>, runeId: Bytes, ghost w: World) returns (r: Result<()>)
    requires Agrees(accounts, w, w) && OnePerKey(accounts)
    modifies accounts
    ensures Achieves(accounts, w, r, SetRuneId(env, w, Metas(accounts), runeId))
  {
    var _ :- ValidateAccount(accounts, 0, true, false, Some(ProgramKind), None, w, w);
    var _ :- ValidateAccount(accounts, 1, false, true, Some(TokenKind), Some(0), w, w);
    if env.rune(runeId).None? {
      return Err(Custom(ERROR_INVALID_RUNE_ID));
    }
    var _ :- accounts[1].SetTokenId(runeId);
    Stores(accounts, accounts[1], w, w);
    return Ok(());
  }

  method InitRuneReceiverState(accounts: seq<AccountInfo>, ghost w: World) returns (r: Result<()>)
    requires Agrees(accounts, w, w) && OnePerKey(accounts)
    modifies accounts
    ensures Achieves(accounts, w, r, InitRuneReceiver(w, Metas(accounts)))
  {
    var _ :- ValidateAccount(accounts, 0, true, true, Some(ProgramKind), None, w, w);
    var _ :- ValidateAccount(accounts, 1, false, true, None, None, w, w);
    InitializeRuneReceiver(accounts, w, w);
    return Ok(());
  }

  /** RuneReceiverState::initialize for an empty second account. */
  method InitializeRuneReceiver(accounts: seq<AccountInfo>, ghost base: World, ghost w: World)
    requires Agrees(accounts, base, w) && OnePerKey(accounts)
    requires |accounts| > 1 && accounts[0].rec.Program? && accounts[1].rec.Empty?
    modifies accounts
    ensures Agrees(accounts, base, AddReceiver(w, Metas(accounts), old(accounts[0].rec.p)))
  {
    accounts[1].InitializeRuneReceiver(accounts[0].key);
    ghost var w1 := w[accounts[1].key := accounts[1].rec];
    Stores(accounts, accounts[1], base, w);
    if |accounts[0].data| == RUNE_RECEIVER_OFFSET {
      accounts[0].AddRuneReceiver(accounts[1].key);
      Stores(accounts, accounts[0], base, w1);
    }
  }

  method InitProgramState(env: Env, accounts: seq<AccountInfo>, feeAccount: Bytes, changeAddress: Bytes,
                          network: Network, ghost w: World)
    returns (r: Result<()>)
    requires Agrees(accounts, w, w) && OnePerKey(accounts)
    modifies accounts
    ensures Achieves(accounts, w, r, InitProgram(env, w, Metas(accounts), feeAccount, changeAddress, network))
  {
    var _ :- ValidateAccount(accounts, 0, true, true, None, None, w, w);
    var _ :- ValidateAccount(accounts, 1, false, true, None, None, w, w);
    if |accounts| == 3 {
      var _ :- ValidateAccount(accounts, 2, false, true, None, None, w, w);
    }
    var _ :- ValidAddress(env, changeAddress, network, true);
    var _ :- ValidAddress(env, feeAccount, network, true);
    if |feeAccount| > MAX_ADDRESS_SIZE || |changeAddress| > MAX_ADDRESS_SIZE {
      return Err(Panic);
    }
    assert accounts[0] != accounts[1];
    r := InitializeAll(accounts, NewProgram(accounts[1].key, feeAccount, changeAddress, network), w);
  }

  /** A new program account, and the accounts behind it. */
  method InitializeAll(accounts: seq<AccountInfo>, p: ProgramState, ghost w: World) returns (r: Result<()>)
    requires Agrees(accounts, w, w) && OnePerKey(accounts)
    requires |accounts| > 1 && accounts[0] != accounts[1] && accounts[0].rec.Empty? && accounts[1].rec.Empty?
    requires Stored(Program(p)) && p == NewProgram(accounts[1].key, p.feeAccount, p.changeAddress, p.network)
    modifies accounts
    ensures Achieves(accounts, w, r, Initialized(w, Metas(accounts), p))
  {
    accounts[0].InitStateData(ProgramHead(p) + ToLE(0, 2), EVENT_SIZE * MAX_EVENTS, p);
    Stores(accounts, accounts[0], w, w);
    r := InitializeOthers(accounts, p, w, w[accounts[0].key := Program(p)]);
  }

  function Initialized(w: World, metas: seq<Meta>, p: ProgramState): Result<World>
    requires |metas| > 1
  {
    InitializedBehind(w[metas[0].key := Program(p)], metas, p)
  }

  function InitializedBehind(w: World, metas: seq<Meta>, p: ProgramState): Result<World>
    requires |metas| > 1
  {
    if |metas| != 3 then Ok(w[metas[1].key := Withdraw(metas[0].key, EMPTY_HASH)])
    else if metas[2].key != metas[1].key then Err(Panic) else Ok(AddReceiver(w, metas, p))
  }

  /** The accounts behind a new program account. */
  method InitializeOthers(accounts: seq<AccountInfo>, ghost p: ProgramState, ghost base: World, ghost w: World)
      returns (r: Result<()>)
    requires Agrees(accounts, base, w) && OnePerKey(accounts)
    requires |accounts| > 1 && accounts[0].rec == Program(p) && accounts[1].rec.Empty?
    modifies accounts
    ensures Achieves(accounts, base, r, InitializedBehind(w, Metas(accounts), p))
  {
    if |accounts| == 3 {
      if accounts[2] != accounts[1] {
        return Err(Panic);
      }
      InitializeRuneReceiver(accounts, base, w);
      ghost var w1 := AddReceiver(w, Metas(accounts), p);
      accounts[1].InitializeWithdraw(accounts[0].key);
      Stores(accounts, accounts[1], base, w1);
      assert w1[accounts[1].key := accounts[1].rec] == w1;
    } else {
      accounts[1].InitializeWithdraw(accounts[0].key);
      Stores(accounts, accounts[1], base, w);
    }
    return Ok(());
  }

  /** Set the addresses of new wallets behind the ones there are. */
  method AddWalletsTo(env: Env, account: AccountInfo, wallets: seq<Bytes>, network: Network) returns (r: Result<()>)
    requires account.Valid() && account.rec.Token?
    modifies account
    ensures match AddWallets(env, old(account.rec.t), account.originalDataLen, wallets, network)
            case Ok(t) => r == Ok(()) && account.Valid() && account.rec == Token(t)
            case Err(e) => r == Err(e)
  {
    WalletsAdded(env, account.rec.t, account.originalDataLen, wallets, network);
    ghost var outcome := AddWallets(env, account.rec.t, account.originalDataLen, wallets, network);
    account.GrowBalanceAccountsIfNeeded(|wallets|);
    r := AddWalletsInto(env, account, wallets, network, outcome);
  }

  lemma WalletsAdded(env: Env, t: TokenState, originalSize: nat, wallets: seq<Bytes>, network: Network)
    ensures var grown := Grow(t, originalSize, |wallets|);
            AddWallets(env, t, originalSize, wallets, network)
                == Counted(SetAddresses(env, grown, grown.count, wallets, network), grown.count + |wallets|)
  {
  }

  /** The outcome with the new count stored in it. */
  function Counted(r: Result<TokenState>, count: nat): Result<TokenState> {
    match r
    case Ok(t) => Ok(t.(count := count % U32))
    case Err(e) => Err(e)
  }

  method AddWalletsInto(env: Env, account: AccountInfo, wallets: seq<Bytes>, network: Network,
                        ghost outcome: Result<TokenState>)
    returns (r: Result<()>)
    requires account.Valid() && account.rec.Token?
    requires var count := account.rec.t.count;
             outcome == Counted(SetAddresses(env, account.rec.t, count, wallets, network), count + |wallets|)
    modifies account
    ensures r.Ok? ==> account.Valid()
    ensures match outcome
            case Ok(t) => r == Ok(()) && account.rec == Token(t)
            case Err(e) => r == Err(e)
  {
    var count := account.GetNumBalances();
    ghost var addressed := SetAddresses(env, account.rec.t, count, wallets, network);
    var _ :- SetWalletAddresses(env, account, count, wallets, network, addressed);
    account.SetNumBalances(count + |wallets|);
    return Ok(());
  }

  method SetWalletAddresses(env: Env, account: AccountInfo, start: nat, wallets: seq<Bytes>, network: Network,
                            ghost outcome: Result<TokenState>)
    returns (r: Result<()>)
    requires account.Valid() && account.rec.Token? && start <= |account.rec.t.slots|
    requires outcome == SetAddresses(env, account.rec.t, start, wallets, network)
    modifies account
    ensures match outcome
            case Ok(t) => r == Ok(()) && account.Valid() && account.rec == Token(t) && start + |wallets| <= |t.slots|
            case Err(e) => r == Err(e)
  {
    var count := start;
    for i := 0 to |wallets|
      invariant account.Valid() && account.rec.Token? && count == start + i <= |account.rec.t.slots|
      invariant outcome == SetAddresses(env, account.rec.t, count, wallets[i..], network)
    {
      SetNext(env, account.rec.t, count, wallets, i, network);
      var _ :- SetNextAddress(env, account, count, wallets[i], network);
      count := count + 1;
    }
    return Ok(());
  }

  function SetValid(env: Env, t: TokenState, index: nat, wallet: Bytes, network: Network): Result<TokenState> {
    var _ :- ValidAddress(env, wallet, network, false);
    SetAddress(t, index, wallet)
  }

  lemma SetNext(env: Env, t: TokenState, index: nat, wallets: seq<Bytes>, i: nat, network: Network)
    requires i < |wallets|
    ensures match SetValid(env, t, index, wallets[i], network)
            case Ok(t') => SetAddresses(env, t, index, wallets[i..], network)
                == SetAddresses(env, t', index + 1, wallets[i + 1..], network)
            case Err(e) => SetAddresses(env, t, index, wallets[i..], network) == Err(e)
  {
    assert wallets[i..][1..] == wallets[i + 1..];
  }

  method SetNextAddress(env: Env, account: AccountInfo, index: nat, wallet: Bytes, network: Network)
      returns (r: Result<()>)
    requires account.Valid() && account.rec.Token?
    modifies account
    ensures match SetValid(env, old(account.rec.t), index, wallet, network)
            case Ok(t) => r == Ok(()) && account.Valid() && account.rec == Token(t) && index < |t.slots|
            case Err(e) => r == Err(e)
  {
    var _ :- ValidAddress(env, wallet, network, false);
    r := account.SetWalletAddress(index, wallet);
  }

  /** No account has grown yet. */
  ghost predicate Fresh(accounts: seq<AccountInfo>, w: World) {
    forall a | a in accounts :: a.originalDataLen == SizeOf(At(w, a.key))
  }

  /** The rest of the setups, once the account of the next one is known to be good. */
  predicate SetUpFirst(env: Env, original: World, w: World, metas: seq<Meta>, setups: seq<TokenSetup>, i: nat,
                       network: Network)
    requires i < |setups| && ExpectToken(w, metas, setups[i].account, true).Ok?
  {
    var key := metas[setups[i].account].key;
    match AddWallets(env, At(w, key).t, SizeOf(At(original, key)), setups[i].wallets, network)
    case Err(e) => SetUpTokens(env, original, w, metas, setups[i..], network) == Err(e)
    case Ok(t) =>
      SetUpTokens(env, original, w, metas, setups[i..], network)
          == SetUpTokens(env, original, w[key := Token(t)], metas, setups[i + 1..], network)
  }

  lemma SetUpNext(env: Env, original: World, w: World, metas: seq<Meta>, setups: seq<TokenSetup>, i: nat,
                  network: Network)
    requires i < |setups|
    ensures var t := ExpectToken(w, metas, setups[i].account, true);
            t.Err? ==> SetUpTokens(env, original, w, metas, setups[i..], network) == Err(t.error)
    ensures ExpectToken(w, metas, setups[i].account, true).Ok?
        ==> SetUpFirst(env, original, w, metas, setups, i, network)
  {
    assert setups[i..][1..] == setups[i + 1..];
  }

  method InitWalletBalances(env: Env, accounts: seq<AccountInfo>, setups: seq<TokenSetup>, ghost w: World)
      returns (r: Result<()>)
    requires Agrees(accounts, w, w) && OnePerKey(accounts) && Fresh(accounts, w)
    modifies accounts
    ensures Achieves(accounts, w, r, InitWallets(env, w, Metas(accounts), setups))
  {
    var _ :- ValidateAccount(accounts, 0, true, false, Some(ProgramKind), None, w, w);
    var network := accounts[0].GetNetworkType();
    ghost var wi: World, metas := w, Metas(accounts);
    for i := 0 to |setups|
      invariant Agrees(accounts, w, wi)
      invariant SetUpTokens(env, w, w, metas, setups, network) == SetUpTokens(env, w, wi, metas, setups[i..], network)
    {
      SetUpNext(env, w, wi, metas, setups, i, network);
      var _ :- ValidateAccount(accounts, setups[i].account, false, true, Some(TokenKind), Some(0), w, wi);
      var account := accounts[setups[i].account];
      var _ :- AddWalletsTo(env, account, setups[i].wallets, network);
      Stores(accounts, account, w, wi);
      wi := wi[account.key := account.rec];
    }
    return Ok(());
  }

  // ---------------------------------------------------------------------------
  // Deposits and settlement
  // ---------------------------------------------------------------------------

  method DepositBatch(accounts: seq<AccountInfo>, ds: seq<TokenDeposits>, ghost w: World) returns (r: Result<()>)
    requires Agrees(accounts, w, w) && OnePerKey(accounts)
    modifies accounts
    ensures Achieves(accounts, w, r, ArchLedger.DepositBatch(w, Metas(accounts), ds))
  {
    var _ :- ValidateAccount(accounts, 0, true, false, Some(ProgramKind), None, w, w);
    ghost var wi: World, metas := w, Metas(accounts);
    for i := 0 to |ds|
      invariant Agrees(accounts, w, wi)
      invariant DepositAll(w, metas, ds) == DepositAll(wi, metas, ds[i..])
    {
      assert ds[i..][1..] == ds[i + 1..];
      var _ :- ValidateAccount(accounts, ds[i].account, false, true, Some(TokenKind), Some(0), w, wi);
      var account := accounts[ds[i].account];
      var _ :- account.HandleAdjustments(ds[i].deposits, true);
      Stores(accounts, account, w, wi);
      wi := wi[account.key := account.rec];
    }
    return Ok(());
  }

  /** Sum up the decrements, and report those that are not covered. */
  method VerifyDecrements(accounts: seq<AccountInfo>, index: u8, adjs: seq<Adjustment>) returns (r: Result<u64>)
    requires index as nat < |accounts| && accounts[0].Valid() && accounts[0].rec.Program?
    requires accounts[index].Valid() && accounts[index].rec.Token?
    modifies accounts[0]
    ensures match ArchLedger.VerifyDecrements(accounts[index].rec.t, index, adjs, Tally(0, old(accounts[0].rec.p)))
            case Ok(y) => r == Ok(y.total) && accounts[0].Valid() && accounts[0].rec == Program(y.p)
            case Err(e) => r == Err(e)
  {
    var account := accounts[index];
    var total: u64 := 0;
    ghost var t := account.rec.t;
    for i := 0 to |adjs|
      invariant accounts[0].Valid() && accounts[0].rec.Program? && account.Valid() && account.rec == Token(t)
      invariant ArchLedger.VerifyDecrements(t, index, adjs, Tally(0, old(accounts[0].rec.p)))
             == ArchLedger.VerifyDecrements(t, index, adjs[i..], Tally(total, accounts[0].rec.p))
    {
      assert adjs[i..][1..] == adjs[i + 1..];
      var a := adjs[i];
      var slot :- account.GetValidatedIndex(a.address);
      var balance := account.GetWalletBalance(slot);
      total := WrapAdd(total, a.amount);
      if a.amount > balance.value {
        var _ :- accounts[0].Emit(FailedSettlement(index, a.address.index, a.amount, balance.value,
            ERROR_INSUFFICIENT_BALANCE));
      }
    }
    return Ok(total);
  }

  method VerifyIncrements(accounts: seq<AccountInfo>, index: u8, adjs: seq<Adjustment>) returns (r: Result<u64>)
    requires index as nat < |accounts| && accounts[index].Valid() && accounts[index].rec.Token?
    ensures r == ArchLedger.VerifyIncrements(accounts[index].rec.t, adjs, 0)
  {
    var account := accounts[index];
    var total: u64 := 0;
    for i := 0 to |adjs|
      invariant ArchLedger.VerifyIncrements(account.rec.t, adjs, 0)
          == ArchLedger.VerifyIncrements(account.rec.t, adjs[i..], total)
    {
      assert adjs[i..][1..] == adjs[i + 1..];
      var _ :- account.GetValidatedIndex(adjs[i].address);
      total := WrapAdd(total, adjs[i].amount);
    }
    return Ok(total);
  }

  /** Verify the settlements of one token account, and add up what they net to. */
  method VerifySettlement(accounts: seq<AccountInfo>, s: Settlement, total: int, ghost base: World, ghost w: World)
      returns (r: Result<int>)
    requires OnePerKey(accounts) && |accounts| > 0 && At(w, accounts[0].key).Program?
    requires accounts[0].rec.Program? && Agrees(accounts, base, w[accounts[0].key := accounts[0].rec])
    modifies accounts
    ensures match VerifySettlements(w, Metas(accounts), [s], Netting(total, old(accounts[0].rec.p)))
            case Ok(n) => r == Ok(n.total) && accounts[0].rec == Program(n.p)
                          && Agrees(accounts, base, w[accounts[0].key := accounts[0].rec])
            case Err(e) => r == Err(e)
  {
    ghost var wi: World := w[accounts[0].key := accounts[0].rec];
    TokensSeenThrough(w, Metas(accounts), accounts[0].rec.p, s.account, false);
    var _ :- ValidateAccount(accounts, s.account, false, false, Some(TokenKind), Some(0), base, wi);
    VerifyOneAccount(w, Metas(accounts), s, accounts[s.account].rec.t, Netting(total, accounts[0].rec.p));
    var net :- NetSettlement(accounts, s, total);
    Stores(accounts, accounts[0], base, wi);
    assert wi[accounts[0].key := accounts[0].rec] == w[accounts[0].key := accounts[0].rec];
    return Ok(net);
  }

  lemma VerifyOneAccount(w: World, metas: seq<Meta>, s: Settlement, t: TokenState, n: Netting)
    requires ExpectToken(w, metas, s.account, false) == Ok(t)
    ensures VerifySettlements(w, metas, [s], n) == ArchLedger.VerifySettlement(t, s, n)
  {
    assert [s][1..] == [];
  }

  method NetSettlement(accounts: seq<AccountInfo>, s: Settlement, total: int) returns (r: Result<int>)
    requires s.account as nat < |accounts| && accounts[0].Valid() && accounts[0].rec.Program?
    requires accounts[s.account].Valid() && accounts[s.account].rec.Token?
    modifies accounts[0]
    ensures var t := accounts[s.account].rec.t;
            match ArchLedger.VerifySettlement(t, s, Netting(total, old(accounts[0].rec.p)))
            case Err(e) => r == Err(e)
            case Ok(n) => r == Ok(n.total) && accounts[0].Valid() && accounts[0].rec == Program(n.p)
  {
    var decrements :- VerifyDecrements(accounts, s.account, s.decrements);
    var increments :- VerifyIncrements(accounts, s.account, s.increments);
    return Ok(NetOf(total, increments, s.feeAmount, decrements));
  }

  lemma VerifyFirst(w: World, metas: seq<Meta>, ss: seq<Settlement>, n: Netting)
    requires ss != []
    ensures VerifySettlements(w, metas, ss, n)
         == match VerifySettlements(w, metas, [ss[0]], n)
            case Ok(n') => VerifySettlements(w, metas, ss[1..], n')
            case Err(e) => Err(e)
  {
    var t := ExpectToken(w, metas, ss[0].account, false);
    if t.Ok? {
      VerifyOneAccount(w, metas, ss[0], t.value, n);
    }
  }

  method PrepareSettlementBatch(env: Env, accounts: seq<AccountInfo>, ss: seq<Settlement>, raw: Bytes, ghost w: World)
      returns (r: Result<()>)
    requires Agrees(accounts, w, w) && OnePerKey(accounts)
    modifies accounts
    ensures Achieves(accounts, w, r, PrepareSettlement(env, w, Metas(accounts), ss, raw))
  {
    var _ :- ValidateAccount(accounts, 0, true, true, Some(ProgramKind), None, w, w);
    var hash := accounts[0].GetSettlementHash();
    if hash != EMPTY_HASH {
      return Err(Custom(ERROR_SETTLEMENT_IN_PROGRESS));
    }
    accounts[0].ClearReport();
    Stores(accounts, accounts[0], w, w);
    var total :- VerifyAllSettlements(accounts, ss, w, w);
    if total != 0 {
      return Err(Custom(ERROR_NETTING));
    }
    AcceptSettlement(accounts, env.sha(raw), w, w);
    return Ok(());
  }

  /** Store the hash, unless something was reported. */
  method AcceptSettlement(accounts: seq<AccountInfo>, hash: Hash, ghost base: World, ghost w: World)
    requires OnePerKey(accounts) && |accounts| > 0 && accounts[0].rec.Program?
    requires Agrees(accounts, base, w[accounts[0].key := accounts[0].rec])
    modifies accounts
    ensures var p := old(accounts[0].rec.p);
            Agrees(accounts, base, w[accounts[0].key :=
                Program(if p.events == [] then p.(settlementHash := hash) else p)])
  {
    var reported := accounts[0].GetEventsCount();
    if reported == 0 {
      ghost var wi: World := w[accounts[0].key := accounts[0].rec];
      accounts[0].SetSettlementHash(hash);
      Stores(accounts, accounts[0], base, wi);
      assert wi[accounts[0].key := accounts[0].rec] == w[accounts[0].key := accounts[0].rec];
    }
  }

  method VerifyAllSettlements(accounts: seq<AccountInfo>, ss: seq<Settlement>, ghost base: World, ghost w: World)
      returns (r: Result<int>)
    requires OnePerKey(accounts) && |accounts| > 0 && At(w, accounts[0].key).Program?
    requires accounts[0].rec.Program? && Agrees(accounts, base, w[accounts[0].key := accounts[0].rec])
    modifies accounts
    ensures match VerifySettlements(w, Metas(accounts), ss, Netting(0, old(accounts[0].rec.p)))
            case Ok(n) => r == Ok(n.total) && accounts[0].rec == Program(n.p)
                          && Agrees(accounts, base, w[accounts[0].key := accounts[0].rec])
            case Err(e) => r == Err(e)
  {
    var nettingTotal := 0;
    ghost var start, metas := Netting(0, accounts[0].rec.p), Metas(accounts);
    for i := 0 to |ss|
      invariant accounts[0].rec.Program? && Agrees(accounts, base, w[accounts[0].key := accounts[0].rec])
      invariant VerifySettlements(w, metas, ss, start)
          == VerifySettlements(w, metas, ss[i..], Netting(nettingTotal, accounts[0].rec.p))
    {
      assert ss[i..][1..] == ss[i + 1..];
      VerifyFirst(w, metas, ss[i..], Netting(nettingTotal, accounts[0].rec.p));
      nettingTotal :- VerifySettlement(accounts, ss[i], nettingTotal, base, w);
    }
    return Ok(nettingTotal);
  }

  /** The fee, the increments and the decrements of one token account. */
  method SettleAccount(account: AccountInfo, s: Settlement) returns (r: Result<()>)
    requires account.Valid() && account.rec.Token?
    modifies account
    ensures match SettleToken(old(account.rec.t), s)
            case Ok(t) => r == Ok(()) && account.Valid() && account.rec == Token(t)
            case Err(e) => r == Err(e)
  {
    if s.feeAmount > 0 {
      var last4 :- account.GetWalletAddressLast4(0);
      var _ :- account.HandleAdjustments([Adjustment(AddressIndex(0, last4), s.feeAmount)], true);
    }
    var _ :- account.HandleAdjustments(s.increments, true);
    var _ :- account.HandleAdjustments(s.decrements, false);
    return Ok(());
  }

  method SubmitSettlementBatch(env: Env, accounts: seq<AccountInfo>, ss: seq<Settlement>, raw: Bytes, ghost w: World)
      returns (r: Result<()>)
    requires Agrees(accounts, w, w) && OnePerKey(accounts)
    modifies accounts
    ensures Achieves(accounts, w, r, SubmitSettlement(env, w, Metas(accounts), ss, raw))
  {
    var _ :- ValidateAccount(accounts, 0, true, true, Some(ProgramKind), None, w, w);
    var current := accounts[0].GetSettlementHash();
    var hash := env.sha(raw);
    if current == EMPTY_HASH {
      return Err(Custom(ERROR_NO_SETTLEMENT_IN_PROGRESS));
    }
    if current != hash {
      return Err(Custom(ERROR_SETTLEMENT_BATCH_MISMATCH));
    }
    ghost var wi: World, metas, program := w, Metas(accounts), accounts[0].rec;
    for i := 0 to |ss|
      invariant Agrees(accounts, w, wi) && accounts[0].rec == program
      invariant SettleAll(w, metas, ss) == SettleAll(wi, metas, ss[i..])
    {
      assert ss[i..][1..] == ss[i + 1..];
      var _ :- ValidateAccount(accounts, ss[i].account, false, true, Some(TokenKind), Some(0), w, wi);
      var account := accounts[ss[i].account];
      var _ :- SettleAccount(account, ss[i]);
      Stores(accounts, account, w, wi);
      wi := wi[account.key := account.rec];
    }
    accounts[0].SetLastSettlementHash(hash);
    accounts[0].SetSettlementHash(EMPTY_HASH);
    Stores(accounts, accounts[0], w, wi);
    return Ok(());
  }

  method RollbackSettlementBatch(accounts: seq<AccountInfo>, ghost w: World) returns (r: Result<()>)
    requires Agrees(accounts, w, w) && OnePerKey(accounts)
    modifies accounts
    ensures Achieves(accounts, w, r, RollbackSettlement(w, Metas(accounts)))
  {
    var _ :- ValidateAccount(accounts, 0, true, true, Some(ProgramKind), None, w, w);
    accounts[0].SetSettlementHash(EMPTY_HASH);
    Stores(accounts, accounts[0], w, w);
    return Ok(());
  }
}
