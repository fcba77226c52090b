# A verified model of the exchange ledgers

An exchange that matches orders off chain keeps its customers' balances on chain. This project models the three
ledgers that do so and proves what they are for: where money comes from and goes to, and exactly when it is conserved;
when a batch that was verified can be applied; when a rollback undoes; and that a prepared batch is applied at most
once.

Verify everything with `dafny verify dfyconfig.toml`.

## The system

**The Arch exchange program** keeps balances in flat account data. An instruction names accounts by index, and the
same account may be listed twice. A settlement or withdrawal batch is *prepared* (checked against the balances, every
shortfall reported as an event in the program account; if there is none, a digest of the batch is stored), and then
*submitted* (applied, or paid out by a Bitcoin transaction with rune edicts) or *rolled back*.

- `ArchTypes`, `ArchLedger`: instructions, accounts as records, and each instruction as a function from the accounts
  before it to the accounts after it, with every error in the order in which the code finds it. A panic is an error;
  an error leaves the accounts as they were.
- `ArchLayout`, `ArchStateCodec`, `ArchAccounts`: the same accounts as bytes at fixed offsets; the object `AccountInfo`
  whose methods read and overwrite those bytes in place, each proved to change exactly its own field of the record
  that the bytes stand for; and the decoders a client reads accounts with.
- `ArchProgram`, `ArchWithdrawProgram`, `ArchProcess`: the handlers, loop by loop, over such objects (possibly the
  same object more than once), proved to have exactly the outcome that `ArchLedger` gives, error codes included. So
  what is proved of `ArchLedger` holds of the handlers.
- `ArchCodec`, `ArchWire`: the instruction codec as functions, and as a reader that is used up and a writer that is
  appended to.
- `ArchChecks`, `ArchReports`, `ArchOutcomes`, `ArchCharges`, `ArchSubmission`: what the checks mean in terms of the
  accounts, and exactly when each instruction goes through; `ArchErrors`: with which error it does not; `ArchAuthority`:
  who has to sign, and what may be written; `ArchFormat`: where each field of an event or an instruction is.
- `ArchFrames`, `ArchInvariants`, `ArchMoney`, `ArchConservation`, `ArchRoom`, `ArchSessions`,
  `ArchSettlement`, `ArchSubmittable`, `ArchRunningSums`, `ArchWithdrawal`, `ArchAmounts`, `ArchRollback`, `ArchPayout`,
  `ArchSubmit`, `ArchGrowth`: what holds over every run.
- `ArchWitness`: small complete runs, from a ledger without accounts, in which something goes wrong.

**Exchange.sol and CoinProxy.sol** keep a two-key map with checked 256-bit arithmetic. `SolidityLedger` is the two-phase
settlement that they share; `ExchangeModel` and `CoinProxyModel` are the contracts, as functions and as objects whose
methods update storage; `SolidityEffects`, `ExchangeEffects` and `CoinProxyEffects` say, slot by slot, what each
transaction does, and exactly when it goes through; `ExchangeTheorems`, `CoinProxyTheorems` and `CoinProxyMoney` are
what holds over every run.
`Sessions` is the prepare-submit-rollback protocol on its own; all four sessions of the three ledgers are instances of
it, and so are stored requests and linked signers.

**The node** stores transactions in a nested format whose message parser moves on by the length of what it has just
parsed, serialised again (`NodeCodec`, `NodeFormat`, `NodeCursors`), and a program's heap is a bump allocator
(`BumpAllocation`).

## What turned out false

Some things one would expect are not true of the code. Each is stated here with the exact condition under which it is
true, and with a concrete input where it fails.

- The int256 casts in the Solidity netting check let a batch with an amount of 2^255 or more create money
  (`SolidityLedger.CastMintsWitness`, and as two transactions `ExchangeTheorems.InsolventRun`). A settlement conserves a
  token if and only if its casts balance (`SolidityLedger.SettlementConservesIff`), and the Exchange is solvent over a
  run if and only if they do over the run (`ExchangeTheorems.SolventIff`).
- Arch adds balances modulo 2^64, so a netted settlement can lose 2^64 (`ArchWitness.SettlementLosesMoney`). It
  conserves the total if and only if its credits exceed its debits by 2^64 for each credit that wraps
  (`ArchSettlement.SettlementConserves`).
- A withdrawal batch need not pay out what it debited (`ArchWitness.WithdrawalPaysWhatItDidNotDebit`). An account pays
  out what it loses if and only if, for each of its entries, the fee is taken from that account exactly when it is not a
  rune, and does not exceed the amount (`ArchPayout.EntryPaysIff` for one entry, `ArchSubmit.PaysWhatItDebited` for a
  batch).
- A rollback can be refused when an account that collects fees also withdraws (`ArchWitness.RollbackCanFail`,
  `CoinProxyTheorems.SameOrderCanRevert`). It goes through if and only if, at each fee that is taken back, what was
  withdrawn from the account that collected it and is not yet given back is covered (`ArchRollback.RollbackIff`,
  `CoinProxyTheorems.RunRollbackIff`).
- A rollback is not matched against a prepare, on either ledger: one without any goes through and creates money
  (`ArchWitness.UnmatchedRollbackMints`, `CoinProxyMoney.UnmatchedRollbackMints`). A rollback creates money if and only
  if its entries take out more than nothing together (`ArchRoom.RollbackMintsIff`, `CoinProxyMoney.RollbackMintsIff`);
  together with a batch that it matches it never does (`ArchRoom.MatchedRollbackConserves`,
  `CoinProxyMoney.MatchedRollbackConserves`). On Arch there is one to match if and only if the session says so
  (`ArchSessions.PendingIff`); CoinProxy keeps no record.
- A CoinProxy withdrawal in native currency can create money, since its fee is never compared with its amount
  (`CoinProxyMoney.FeeAboveAmountMints`). A withdrawal does if and only if it is native and the fee is the larger
  (`CoinProxyMoney.WithdrawalMintsIff`).
- A CoinProxy rollback takes the fees back from whoever is the fee account then (`CoinProxyTheorems.NewFeeAccountPays`).
  It restores every balance if and only if that is the account that was paid, or there were no fees
  (`CoinProxyTheorems.RunRestoredIff`).
- An Arch withdrawal rollback gives a fee back to an index that it does not check, so data behind the assigned wallets
  need not stay zero (`ArchWitness.UnmatchedRollbackMints`). It does if and only if each such index is assigned
  (`ArchGrowth.RollbackCleanIff`).
- A stored transaction comes back if and only if it is canonical (`NodeCodec.RoundTripIff`); one with an id in upper
  case does not (`NodeCodec.UpperCaseIsLost`). An instruction comes back if and only if its lists and strings fit their
  16-bit counts (`ArchCodec.RoundTripIff`); one with 65536 bytes does not (`ArchCodec.LongIdIsLost`).

And one thing is never as one would expect: `Event::encode` appends 64 bytes and returns the length of the padding alone
(`ArchWire.Writer.EncodeEvent`).

## What is assumed of foreign code

`ArchLedger.Env` and the two `Abi` records hold it as arbitrary functions. SHA-256 is assumed to collide on no two
batches of a run and to return no zero digest, and only where a theorem says so (`CollisionFree`, `DigestsNonEmpty`);
keccak-256 is a free constructor. Whatever parses as a Bitcoin address is assumed to have at least four characters and
no NUL (`Addresses`). The iteration order of a hash set is any order that visits each element once (`VisitsOnce`).
Whose signature a withdrawal carries is decoded with it, and signature recovery is an arbitrary function. A token
transfer moves exactly the amount or reverts, and does not re-enter.

## Model

| member | source | states |
|---|---|---|
| `ArchSubmit.PaysWhatItDebited` | arch/contracts/exchange/program/src/lib.rs:136-307 | Across a prepare, any run without a rune-id change and a submit of the same batch, the withdrawal outputs and edicts are those drafted at prepare, placed behind the state transition; and a token account lost at prepare exactly what is paid out on its behalf if and only if each of its entries takes its fee as it should (while its money, and the fees others pay for it, stay below 2^64). |
| `ArchPayout.EntryPaysIff` | arch/contracts/exchange/program/src/lib.rs:511-584 | For one fee-bearing withdrawal, what its account loses equals what it is paid if and only if the fee comes from that account exactly when the account is not a rune, and does not exceed the amount. |
| `ArchWitness.WithdrawalPaysWhatItDidNotDebit` | arch/contracts/exchange/program/src/lib.rs:511-584 | A concrete run in which a fee exceeds its amount: the account gains 1 at prepare, the submit transaction goes through, and what it hands out for signing pays 2^64 - 1. |
| `ArchWitness.Reached` | arch/contracts/exchange/program/src/lib.rs:50-134 | The ledger that those runs start from is itself reached from a ledger without accounts by setup and deposit transactions, and is well formed. |
| `ArchPayout.PrepareAllPays` | arch/contracts/exchange/program/src/lib.rs:178-190 | Over a whole batch, what an account loses at prepare and what the payout lines name for it differ by exactly what its entries overpay, entry by entry. |
| `ArchPayout.NothingOverpaidIff` | arch/contracts/exchange/program/src/lib.rs:511-584 | What the entries of an account overpay adds up to nothing if and only if each of them is as it should be: no entry makes up for another. |
| `ArchSubmit.PrepareDebitsLines` | arch/contracts/exchange/program/src/lib.rs:136-200 | The same identity for the complete prepare handler, for outputs of a coin and edict amounts of a rune. |
| `ArchSubmit.LinesStable` | arch/contracts/exchange/program/src/lib.rs:88-97 | After any run of transactions of any instances, the lines of a prepared batch are the same unless a token of the instance is given a rune id. |
| `ArchSubmit.DraftIsLines` | arch/contracts/exchange/program/src/lib.rs:178-200 | The payout drafted at prepare is the lines of the batch, from the first output on. |
| `ArchSubmit.SubmitPaysLines` | arch/contracts/exchange/program/src/lib.rs:217-236 | The withdrawal outputs and edicts of a submit follow the state transition in batch order. |
| `ArchSubmit.EveryEdictNamesItsOutput` | arch/contracts/exchange/program/src/lib.rs:217-277 | In the finished transaction every edict, of a withdrawal or of change, names the dust output that was pushed with it. |
| `ArchSubmit.OneChangeEdictPerRune` | arch/contracts/exchange/program/src/lib.rs:217-277 | In a submitted transaction, behind the edicts of the withdrawals, each rune that they move has exactly one more edict and there are no others: it moves nothing and names a dust output to the third account, in whatever order the hash set is visited. |
| `ArchSubmit.SignersInOrder` | arch/contracts/exchange/program/src/lib.rs:280-296 | The signer list can be built if and only if there are at most one more inputs than input types; then it has one request per input, in order, with the signer that the type chooses. |
| `ArchSubmit.SubmittedSigners` | arch/contracts/exchange/program/src/lib.rs:212-304 | A submit whose types match its funding inputs goes through only if the withdraw account is the only writable entry; then there is one signature request per input, the state input first. |
| `ArchSubmit.SubmittedTypesMatch` | arch/contracts/exchange/program/src/lib.rs:157-159 | Over every run, whatever is submitted was prepared, so its type list is as long as its funding inputs are many: the look-up by index relies on the accepted hash. |
| `ArchSettlement.SettlementConserves` | arch/contracts/exchange/program/src/lib.rs:341-397 | Over every run, a settlement that goes through keeps the total over all token accounts if and only if its credits exceed its debits by exactly 2^64 for every credit that wraps; while the total and the credits together stay below 2^64 it always does. |
| `ArchWitness.SettlementLosesMoney` | arch/contracts/exchange/program/src/lib.rs:341-397 | A concrete run from a ledger without accounts: setup, deposits, prepare and submit of a settlement that nets to zero but credits a full wallet, after which 2^64 are gone. |
| `ArchMoney.NettingWord` | arch/contracts/exchange/program/src/lib.rs:378-390 | The running i64 netting total is the true surplus of the whole batch up to a multiple of 2^64; netting is over the batch, not per token. |
| `ArchMoney.SettleAllMoney` | arch/contracts/exchange/program/src/lib.rs:353-366 | Settling moves the total over all accounts by credits less debits less 2^64 for each credit that wraps, whatever accounts are listed twice. |
| `ArchConservation.RunMoney` | arch/contracts/exchange/program/src/lib.rs:24-48 | Over every run, the total over all token accounts moves by deposits, less what prepared withdrawals take out, plus what rollbacks give back, plus what settlements credit beyond their debits, less 2^64 for each credit that wraps; and by nothing else. |
| `ArchConservation.StepMoney` | arch/contracts/exchange/program/src/lib.rs:24-48 | The same for one transaction of any kind. |
| `ArchRoom.RunRoom` | arch/contracts/exchange/model/src/state.rs:253-256 | A bound that can be checked before the run: while the total at first and all amounts and fees that the transactions name stay below 2^64 together, no credit wraps, so the total moves by those flows alone. |
| `ArchRoom.RollbackMintsIff` | arch/contracts/exchange/program/src/lib.rs:309-322 | Whether or not there was a prepare: a rollback that goes through, with room for the amounts it names, creates money if and only if its entries take out more than nothing together, and leaves the total alone if and only if they take out nothing. |
| `ArchRoom.MatchedRollbackConserves` | arch/contracts/exchange/program/src/lib.rs:309-322 | Prepare, any run, and a rollback of the prepared batch together move the total by the run alone, but for credits that wrap. |
| `ArchSettlement.SettleAllOutcome` | arch/contracts/exchange/program/src/lib.rs:341-370 | A batch whose decrements hit distinct covered slots never fails for want of balance, and goes through if and only if each fee has a wallet in slot 0. |
| `ArchRunningSums.SettleAllIff` | arch/contracts/exchange/program/src/lib.rs:341-370 | Debits on shared slots included: while no balance reaches 2^64, a batch settles if and only if its fees have wallets to go to and each debit is covered by what its slot held, and by what the batch moved there before it. |
| `ArchRunningSums.PreparedSubmitsIff` | arch/contracts/exchange/program/src/lib.rs:341-397 | The same for the submit of a prepared settlement, after any run without a rollback or settlement submit of its instance, while all money of the instance stays below 2^64. |
| `ArchSubmittable.PreparedStaysSubmittable` | arch/contracts/exchange/program/src/lib.rs:107-134 | After a prepared settlement and any run without a rollback or settlement submit of its instance, submitting the same bytes never fails with insufficient balance. |
| `ArchSubmittable.PreparedRefuses` | arch/contracts/exchange/program/src/lib.rs:136-150 | While a settlement is prepared, its instance accepts no set-up and no other prepare. |
| `ArchSubmittable.PreparedRun` | arch/contracts/exchange/program/src/lib.rs:24-48 | Over any run that leaves the session alone no balance of the instance falls, and the settlement hash stays. |
| `ArchRollback.RollbackRestores` | arch/contracts/exchange/program/src/lib.rs:309-322 | After a prepared withdrawal batch, and any run that neither prepares nor rolls back another (set-ups, deposits, settlements, other instances), a rollback that goes through gives every slot its balance from before, moved only by deposits and settlements since; for same-account and other-account fees and accounts listed twice. |
| `ArchRollback.RollbackIff` | arch/contracts/exchange/program/src/lib.rs:309-322 | Exactly when it goes through after such a run, while balances stay below 2^64: at each entry with a fee, the balance of the fee slot from before the batch, moved by deposits and settlements since, and the fees of the later entries cover what the later entries took from that slot, and this fee itself if it was paid from there. |
| `ArchWithdrawal.RefundAllIff` | arch/contracts/exchange/program/src/lib.rs:607-629 | From any ledger whose accounts and addresses the batch names rightly, and while no balance overflows, the refund loop goes through if and only if every fee is covered when its turn comes, by the balance then and by what the rollback has given back and taken before. |
| `ArchWitness.RollbackCanFail` | arch/contracts/exchange/program/src/lib.rs:309-322 | A concrete run from a ledger without accounts in which a withdrawal batch is prepared and its rollback is refused for want of balance. |
| `ArchWitness.UnmatchedRollbackMints` | arch/contracts/exchange/program/src/lib.rs:309-322 | A concrete run in which a rollback goes through while nothing is prepared: money appears that nobody was charged, and a fee ends up behind the assigned slots. |
| `ArchRollback.RollbackSucceeds` | arch/contracts/exchange/program/src/lib.rs:607-629 | So it does go through when no slot that collects fees of the batch is withdrawn from by it, or debited by a settlement since. |
| `ArchAmounts.RunAmount` | arch/contracts/exchange/program/src/lib.rs:107-134 | Over a run that neither prepares nor rolls back a withdrawal, a slot moves by exactly what deposits and settlements credit it and settlements debit it; set-ups, and everything else, leave it alone. |
| `ArchWithdrawal.RefundAllAmount` | arch/contracts/exchange/program/src/lib.rs:607-629 | Whatever is rolled back, and when, each slot moves by exactly what the batch takes from it less the fees that the batch puts there. |
| `ArchWithdrawal.PrepareAllAmount` | arch/contracts/exchange/program/src/lib.rs:511-535 | The same for prepare, slot by slot. |
| `ArchSessions.SettlementExactlyOnce` | arch/contracts/exchange/program/src/lib.rs:341-370 | Over every run, each settlement submitted matches an earlier prepare with identical bytes and no prepare, submit or rollback in between. |
| `ArchSessions.WithdrawalExactlyOnce` | arch/contracts/exchange/program/src/lib.rs:202-214 | The same for withdrawal batches. |
| `ArchSessions.SameRawSameBatch` | arch/contracts/exchange/program/src/lib.rs:29-31 | A prepare and a submit whose hashes cover the same bytes name the same batch. |
| `ArchSessions.PreparesFromIdle` | arch/contracts/exchange/program/src/lib.rs:145-150 | A prepare goes through only when its session is idle. |
| `ArchSessions.PendingIff` | arch/contracts/exchange/program/src/lib.rs:309-322 | When a rollback matches a prepare: after any run the session holds a digest if and only if some transaction prepared it and none has touched the session since; the rollback itself does not look. |
| `Sessions.ExactlyOnce` | arch/contracts/exchange/program/src/lib.rs:343-351 | For any system with a one-word session: a consumed word was set by an earlier prepare of the same batch with nothing in between. |
| `Sessions.BusyIff` | arch/contracts/exchange/program/src/lib.rs:343-351 | The word names a batch after a run if and only if an earlier prepare put it there and nothing has touched the session since. |
| `Sessions.OneSubmitPerPrepare` | arch/contracts/exchange/program/src/lib.rs:368-369 | Between two submits there is a fresh prepare of the second batch. |
| `ArchReports.PrepareWithdrawReport` | arch/contracts/exchange/program/src/lib.rs:161-199 | On success the report is precisely the list of withdrawals that cannot be paid, in batch order and at most 100; if there are any, nothing else changed; the hash is set if and only if every entry can be paid. |
| `ArchReports.PrepareSettlementReport` | arch/contracts/exchange/program/src/lib.rs:372-397 | On success no account but the program account changed, the report is precisely the decrements not covered, and the hash is set if and only if there are none. |
| `ArchReports.UnreportedIff` | arch/contracts/exchange/program/src/lib.rs:462-509 | An entry is not reported exactly when both indexes are valid, the addresses may be paid, and both balances cover it. |
| `ArchReports.FailureIs` | arch/contracts/exchange/program/src/lib.rs:462-509 | What a checked entry reports, from the accounts alone: nothing; the code of the first check that its wallet fails, with zero balances; or, when a balance falls short, code 603 with the balance of the wallet and then the balance of the fee wallet. |
| `ArchChecks.ValidatedIndexIff` | arch/contracts/exchange/program/src/lib.rs:645-654 | A wallet index is accepted if and only if it is assigned and the address there, up to its first NUL, ends in the four bytes given; it is 601 exactly when it is not assigned, 615 exactly when the address is long enough and ends otherwise, and a panic exactly when the address is shorter. |
| `ArchChecks.UsableIff` | arch/contracts/exchange/program/src/lib.rs:656-665 | For a withdrawal also if and only if the address is one of the network and the token does not wait for its rune id; otherwise the code is that of the first of these that fails. |
| `ArchChecks.DepositIff` | arch/contracts/exchange/program/src/lib.rs:126-134 | A deposit batch goes through if and only if the first account is a program account that signs, every token account is one of the instance, and every wallet is named by its index and the last four bytes of its address. |
| `ArchChecks.SettledNames` | arch/contracts/exchange/program/src/lib.rs:341-370 | A settlement batch that settles names every wallet in it so. |
| `ArchChecks.ExpectIff` | arch/contracts/exchange/model/src/state.rs:495-525 | The outcome of an account check, each error exactly when it is the first thing wrong: the index, the flags, the type, the related key. |
| `ArchAuthority.OnlyWritable` | arch/contracts/exchange/program/src/lib.rs:24-48 | Whatever instruction goes through was signed by the first account, and changes no account that is not listed as writable. |
| `ArchOutcomes.PrepareSettlementIff` | arch/contracts/exchange/program/src/lib.rs:372-397 | Exactly when a settlement can be prepared: no settlement is pending, every wallet is named as it should be, at most 100 decrements are not covered, and credits, debits and fees net to a multiple of 2^64. |
| `ArchOutcomes.CheckWithdrawIff` | arch/contracts/exchange/program/src/lib.rs:136-172 | Exactly when a withdrawal batch is checked without error: accounts and sessions, the funding transaction and its input types, every entry judged, and at most 100 reported. |
| `ArchOutcomes.InitProgramOutcome` | arch/contracts/exchange/program/src/lib.rs:50-74 | Exactly when a new exchange is set up, and what its accounts then hold, with the fee address and the change address each in its own place. |
| `ArchOutcomes.InitTokenOutcome` | arch/contracts/exchange/program/src/lib.rs:76-86 | Exactly when a token is set up: 10240 bytes, bound to the first account, with the fee wallet in slot 0 unless the token is a rune. |
| `ArchOutcomes.AddWalletsIff` | arch/contracts/exchange/model/src/state.rs:213-225 | Wallets are added if and only if each is an address that fits its slot, on Bitcoin one of that network, and the slots, after one step of growth if the original length does not do, suffice. |
| `ArchOutcomes.InitWalletsGrows` | arch/contracts/exchange/model/src/state.rs:213-225 | However many setups of one instruction name an account, it grows by at most 10240 bytes. |
| `ArchCharges.PrepareWithdrawIff` | arch/contracts/exchange/program/src/lib.rs:136-200 | Exactly when a withdrawal batch is prepared, while no balance reaches 2^64: it is checked without error; and, with nothing to report, each fee has its home in slot 0 of the fee account, each debit is covered when its turn comes, by what its slot held and what the batch has moved by then, there is something to pay, and a rune receiver if runes move. |
| `ArchCharges.ChargesIff` | arch/contracts/exchange/program/src/lib.rs:511-535 | The prepare loop, as a list of single debits and fee credits: it succeeds if and only if fees have their homes and every debit is covered in its turn. |
| `ArchCharges.RefundAllNames` | arch/contracts/exchange/program/src/lib.rs:607-629 | A rollback that goes through names every token, wallet and fee account as it should. |
| `ArchSubmission.SubmitWithdrawIff` | arch/contracts/exchange/program/src/lib.rs:202-307 | Exactly when a withdrawal batch is submitted: accounts, hash and funding transaction, every wallet named and payable, a rune receiver if runes move, and a type for each input but the first. |
| `ArchSubmission.PreparedCanBeSubmitted` | arch/contracts/exchange/program/src/lib.rs:136-307 | Whatever was prepared can be submitted: after any run without a rune-id change, while its digest is stored, and with the accounts listed with the flags that a submit asks for. |
| `ArchSubmission.SubmittedTransaction` | arch/contracts/exchange/program/src/lib.rs:202-277 | The transaction handed out for signing, part by part: it spends the state of the withdraw account and then the funding inputs in order; its outputs are the new state, the withdrawals in batch order, change to the program if there is any, and at the end, if runes move, the runestone of all edicts. |
| `ArchErrors.AdjustFails` | arch/contracts/exchange/program/src/lib.rs:418-428 | A list of credits or debits fails with the error of the first one that cannot be made, because its wallet is misnamed, or is not covered by what is there by then. |
| `ArchErrors.PrepareSettlementErrors` | arch/contracts/exchange/program/src/lib.rs:372-397 | With which error a settlement is not prepared: that of the account check, 605 while one is pending, 608 when everything is in order but does not net. |
| `ArchErrors.SubmitSettlementErrors` | arch/contracts/exchange/program/src/lib.rs:341-351 | With which error a settlement is not submitted: 606 when none is pending, 607 when another one is. |
| `ArchErrors.CheckWithdrawErrors` | arch/contracts/exchange/program/src/lib.rs:136-172 | With which error a withdrawal batch is refused, in this order: a pending settlement, a pending withdrawal, a funding transaction that does not decode, that has outputs, or that has inputs of another number than types. |
| `ArchErrors.SubmitWithdrawErrors` | arch/contracts/exchange/program/src/lib.rs:202-217 | With which error a submit is refused: 619 for bytes other than those prepared, 617 for a funding transaction that does not decode. |
| `ArchInvariants.PerformKept` | arch/contracts/exchange/program/src/lib.rs:24-48 | Instance isolation and append-only slots: an instruction under program account P changes no initialised account of another instance, never the address of an assigned slot, and lowers no count; accounts stay well formed. |
| `ArchInvariants.StepKept` | arch/contracts/exchange/model/src/state.rs:495-525 | The same for a transaction, which leaves everything as it was when it fails. |
| `ArchInvariants.RunGood` | arch/contracts/exchange/model/src/state.rs:143-154 | Well-formed accounts (size, slots, count, addresses of assigned slots, event region) over every run. |
| `ArchInvariants.EmptyWorldGood` | arch/contracts/exchange/model/src/state.rs:143-154 | The ledger before any account is set up is well formed, so every run from there is. |
| `ArchInvariants.RunLater` | arch/contracts/exchange/program/src/lib.rs:76-134 | Over every run an account keeps its kind, its owner, its configuration, its assigned addresses and its count or more. |
| `ArchGrowth.NewWalletsStartAtZero` | arch/contracts/exchange/program/src/lib.rs:107-123 | New wallets start at zero with their addresses in order, and the room behind them is zero, if it was before. |
| `ArchGrowth.InitWalletsInBounds` | arch/contracts/exchange/model/src/state.rs:213-225 | One instruction that adds at most 102 wallets to each account, over any number of setups, never runs out of bounds. |
| `ArchInvariants.AddWalletsShape` | arch/contracts/exchange/model/src/state.rs:213-225 | Setting up wallets adds exactly their number to the count, within the slots that the data has room for. |
| `ArchGrowth.RollbackCleanIff` | arch/contracts/exchange/program/src/lib.rs:607-629 | A rollback leaves zeros behind the assigned slots if and only if every fee that it gives back to another account goes to an assigned slot: the code does not check that index. |
| `ArchGrowth.MatchedRollbackAssigned` | arch/contracts/exchange/program/src/lib.rs:309-322 | A rollback of a prepared batch with the same accounts, after any run, is such a rollback. |
| `ArchGrowth.PerformClean` | arch/contracts/exchange/program/src/lib.rs:24-48 | Every other instruction leaves zeros behind the assigned slots. |
| `ArchGrowth.RunClean` | arch/contracts/exchange/model/src/state.rs:143-154 | Over every run whose rollbacks give fees back to assigned slots only, unassigned slots stay zero, whatever the amounts. |
| `ArchLayout.SlotFields` | arch/contracts/exchange/model/src/state.rs:236-279 | Address and amount of a slot are the padded and little-endian bytes at their offsets. |
| `ArchLayout.AmountField` | arch/contracts/exchange/model/src/state.rs:245-251 | Overwriting the amount bytes changes that amount of the record and nothing else. |
| `ArchLayout.AddressField` | arch/contracts/exchange/model/src/state.rs:472-480 | Overwriting the padded address bytes changes that address and nothing else. |
| `ArchLayout.CountField` | arch/contracts/exchange/model/src/state.rs:160-173 | The count bytes are the count, and overwriting them changes the count alone. |
| `ArchLayout.TokenIdField` | arch/contracts/exchange/model/src/state.rs:156-180 | The same for the token id. |
| `ArchLayout.OutsideSlots` | arch/contracts/exchange/model/src/state.rs:268-274 | An index behind the last slot is out of bounds even for the address part, because data grows in steps of 10240 bytes. |
| `ArchLayout.GrownBytes` | arch/contracts/exchange/model/src/state.rs:213-225 | Zeros appended to the data are unassigned slots appended to the record. |
| `ArchLayout.SettlementHashField` | arch/contracts/exchange/model/src/state.rs:300-313 | The settlement hash bytes are that hash, and overwriting them changes it alone. |
| `ArchLayout.LastSettlementHashField` | arch/contracts/exchange/model/src/state.rs:315-320 | Overwriting the last settlement hash changes it alone. |
| `ArchLayout.ClearedEvents` | arch/contracts/exchange/model/src/state.rs:322-325 | Resetting the event count empties the report and leaves its bytes behind as stale bytes. |
| `ArchLayout.EmittedEvent` | arch/contracts/exchange/model/src/state.rs:335-346 | Writing 64 bytes behind the last event, and the new count, appends that event to the report. |
| `ArchLayout.ReceiverAdded` | arch/contracts/exchange/model/src/state.rs:367-372 | The rune receiver key behind the events changes nothing else of a program account. |
| `ArchLayout.WithdrawHashField` | arch/contracts/exchange/model/src/state.rs:401-414 | The same for the hash of a withdraw account. |
| `ArchLayout.PreambleFields` | arch/contracts/exchange/model/src/state.rs:454-456 | The type byte and the related key of every kind of account are at the same place. |
| `ArchStateCodec.TokenDecodes` | arch/contracts/exchange/model/src/serialization.rs:751-784 | Decoding the data of a token account gives exactly its assigned slots, with addresses and name up to the first NUL. |
| `ArchStateCodec.ProgramDecodes` | arch/contracts/exchange/model/src/serialization.rs:786-830 | Decoding the data of a program account gives its hashes and exactly the events of the last report, whatever stale events are behind them. |
| `ArchStateCodec.WithdrawDecodes` | arch/contracts/exchange/model/src/serialization.rs:832-850 | Decoding the data of a withdraw account gives its key and hash. |
| `ArchStateCodec.RuneReceiverDecodes` | arch/contracts/exchange/model/src/serialization.rs:852-868 | Decoding the data of a rune receiver account gives its key. |
| `ArchStateCodec.EventBack` | arch/contracts/exchange/model/src/serialization.rs:689-749 | An event read from its 64 bytes is the event that was written, with nothing more used up. |
| `ArchStateCodec.SameTokenData` | arch/contracts/exchange/model/src/serialization.rs:751-784 | Token accounts with the same data have the same owner, name, count and balances. |
| `ArchStateCodec.SameProgramData` | arch/contracts/exchange/model/src/serialization.rs:786-830 | Program accounts with the same data have the same hashes and the same report. |
| `ArchStateCodec.SameDataSameKind` | arch/contracts/exchange/model/src/serialization.rs:870-890 | Accounts with the same data have the same type and the same related key. |
| `ArchAccounts.AccountInfo.Decodes` | arch/contracts/exchange/model/src/serialization.rs:673-850 | For every valid account object, the bytes it holds decode to the record that its methods are specified by. |
| `ArchAccounts.AccountInfo.Realloc` | arch/program/src/account.rs:149-191 | Changes the length, filling with zeros, unless that is more than one step beyond the original length. |
| `ArchAccounts.AccountInfo.GetType` | arch/contracts/exchange/model/src/state.rs:454-456 | The type in the first byte; a panic on an empty account. |
| `ArchAccounts.AccountInfo.GetNumBalances` | arch/contracts/exchange/model/src/state.rs:160-167 | The count of the record. |
| `ArchAccounts.AccountInfo.SetNumBalances` | arch/contracts/exchange/model/src/state.rs:169-173 | Changes the count of the record alone. |
| `ArchAccounts.AccountInfo.GetTokenId` | arch/contracts/exchange/model/src/state.rs:175-180 | The token id up to its first NUL. |
| `ArchAccounts.AccountInfo.SetTokenId` | arch/contracts/exchange/model/src/state.rs:156-158 | Changes the token id alone, or refuses one that is too long. |
| `ArchAccounts.AccountInfo.GetWalletBalance` | arch/contracts/exchange/model/src/state.rs:236-243 | The amount of a slot, or a panic behind the last slot. |
| `ArchAccounts.AccountInfo.SetWalletBalance` | arch/contracts/exchange/model/src/state.rs:245-251 | Changes one amount alone. |
| `ArchAccounts.AccountInfo.IncrementWalletBalance` | arch/contracts/exchange/model/src/state.rs:253-256 | Adds modulo 2^64. |
| `ArchAccounts.AccountInfo.DecrementWalletBalance` | arch/contracts/exchange/model/src/state.rs:258-266 | Subtracts, or refuses without change when the balance is too small. |
| `ArchAccounts.AccountInfo.GetWalletAddress` | arch/contracts/exchange/model/src/state.rs:268-270 | The address of a slot up to its first NUL. |
| `ArchAccounts.AccountInfo.SetWalletAddress` | arch/contracts/exchange/model/src/state.rs:272-274 | Changes one address alone, or refuses one that is too long. |
| `ArchAccounts.AccountInfo.GetWalletAddressLast4` | arch/contracts/exchange/model/src/state.rs:465-470 | The last four bytes of the decoded address; a panic when it is shorter. |
| `ArchAccounts.AccountInfo.GrowBalanceAccountsIfNeeded` | arch/contracts/exchange/model/src/state.rs:213-225 | Adds the slots of one growth step when the new wallets do not fit the original length. |
| `ArchAccounts.AccountInfo.InitializeToken` | arch/contracts/exchange/model/src/state.rs:143-154 | An empty account becomes a token account with its name, key and, for a token that is no rune, the fee wallet. |
| `ArchAccounts.AccountInfo.GetFeeAccountAddress` | arch/contracts/exchange/model/src/state.rs:288-290 | The fee address up to its first NUL. |
| `ArchAccounts.AccountInfo.GetNetworkType` | arch/contracts/exchange/model/src/state.rs:296-298 | The network of the record. |
| `ArchAccounts.AccountInfo.SetSettlementHash` | arch/contracts/exchange/model/src/state.rs:308-313 | Changes the settlement hash alone. |
| `ArchAccounts.AccountInfo.ClearReport` | arch/contracts/exchange/model/src/state.rs:322-325 | Empties the report. |
| `ArchAccounts.AccountInfo.Emit` | arch/contracts/exchange/model/src/state.rs:335-346 | Appends to the report, or refuses the 101st event without change. |
| `ArchAccounts.AccountInfo.InitializeWithdraw` | arch/contracts/exchange/model/src/state.rs:379-387 | An empty account becomes a withdraw account without a hash; any other stays as it is. |
| `ArchAccounts.AccountInfo.SetHash` | arch/contracts/exchange/model/src/state.rs:409-414 | Changes the withdraw hash alone. |
| `ArchAccounts.AccountInfo.GetValidatedIndex` | arch/contracts/exchange/program/src/lib.rs:645-654 | The index, if it is assigned and the address there ends in the four bytes given; else the error for the first check that fails. |
| `ArchAccounts.AccountInfo.GetValidatedIndexWithdraw` | arch/contracts/exchange/program/src/lib.rs:656-665 | The same, and the address is one of the network and the token may be withdrawn. |
| `ArchAccounts.AccountInfo.HandleAdjustments` | arch/contracts/exchange/program/src/lib.rs:418-428 | Credits or debits a list of wallets in place, as the specification does on the record. |
| `ArchAccounts.AccountInfo.InitStateData` | arch/contracts/exchange/program/src/lib.rs:636-643 | An empty account becomes the program account that is encoded. |
| `ArchProgram.ValidateAccount` | arch/contracts/exchange/model/src/state.rs:495-525 | Checks index, flags, type and related key in order, with the error of the first that fails. |
| `ArchProgram.InitProgramState` | arch/contracts/exchange/program/src/lib.rs:50-74 | Sets up the program account and the withdraw account, or the rune receiver if a third entry is the second account again. |
| `ArchProgram.InitTokenState` | arch/contracts/exchange/program/src/lib.rs:76-86 | Sets up a token account bound to the first account. |
| `ArchProgram.SetTokenRuneId` | arch/contracts/exchange/program/src/lib.rs:88-97 | Renames a token to a rune id. |
| `ArchProgram.InitRuneReceiverState` | arch/contracts/exchange/program/src/lib.rs:100-104 | Sets up the rune receiver and registers it with the program account. |
| `ArchProgram.InitWalletBalances` | arch/contracts/exchange/program/src/lib.rs:107-123 | Grows accounts and appends wallets, setup after setup. |
| `ArchProgram.DepositBatch` | arch/contracts/exchange/program/src/lib.rs:126-134 | Credits all deposits, with accounts listed twice seeing each other's credits. |
| `ArchProgram.VerifyDecrements` | arch/contracts/exchange/program/src/lib.rs:430-450 | Returns the wrapped sum and reports precisely the decrements not covered. |
| `ArchProgram.VerifyIncrements` | arch/contracts/exchange/program/src/lib.rs:452-460 | Returns the wrapped sum, or the first bad index. |
| `ArchProgram.PrepareSettlementBatch` | arch/contracts/exchange/program/src/lib.rs:372-397 | The outcome of the specification, error by error, on the account bytes. |
| `ArchProgram.SubmitSettlementBatch` | arch/contracts/exchange/program/src/lib.rs:341-370 | Fee, increments and decrements of each token in order, then both hashes. |
| `ArchProgram.RollbackSettlementBatch` | arch/contracts/exchange/program/src/lib.rs:399-402 | Clears the hash. |
| `ArchWithdrawProgram.TransactionBuilder.AddEdictAndOutput` | arch/contracts/exchange/program/src/lib.rs:586-605 | Appends an edict and the dust output that it names. |
| `ArchWithdrawProgram.TransactionBuilder.AddWithdrawalOutput` | arch/contracts/exchange/program/src/lib.rs:553-584 | Pays a coin by an output of amount less fee, a rune by an edict of the whole amount. |
| `ArchWithdrawProgram.TransactionBuilder.Complete` | arch/contracts/exchange/program/src/lib.rs:242-277 | Appends the change output, one change edict per rune, and the runestone over all edicts. |
| `ArchWithdrawProgram.VerifyWithdrawal` | arch/contracts/exchange/program/src/lib.rs:464-507 | Nothing to report, the event to report, or the error that fails the batch. |
| `ArchWithdrawProgram.VerifyAllWithdrawals` | arch/contracts/exchange/program/src/lib.rs:164-172 | The report of a whole batch, written to the program account. |
| `ArchWithdrawProgram.HandlePrepareWithdrawals` | arch/contracts/exchange/program/src/lib.rs:511-535 | Debits, fee and output of each withdrawal, with the fee account possibly the same object. |
| `ArchWithdrawProgram.PrepareWithdrawBatch` | arch/contracts/exchange/program/src/lib.rs:136-200 | The outcome of the specification, error by error, on the account bytes. |
| `ArchWithdrawProgram.StateTransition` | arch/contracts/exchange/program/src/lib.rs:202-217 | One input and one output for each writable account, in order. |
| `ArchWithdrawProgram.HandleSubmitWithdrawals` | arch/contracts/exchange/program/src/lib.rs:537-551 | Checks and pays each withdrawal without touching a balance. |
| `ArchWithdrawProgram.InputsToSign` | arch/contracts/exchange/program/src/lib.rs:280-296 | The signer of each input, or a panic when a type is missing. |
| `ArchWithdrawProgram.SubmitWithdrawBatch` | arch/contracts/exchange/program/src/lib.rs:202-307 | The transaction to sign and the cleared hash, or the first error. |
| `ArchWithdrawProgram.HandleRollbackWithdrawals` | arch/contracts/exchange/program/src/lib.rs:607-629 | Gives back amounts and fees in place. |
| `ArchWithdrawProgram.RollbackWithdrawBatch` | arch/contracts/exchange/program/src/lib.rs:309-322 | The outcome of the specification, error by error, on the account bytes. |
| `ArchWithdrawProgram.UpdateWithdrawStateUtxo` | arch/contracts/exchange/program/src/lib.rs:324-339 | Checks the accounts and the id; account data stays as it is. |
| `ArchProcess.ProcessInstruction` | arch/contracts/exchange/program/src/lib.rs:24-48 | Decodes and dispatches on mutable accounts, with exactly the outcome of the specification. |
| `ArchProcess.ProcessTransaction` | arch/contracts/exchange/program/src/lib.rs:24-48 | On success the accounts hold the ledger after the step; an error, a panic or an oversized account puts every account back. |
| `ArchCodec.InstructionRoundTrip` | arch/contracts/exchange/model/src/serialization.rs:192-256 | Reading an encoded instruction followed by anything gives the instruction and leaves what followed. |
| `ArchCodec.PrefixFree` | arch/contracts/exchange/model/src/serialization.rs:192-256 | No encoding is a proper prefix of another. |
| `ArchCodec.RoundTripIff` | arch/contracts/exchange/model/src/serialization.rs:296-671 | An instruction survives the codec if and only if its strings and lists are at most 65535 long. |
| `ArchCodec.LongIdIsLost` | arch/contracts/exchange/model/src/serialization.rs:296-671 | A token id of 65536 bytes is written behind a count of zero, and comes back empty with its bytes left over. |
| `ArchFormat.SettlementEventFormat` | arch/contracts/exchange/model/src/serialization.rs:722-748 | Where each field of a reported settlement failure is in its 64 bytes, and zeros behind them. |
| `ArchFormat.WithdrawalEventFormat` | arch/contracts/exchange/model/src/serialization.rs:722-748 | The same for a withdrawal failure. |
| `ArchFormat.WithdrawalFormat` | arch/contracts/exchange/model/src/serialization.rs:296-671 | Where each field of a withdrawal is in its 33 bytes. |
| `ArchFormat.AdjustmentFormat` | arch/contracts/exchange/model/src/serialization.rs:296-671 | The same for the 16 bytes of an adjustment. |
| `ArchFormat.ManyFormat` | arch/contracts/exchange/model/src/serialization.rs:296-671 | The elements of a list stand behind one another in order. |
| `ArchCodec.DecodedFits` | arch/contracts/exchange/model/src/serialization.rs:296-671 | Whatever the bytes are, an instruction that decodes is one that encodes back without loss. |
| `ArchWire.Reader.DecodeInstruction` | arch/contracts/exchange/model/src/serialization.rs:193-212 | The reader gives what the specification gives and is moved to what it leaves, or fails exactly when it fails. |
| `ArchWire.Reader.DecodeTokenState` | arch/contracts/exchange/model/src/serialization.rs:752-770 | The same for token accounts. |
| `ArchWire.Reader.DecodeProgramState` | arch/contracts/exchange/model/src/serialization.rs:787-814 | The same for program accounts and their events. |
| `ArchWire.Writer.EncodeInstruction` | arch/contracts/exchange/model/src/serialization.rs:214-255 | Appends exactly the encoding and returns its length. |
| `ArchWire.Writer.EncodeEvent` | arch/contracts/exchange/model/src/serialization.rs:722-748 | Appends all 64 bytes of an event but returns the length of the padding alone. |
| `ArchWire.EncodeAndDecode` | arch/contracts/exchange/model/src/serialization.rs:169-190 | Encoding into a buffer and decoding from it gives back every instruction that fits. |
| `ExchangeTheorems.Solvency` | evm/src/Exchange.sol:87-125 | Over every run whose submitted batches stay below 2^255, what the contract holds of each token equals the sum of all balances in it. |
| `ExchangeTheorems.SolventIff` | evm/src/Exchange.sol:219-255 | Over any run at all, holdings cover the balances of a token if and only if the settlements that went through minted nothing on balance by the int256 cast. |
| `ExchangeTheorems.InsolventRun` | evm/src/Exchange.sol:175-255 | A concrete prepare and submit to a new contract after which it owes 2^256 of a token of which it holds none. |
| `ExchangeTheorems.RunSlack` | evm/src/Exchange.sol:139-344 | Holdings and debts move together over any run except for that cast imbalance, and a stored batch hash is the hash of a batch that nets list by list. |
| `ExchangeTheorems.StepSlack` | evm/src/Exchange.sol:139-344 | The same for one transaction of any kind. |
| `ExchangeTheorems.SettlementExactlyOnce` | evm/src/Exchange.sol:175-259 | Each settlement that goes through was prepared with the same bytes, and nothing was prepared, submitted or rolled back in between. |
| `ExchangeTheorems.SovereignDelay` | evm/src/Exchange.sol:95-125 | Every payout of a stored request follows a request of the same sender, token and amount at least the delay in force earlier, and the request has not been used in between. |
| `ExchangeTheorems.WithdrawManyDeletes` | evm/src/Exchange.sol:139-173 | A withdrawal batch changes a stored request only by deleting it. |
| `ExchangeTheorems.LinkedIff` | evm/src/Exchange.sol:70-85 | After any run, a signer is linked to a user if and only if the user linked it, with a signature that recovers to it, and has neither linked another nor removed it since. |
| `ExchangeEffects.WithdrawEffect` | evm/src/Exchange.sol:327-344 | A withdrawal beyond the balance is left out and changes nothing. Any other goes through if and only if its fee is part of the amount and fits the fee account, and the rest is held and can be transferred; then, slot by slot, the amount leaves the sender, the fee reaches the fee account (also when they are the same), holdings fall by the rest, and nothing else moves. |
| `ExchangeEffects.WithdrawAllEffect` | evm/src/Exchange.sol:318-325 | A withdrawal of everything pays the smaller of amount and balance in that way, and nothing when the fee would use the balance up. |
| `ExchangeEffects.SignedWithdrawal` | evm/src/Exchange.sol:139-173 | In a batch after any run, an item with a signature is paid just so if it is signed by its sender or by the signer that the sender linked last and has not removed; any other leaves everything as it was, and if no signer can be recovered the batch reverts. |
| `ExchangeEffects.RequestedWithdrawal` | evm/src/Exchange.sol:139-173 | An item without a signature that its sender has asked for is paid just so, and uses up the request of that sender and no other. |
| `ExchangeEffects.DepositEffect` | evm/src/Exchange.sol:87-93 | Currency sent to the contract, and tokens that it pulls, go through exactly when the balance has room and the transfer happens, and are credited to the sender in that token and to nobody else. |
| `ExchangeEffects.RequestEffect` | evm/src/Exchange.sol:95-125 | A first request, or one that differs from the stored one, goes through exactly when the balance covers it and no stored one is still waiting; it is all that changes. |
| `ExchangeEffects.MaturedEffect` | evm/src/Exchange.sol:95-125 | A stored request made again goes through exactly when its delay is over and its payment can be made; it pays its amount without a fee, or the whole balance for an amount of zero, and is used up, paid or not. |
| `ExchangeEffects.PrepareEffect` | evm/src/Exchange.sol:175-217 | Exactly when a batch can be prepared; its hash is then stored if and only if every decrement of every list is covered by the balance that its wallet has in the token, and nothing else changes. |
| `ExchangeEffects.SubmitEffect` | evm/src/Exchange.sol:219-255 | Exactly when a batch can be submitted, and slot by slot what it does: each balance moves by the increments and decrements that name its wallet and token, the one of the fee account also by the fees, and nothing else but the two hashes changes. |
| `ExchangeEffects.PreparedSubmits` | evm/src/Exchange.sol:175-255 | A covered batch that was prepared can be submitted after any run, while its hash is stored, if it debits no slot twice, no balance that it debits has fallen since, it names listed wallets and there is room for what it credits. |
| `ExchangeEffects.NoRepeat` | evm/src/Exchange.sol:139-150 | Over every run, a withdrawal batch does not go through twice in a row: between two times there is another batch. |
| `SolidityLedger.VerifiedNets` | evm/src/Exchange.sol:186-212 | A batch that passes the check nets to zero list by list, up to amounts that the cast turns negative. |
| `SolidityLedger.ListsOwed` | evm/src/Exchange.sol:224-245 | Applying such lists moves the sum of all balances in a token by 2^256 for each unit of cast imbalance. |
| `SolidityLedger.SettlementConservesIff` | evm/src/Exchange.sol:175-255 | A checked and applied batch conserves a token if and only if it has no cast imbalance in it. |
| `SolidityLedger.CastMintsWitness` | evm/src/Exchange.sol:187-211 | A concrete batch that passes the check and creates money. |
| `SolidityEffects.ApplyIff` | evm/src/Exchange.sol:219-245 | A batch applies if and only if it names listed wallets, has no more trade lists than wallets, and each credit and debit keeps its slot inside uint256 when its turn comes. |
| `SolidityEffects.ApplySlot` | evm/src/Exchange.sol:219-245 | And then every slot moves by exactly the amounts whose wallet and token are its own, and the fee account by the fees of each token. |
| `SolidityEffects.VerifyIff` | evm/src/Exchange.sol:186-212 | The check goes through if and only if there are as many trade lists as wallets, all decrements name listed wallets and each list nets inside int256; it says yes if and only if every decrement is covered. |
| `SolidityEffects.CheckedApplies` | evm/src/Exchange.sol:175-245 | A batch found covered that debits no slot twice applies to any ledger in which no balance that it debits has fallen since, if it names listed wallets and there is room for what it credits. |
| `SolidityLedger.VerifyBatch` | evm/src/Exchange.sol:186-212 | The loops compute the specified verdict, or revert exactly when it does. |
| `SolidityLedger.ApplyBatch` | evm/src/Exchange.sol:219-245 | The loops compute the specified ledger, or revert exactly when it does. |
| `ExchangeModel.Exchange.CreditDeposited` | evm/src/Exchange.sol:87-93 | Credits what was deposited, or reverts on overflow without change. |
| `ExchangeModel.Exchange.WithdrawFunds` | evm/src/Exchange.sol:327-344 | Debits, credits the fee, pays out; a shortfall is reported without change. |
| `ExchangeModel.Exchange.SovereignWithdraw` | evm/src/Exchange.sol:95-125 | Stores a request or completes a matured one. |
| `ExchangeModel.Exchange.SubmitWithdrawals` | evm/src/Exchange.sol:139-173 | All withdrawals in order, or a revert. |
| `ExchangeModel.Exchange.PrepareSettlementBatch` | evm/src/Exchange.sol:175-217 | Stores the hash if every decrement is covered. |
| `ExchangeModel.Exchange.SubmitSettlementBatch` | evm/src/Exchange.sol:219-255 | Applies the batch whose hash is stored and moves the hash on. |
| `ExchangeModel.Exchange.Execute` | evm/src/Exchange.sol:30-344 | A transaction as the chain runs it: the state after it is the specified step, and a revert changes nothing. |
| `CoinProxyTheorems.ReverseRollback` | coin-proxy/src/CoinProxy.sol:74-85 | Last first, the undos always go through and restore every balance, with what was added since on top. |
| `CoinProxyTheorems.AnyOrderRollback` | coin-proxy/src/CoinProxy.sol:74-85 | So they do in any order, the same order included, when the fee account withdrew nothing in the batch. |
| `CoinProxyTheorems.RunRollbackIff` | coin-proxy/src/CoinProxy.sol:48-85 | Over runs, while no balance reaches 2^256: after a batch transaction with its own deposits and any transactions that at most deposit or change the fee account, the rollback transaction whose data decodes to the succeeded withdrawals in any order goes through if and only if the fee account by then can return the fees at every point of it: the fees given back so far and what it withdrew and has not got back are covered by its balance from before the batch, all deposits, and the fees of the batch if it is the account that was paid them. |
| `CoinProxyTheorems.RunRestoredIff` | coin-proxy/src/CoinProxy.sol:200-209 | Such a rollback that goes through gives every balance from before plus all deposits if and only if the fee account by then is the one that was paid, or there were no fees. |
| `CoinProxyTheorems.RunRollbackSlot` | coin-proxy/src/CoinProxy.sol:200-209 | In any case each slot has that balance, plus the fees if it was paid them, less the fees if it gave them back. |
| `CoinProxyTheorems.RollbackInvertsWithdrawal` | coin-proxy/src/CoinProxy.sol:48-85 | In reverse order, and with the fee account that was paid in place again, it always goes through, and every balance is the one from before plus all deposits. |
| `CoinProxyTheorems.RollbackIff` | coin-proxy/src/CoinProxy.sol:178-209 | With one fee account throughout: the exact condition on the ledger, for any permutation of the succeeded withdrawals and anything added in between, while no balance overflows. |
| `CoinProxyTheorems.UndoAllIff` | coin-proxy/src/CoinProxy.sol:200-209 | From any ledger, while no balance overflows, the undos go through if and only if the fees of every first part of them are covered. |
| `CoinProxyTheorems.NewFeeAccountPays` | coin-proxy/src/CoinProxy.sol:200-209 | Three concrete transactions with a change of the fee account in between, after which the new one has paid back the fee that the old one was paid. |
| `CoinProxyMoney.UnmatchedRollbackMints` | coin-proxy/src/CoinProxy.sol:74-85 | A concrete rollback of a withdrawal that was never made credits money that nobody was charged. |
| `CoinProxyMoney.RunOwed` | coin-proxy/src/CoinProxy.sol:48-171 | The ledger identity of any run: what the contract owes of a token is what it owed, plus deposits, less what withdrawals took out, plus what rollbacks gave back, plus 2^256 for each unit of cast imbalance. |
| `CoinProxyMoney.StepOwed` | coin-proxy/src/CoinProxy.sol:48-171 | The same for one transaction of any kind. |
| `CoinProxyMoney.RollbackMintsIff` | coin-proxy/src/CoinProxy.sol:74-85 | A rollback that goes through leaves what is owed of a token alone if and only if what its entries take out of it adds up to zero, and creates money if and only if it is more. |
| `CoinProxyMoney.WithdrawalMintsIff` | coin-proxy/src/CoinProxy.sol:178-198 | A covered withdrawal leaves the contract owing more of a token than before if and only if it is in native currency and its fee exceeds its amount. |
| `CoinProxyMoney.FeeAboveAmountMints` | coin-proxy/src/CoinProxy.sol:48-72 | One concrete transaction to a new contract, which deposits 1 and withdraws it with a fee of 100, after which the contract owes 100. |
| `CoinProxyMoney.MatchedRollbackConserves` | coin-proxy/src/CoinProxy.sol:48-85 | A batch, any run, and a rollback of the batch in any order leave the contract owing what the batch and the run deposited and moved, whoever the fee account is by then: a matched rollback creates no money. |
| `CoinProxyMoney.BackedIff` | coin-proxy/src/CoinProxy.sol:48-171 | From a new contract on, it owes exactly what was deposited and not taken out again if and only if rollbacks and casts together put in nothing. |
| `CoinProxyTheorems.SameOrderCanRevert` | coin-proxy/src/CoinProxy.sol:48-85 | Two concrete contract transactions: a batch in which the fee account withdraws goes through, and its rollback in the same order reverts. |
| `CoinProxyTheorems.UndoInvertsCharge` | coin-proxy/src/CoinProxy.sol:178-209 | One rollback undoes one withdrawal, slot by slot. |
| `CoinProxyEffects.ChargeEffect` | coin-proxy/src/CoinProxy.sol:178-198 | A withdrawal is left out exactly when its amount, or a fee that is separate from it, is more than the sender has, and then changes nothing; any other takes amount and separate fee from the sender and gives the fee to the fee account, slot by slot, and reverts only if that overflows. |
| `CoinProxyEffects.MoneyGoesIff` | coin-proxy/src/CoinProxy.sol:48-72 | Exactly when a batch of deposits and withdrawals goes through: from the submitter, with no batch prepared, not the last one again, not empty, with room for all deposits, and with no charge that reverts. |
| `CoinProxyEffects.MoneyEffect` | coin-proxy/src/CoinProxy.sol:48-72 | And then every balance has moved by its deposits, by what the succeeded withdrawals take from it and by their fees, and nothing else but the last batch hash changes. |
| `CoinProxyEffects.ChargeEach` | coin-proxy/src/CoinProxy.sol:62-70 | Each withdrawal is judged by the balances that those before it leave, and those that are not left out are the ones reported as succeeded. |
| `CoinProxyEffects.RollbackEffect` | coin-proxy/src/CoinProxy.sol:74-85 | Slot by slot what a rollback does, by the submitter alone, whoever the fee account is. |
| `CoinProxyEffects.PrepareEffect` | coin-proxy/src/CoinProxy.sol:87-129 | Exactly when a batch can be prepared; its hash is then stored if and only if every decrement is covered, and nothing else changes. |
| `CoinProxyEffects.SubmitEffect` | coin-proxy/src/CoinProxy.sol:131-167 | Exactly when a batch can be submitted, and slot by slot what it does. |
| `CoinProxyEffects.PreparedSubmits` | coin-proxy/src/CoinProxy.sol:87-167 | A covered batch that was prepared can be submitted after any run, under the conditions of the Exchange. |
| `CoinProxyEffects.NoRepeat` | coin-proxy/src/CoinProxy.sol:48-72 | Over every run, a batch of deposits and withdrawals does not go through twice in a row: between two times there is another one. |
| `CoinProxyTheorems.SettlementExactlyOnce` | coin-proxy/src/CoinProxy.sol:87-171 | Each settlement that goes through was prepared with the same bytes and nothing in between. |
| `CoinProxyModel.CoinProxy.Withdraw` | coin-proxy/src/CoinProxy.sol:178-198 | Debits amount and native fee and credits the fee, or reports a shortfall without change. |
| `CoinProxyModel.CoinProxy.RollbackWithdraw` | coin-proxy/src/CoinProxy.sol:200-209 | Takes the fee back and credits amount and fee, or reverts. |
| `CoinProxyModel.CoinProxy.SubmitDepositAndWithdrawalBatch` | coin-proxy/src/CoinProxy.sol:48-72 | All deposits, then all withdrawals, in order. |
| `CoinProxyModel.CoinProxy.RollbackWithdrawalBatch` | coin-proxy/src/CoinProxy.sol:74-85 | All undos in order, or a revert without change. |
| `CoinProxyModel.CoinProxy.Execute` | coin-proxy/src/CoinProxy.sol:20-209 | A transaction as the chain runs it. |
| `NodeCodec.RoundTripIff` | arch/common/src/processed_transaction.rs:44-123 | A processed transaction survives storage if and only if it is canonical: counts that fit their fields, 64-byte signatures, ids of 32 bytes in lower-case hexadecimal. |
| `NodeCodec.UpperCaseIsLost` | arch/common/src/processed_transaction.rs:44-123 | An id in upper-case hexadecimal is stored, and comes back in lower case. |
| `NodeCodec.Given` | arch/common/src/processed_transaction.rs:77-123 | Whatever the bytes are, what is loaded from them is canonical. |
| `NodeCodec.InstructionAdvances` | arch/program/src/message.rs:44-47 | An instruction parsed from the front of any longer buffer serialises to exactly as many bytes as the parser used, which is what the message parser moves on by. |
| `NodeCodec.FlagsAreNormalised` | arch/program/src/account.rs:37-43 | It need not serialise to the same bytes: a flag byte of 2 is read as true and written as 1. |
| `NodeFormat.StoredFormat` | arch/common/src/processed_transaction.rs:44-75 | Where each part of a stored transaction is. |
| `NodeFormat.HighDigitFirst` | arch/common/src/processed_transaction.rs:44-75 | Hexadecimal with the high digit first, both cases read and lower case written. |
| `NodeCodec.RuntimeBack` | arch/common/src/runtime_transaction.rs:23-53 | A runtime transaction is read back from in front of anything. |
| `NodeCodec.MessageBack` | arch/program/src/message.rs:15-53 | The same for messages. |
| `NodeCodec.InstructionBack` | arch/program/src/instruction.rs:21-54 | The same for instructions. |
| `NodeCodec.MetaBack` | arch/program/src/account.rs:27-43 | The same for account metas. |
| `NodeCursors.SerializeMeta` | arch/program/src/account.rs:27-35 | Fills the 34-byte array with the key and the two flags. |
| `NodeCursors.InstructionFromSlice` | arch/program/src/instruction.rs:38-54 | The cursor gives what the layout says, and panics exactly when the bytes are too short. |
| `NodeCursors.MessageFromSlice` | arch/program/src/message.rs:30-53 | The cursor that advances by re-serialised lengths reads exactly the layout. |
| `NodeCursors.RuntimeFromSlice` | arch/common/src/runtime_transaction.rs:36-53 | The same for runtime transactions. |
| `NodeCursors.ProcessedToVec` | arch/common/src/processed_transaction.rs:44-75 | Builds exactly the stored form, or fails on an id that is not hexadecimal. |
| `NodeCursors.ProcessedFromVec` | arch/common/src/processed_transaction.rs:77-123 | The cursor reads exactly the layout, whatever the bytes are. |
| `NodeCursors.StoreAndLoad` | arch/common/src/processed_transaction.rs:44-123 | Storing and loading gives the transaction back if and only if it is canonical. |
| `BumpAllocation.MaskRoundsDown` | arch/program/src/entrypoint.rs:60 | Masking with the complement of 2^k - 1 rounds down to a multiple of 2^k, bit by bit. |
| `BumpAllocation.BumpAllocator.Alloc` | arch/program/src/entrypoint.rs:51-67 | Returns the specified address and stores it, or returns null and changes nothing. |
| `BumpAllocation.AllBlocksGood` | arch/program/src/entrypoint.rs:49-71 | Over any sequence of requests all blocks are aligned, inside the heap, clear of the position word and pairwise disjoint, and a refused request changes nothing. |
| `BumpAllocation.RefusedIff` | arch/program/src/entrypoint.rs:57-63 | A request is refused if and only if no aligned block of its size lies between the position word and the last block. |
| `BumpAllocation.HighestFits` | arch/program/src/entrypoint.rs:57-63 | The block that is handed out is the highest aligned one that fits below the last block. |

## Left out

- ArchProgram.InitProgramState: with three accounts the code types the third account while only the second has been
  sized, which is a panic unless they are the same account; the model says just that.
- ArchAccounts.AccountInfo.Realloc: always fills with zeros, as every caller asks it to; the buffer beyond the data is
  not modelled.
- ArchWithdrawProgram.UpdateWithdrawStateUtxo: the state UTXO itself is kept by the node and is no account data.
- ArchWithdrawProgram.SubmitWithdrawBatch: the transaction to sign is a result; handing it to the node is taken to succeed.
- ArchWithdrawProgram.TransactionBuilder.Complete: runestone enciphering and account scripts are uninterpreted, and the
  values of the state outputs are given.
- ArchSubmit.PaysWhatItDebited: outputs below the dust limit, miner fees and whether change covers the inputs are decided
  outside the code.
- ExchangeTheorems.Solvency: what the contract holds is counted by its own transfers; currency forced on it, rebasing
  tokens, fee-on-transfer tokens and a withdrawal to the contract's own address are not modelled.
- ExchangeModel.Exchange.SubmitWithdrawals: elliptic curves and EIP-712 digests are not modelled, and nothing is claimed
  about who may withdraw by an item with a zero signature.
- NodeCodec.RoundTripIff: error texts are bytes; that they are valid UTF-8 is not modelled.
- BumpAllocation.BumpAllocator.Alloc: the position word is a variable, and addresses have any width that the heap fits.
- ArchWire.Reader.DecodeInstruction: strings are byte strings; one that is invalid UTF-8 is not refused.
- ArchWire.Reader.DecodeTokenState: the same for the text of padded fields.
- ArchWire.Reader.DecodeProgramState: the same for the text of padded fields.
- NodeCursors.ProcessedFromVec: the same for an error text.
- Events emitted by the Solidity contracts, and the getters of the failed-withdrawal amount.
- The runtime: account keys and flags are given, at most one object per key; an account above 10 MiB makes the whole
  transaction fail.
- Proxies and upgrades, ownership transfer, EIP-712, bip322, Taproot.
- RPC, wallets, key files, deployment, and reading the program input from raw memory.
