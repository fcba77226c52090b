/** CoinProxy.sol: a submitter-driven ledger of deposits, withdrawals whose fee
    is paid in native currency, withdrawal rollback and two-phase settlement. */
module CoinProxyModel {
  import opened Wrappers
  import opened SolidityLedger
  import opened Sessions

  datatype Deposit = Deposit(sender: Address, token: Address, amount: Uint256)
  datatype Withdrawal = Withdrawal(sender: Address, token: Address, amount: Uint256, fee: Uint256)
  datatype MoneyBatch = MoneyBatch(deposits: seq<Deposit>, withdrawals: seq<Withdrawal>)

  /** Foreign code: the ABI decoders. */
  datatype Abi = Abi(batch: Bytes -> Option<Batch>, money: Bytes -> Option<MoneyBatch>,
                     rollback: Bytes -> Option<seq<Withdrawal>>)

  datatype Call =
    | SubmitDepositAndWithdrawalBatch(data: Bytes)
    | RollbackWithdrawalBatch(data: Bytes)
    | PrepareSettlementBatch(data: Bytes)
    | SubmitSettlementBatch(data: Bytes)
    | RollbackBatch
    | SetSubmitter(account: Address)
    | SetFeeAccount(account: Address)

  datatype Tx = Tx(sender: Address, call: Call)

  datatype State = State(balances: Ledger, submitter: Address, feeAccount: Address, batchHash: Hash,
                         lastSettlementBatchHash: Hash, lastDepositAndWithdrawBatchHash: Hash, owner: Address)

  // ---------------------------------------------------------------------------
  // Deposits, withdrawals and their rollback, on the ledger
  // ---------------------------------------------------------------------------

  function CreditAll(b: Ledger, ds: seq<Deposit>): Option<Ledger>
    decreases |ds|
  {
    if ds == [] then Some(b) else
    match Add(b, ds[0].sender, ds[0].token, ds[0].amount)
    case None => None
    case Some(b') => CreditAll(b', ds[1..])
  }

  /** Does the ledger cover this withdrawal and its fee?  If not, it is reported
      and skipped.  The fee of a native withdrawal is part of its amount. */
  predicate Covered(b: Ledger, w: Withdrawal) {
    && w.amount <= BalanceOf(b, w.sender, w.token)
    && (w.fee > 0 && w.token != NATIVE ==> w.fee <= BalanceOf(b, w.sender, NATIVE))
  }

  function Charge(b: Ledger, feeAccount: Address, w: Withdrawal): Option<Ledger> {
    if !Covered(b, w) then Some(b) else
    var b1 := if w.fee > 0 && w.token != NATIVE
              then b[(w.sender, NATIVE) := BalanceOf(b, w.sender, NATIVE) - w.fee] else b;
    match Sub(b1, w.sender, w.token, w.amount)
    case None => None
    case Some(b2) => Add(b2, feeAccount, NATIVE, w.fee)
  }

  function ChargeAll(b: Ledger, feeAccount: Address, ws: seq<Withdrawal>): Option<Ledger>
    decreases |ws|
  {
    if ws == [] then Some(b) else
    match Charge(b, feeAccount, ws[0])
    case None => None
    case Some(b') => ChargeAll(b', feeAccount, ws[1..])
  }

  /** The withdrawals of a batch that are reported as succeeded. */
  function Succeeded(b: Ledger, feeAccount: Address, ws: seq<Withdrawal>): seq<Withdrawal>
    decreases |ws|
  {
    if ws == [] then [] else
    match Charge(b, feeAccount, ws[0])
    case None => []
    case Some(b') => (if Covered(b, ws[0]) then [ws[0]] else []) + Succeeded(b', feeAccount, ws[1..])
  }

  function Undo(b: Ledger, feeAccount: Address, w: Withdrawal): Option<Ledger> {
    match Add(b, w.sender, w.token, w.amount)
    case None => None
    case Some(b1) =>
      match (if w.fee > 0 && w.token != NATIVE then Add(b1, w.sender, NATIVE, w.fee) else Some(b1))
      case None => None
      case Some(b2) => Sub(b2, feeAccount, NATIVE, w.fee)
  }

  function UndoAll(b: Ledger, feeAccount: Address, ws: seq<Withdrawal>): Option<Ledger>
    decreases |ws|
  {
    if ws == [] then Some(b) else
    match Undo(b, feeAccount, ws[0])
    case None => None
    case Some(b') => UndoAll(b', feeAccount, ws[1..])
  }

  // ---------------------------------------------------------------------------
  // What each external function does; None is a revert
  // ---------------------------------------------------------------------------

  function SubmitMoney(abi: Abi, s: State, data: Bytes): Option<State> {
    if s.batchHash != Zero || s.lastDepositAndWithdrawBatchHash == Keccak(data) then None else
    match abi.money(data)
    case None => None
    case Some(batch) =>
      if batch.withdrawals == [] && batch.deposits == [] then None else
      match CreditAll(s.balances, batch.deposits)
      case None => None
      case Some(b1) =>
        match ChargeAll(b1, s.feeAccount, batch.withdrawals)
        case None => None
        case Some(b2) => Some(s.(balances := b2, lastDepositAndWithdrawBatchHash := Keccak(data)))
  }

  function RollbackMoney(abi: Abi, s: State, data: Bytes): Option<State> {
    match abi.rollback(data)
    case None => None
    case Some(ws) =>
      match UndoAll(s.balances, s.feeAccount, ws)
      case None => None
      case Some(b) => Some(s.(balances := b))
  }

  function PrepareSettlement(abi: Abi, s: State, data: Bytes): Option<State> {
    if s.batchHash != Zero then None else
    match abi.batch(data)
    case None => None
    case Some(batch) =>
      match Verify(s.balances, batch)
      case None => None
      case Some(covered) => if covered then Some(s.(batchHash := Keccak(data))) else Some(s)
  }

  function SubmitSettlement(abi: Abi, s: State, data: Bytes): Option<State> {
    if s.batchHash == Zero || s.batchHash != Keccak(data) then None else
    match abi.batch(data)
    case None => None
    case Some(batch) =>
      match Apply(s.balances, s.feeAccount, batch)
      case None => None
      case Some(b) => Some(s.(balances := b, lastSettlementBatchHash := s.batchHash, batchHash := Zero))
  }

  predicate OwnerOnly(call: Call) {
    call.SetSubmitter? || call.SetFeeAccount?
  }

  function Perform(abi: Abi, s: State, tx: Tx): Option<State> {
    if tx.sender != (if OwnerOnly(tx.call) then s.owner else s.submitter) then None else
    match tx.call
    case SubmitDepositAndWithdrawalBatch(data) => SubmitMoney(abi, s, data)
    case RollbackWithdrawalBatch(data) => RollbackMoney(abi, s, data)
    case PrepareSettlementBatch(data) => PrepareSettlement(abi, s, data)
    case SubmitSettlementBatch(data) => SubmitSettlement(abi, s, data)
    case RollbackBatch => Some(s.(batchHash := Zero))
    case SetSubmitter(a) => if a == 0 then None else Some(s.(submitter := a))
    case SetFeeAccount(a) => if a == 0 then None else Some(s.(feeAccount := a))
  }

  function Step(abi: Abi, s: State, tx: Tx): State {
    match Perform(abi, s, tx)
    case None => s
    case Some(s') => s'
  }

  function Stepper(abi: Abi): (State, Tx) -> State {
    (s, tx) => Step(abi, s, tx)
  }

  function Run(abi: Abi, s: State, txs: seq<Tx>): State {
    RunOf(Stepper(abi), s, txs)
  }

  // ---------------------------------------------------------------------------
  // The contract itself
  // ---------------------------------------------------------------------------

  class CoinProxy {
    const abi: Abi
    const owner: Address
    var balances: Ledger
    var submitter: Address
    var feeAccount: Address
    var batchHash: Hash
    var lastSettlementBatchHash: Hash
    var lastDepositAndWithdrawBatchHash: Hash

    function Storage(): State
      reads this
    {
      State(balances, submitter, feeAccount, batchHash, lastSettlementBatchHash, lastDepositAndWithdrawBatchHash, owner)
    }

    constructor (abi: Abi, deployer: Address, submitter: Address, feeAccount: Address)
      ensures this.abi == abi
      ensures Storage() == State(map[], submitter, feeAccount, Zero, Zero, Zero, deployer)
    {
      this.abi, owner := abi, deployer;
      this.submitter, this.feeAccount, balances := submitter, feeAccount, map[];
      batchHash, lastSettlementBatchHash, lastDepositAndWithdrawBatchHash := Zero, Zero, Zero;
    }

    /** `_withdraw`; false is a revert. */
    method Withdraw(w: Withdrawal) returns (ok: bool)
      modifies this`balances
      ensures ok == Charge(old(balances), feeAccount, w).Some?
      ensures ok ==> Some(balances) == Charge(old(balances), feeAccount, w)
    {
      if w.amount > BalanceOf(balances, w.sender, w.token) {
        return true;
      }
      if w.fee > 0 && w.token != NATIVE {
        var feeBalance := BalanceOf(balances, w.sender, NATIVE);
        if w.fee > feeBalance {
          return true;
        }
        balances := balances[(w.sender, NATIVE) := feeBalance - w.fee];
      }
      balances := balances[(w.sender, w.token) := BalanceOf(balances, w.sender, w.token) - w.amount];
      var credited := Add(balances, feeAccount, NATIVE, w.fee);
      if credited.None? {
        return false;
      }
      balances := credited.value;
      return true;
    }

    /** `_rollbackWithdraw`; false is a revert. */
    method RollbackWithdraw(w: Withdrawal) returns (ok: bool)
      modifies this`balances
      ensures ok == Undo(old(balances), feeAccount, w).Some?
      ensures ok ==> Some(balances) == Undo(old(balances), feeAccount, w)
    {
      var credited := Add(balances, w.sender, w.token, w.amount);
      if credited.None? {
        return false;
      }
      balances := credited.value;
      if w.fee > 0 && w.token != NATIVE {
        credited := Add(balances, w.sender, NATIVE, w.fee);
        if credited.None? {
          return false;
        }
        balances := credited.value;
      }
      var debited := Sub(balances, feeAccount, NATIVE, w.fee);
      if debited.None? {
        return false;
      }
      balances := debited.value;
      return true;
    }

    method SubmitDepositAndWithdrawalBatch(data: Bytes) returns (ok: bool)
      modifies this`balances, this`lastDepositAndWithdrawBatchHash
      ensures ok == SubmitMoney(abi, old(Storage()), data).Some?
      ensures ok ==> Some(Storage()) == SubmitMoney(abi, old(Storage()), data)
    {
      var decoded := abi.money(data);
      if batchHash != Zero || lastDepositAndWithdrawBatchHash == Keccak(data) || decoded.None? {
        return false;
      }
      var batch := decoded.value;
      if batch.withdrawals == [] && batch.deposits == [] {
        return false;
      }
      var i := 0;
      while i < |batch.deposits|
        invariant 0 <= i <= |batch.deposits|
        invariant CreditAll(old(balances), batch.deposits) == CreditAll(balances, batch.deposits[i..])
        invariant batchHash == old(batchHash) && lastDepositAndWithdrawBatchHash == old(lastDepositAndWithdrawBatchHash)
      {
        assert batch.deposits[i..][1..] == batch.deposits[i + 1..];
        var credited := Add(balances, batch.deposits[i].sender, batch.deposits[i].token, batch.deposits[i].amount);
        if credited.None? {
          return false;
        }
        balances := credited.value;
        i := i + 1;
      }
      ghost var deposited: Ledger := balances;
      i := 0;
      while i < |batch.withdrawals|
        invariant 0 <= i <= |batch.withdrawals|
        invariant ChargeAll(deposited, feeAccount, batch.withdrawals)
            == ChargeAll(balances, feeAccount, batch.withdrawals[i..])
        invariant batchHash == old(batchHash) && lastDepositAndWithdrawBatchHash == old(lastDepositAndWithdrawBatchHash)
      {
        assert batch.withdrawals[i..][1..] == batch.withdrawals[i + 1..];
        var done := Withdraw(batch.withdrawals[i]);
        if !done {
          return false;
        }
        i := i + 1;
      }
      lastDepositAndWithdrawBatchHash := Keccak(data);
      return true;
    }

    method RollbackWithdrawalBatch(data: Bytes) returns (ok: bool)
      modifies this`balances
      ensures ok == RollbackMoney(abi, old(Storage()), data).Some?
      ensures ok ==> Some(Storage()) == RollbackMoney(abi, old(Storage()), data)
    {
      var decoded := abi.rollback(data);
      if decoded.None? {
        return false;
      }
      var ws := decoded.value;
      var i := 0;
      while i < |ws|
        invariant 0 <= i <= |ws|
        invariant UndoAll(old(balances), feeAccount, ws) == UndoAll(balances, feeAccount, ws[i..])
      {
        assert ws[i..][1..] == ws[i + 1..];
        var done := RollbackWithdraw(ws[i]);
        if !done {
          return false;
        }
        i := i + 1;
      }
      return true;
    }

    method PrepareSettlementBatch(data: Bytes) returns (ok: bool)
      modifies this`batchHash
      ensures ok == PrepareSettlement(abi, old(Storage()), data).Some?
      ensures ok ==> Some(Storage()) == PrepareSettlement(abi, old(Storage()), data)
    {
      var batch := abi.batch(data);
      if batchHash != Zero || batch.None? {
        return false;
      }
      var covered := VerifyBatch(balances, batch.value);
      if covered.None? {
        return false;
      }
      if covered.value {
        batchHash := Keccak(data);
      }
      return true;
    }

    method SubmitSettlementBatch(data: Bytes) returns (ok: bool)
      modifies this`balances, this`batchHash, this`lastSettlementBatchHash
      ensures ok == SubmitSettlement(abi, old(Storage()), data).Some?
      ensures ok ==> Some(Storage()) == SubmitSettlement(abi, old(Storage()), data)
    {
      var batch := abi.batch(data);
      if batchHash == Zero || batchHash != Keccak(data) || batch.None? {
        return false;
      }
      var b := ApplyBatch(balances, feeAccount, batch.value);
      if b.None? {
        return false;
      }
      balances := b.value;
      lastSettlementBatchHash := batchHash;
      batchHash := Zero;
      return true;
    }

    method Dispatch(tx: Tx) returns (ok: bool)
      modifies this
      ensures ok == Perform(abi, old(Storage()), tx).Some?
      ensures ok ==> Some(Storage()) == Perform(abi, old(Storage()), tx)
    {
      if tx.sender != (if OwnerOnly(tx.call) then owner else submitter) {
        return false;
      }
      match tx.call
      case SubmitDepositAndWithdrawalBatch(data) => ok := SubmitDepositAndWithdrawalBatch(data);
      case RollbackWithdrawalBatch(data) => ok := RollbackWithdrawalBatch(data);
      case PrepareSettlementBatch(data) => ok := PrepareSettlementBatch(data);
      case SubmitSettlementBatch(data) => ok := SubmitSettlementBatch(data);
      case RollbackBatch =>
        batchHash := Zero;
        ok := true;
      case SetSubmitter(a) =>
        ok := a != 0;
        submitter := a;
      case SetFeeAccount(a) =>
        ok := a != 0;
        feeAccount := a;
    }

    /** A transaction as the chain runs it: storage is put back on a revert. */
    method Execute(tx: Tx) returns (ok: bool)
      modifies this
      ensures Storage() == Step(abi, old(Storage()), tx)
      ensures ok == Perform(abi, old(Storage()), tx).Some?
    {
      var before := Storage();
      ok := Dispatch(tx);
      if !ok {
        balances, submitter, feeAccount := before.balances, before.submitter, before.feeAccount;
        batchHash, lastSettlementBatchHash := before.batchHash, before.lastSettlementBatchHash;
        lastDepositAndWithdrawBatchHash := before.lastDepositAndWithdrawBatchHash;
      }
    }
  }
}
