/** Exchange.sol: custody of deposits, withdrawals with fees, two-phase
    settlement and time-locked sovereign withdrawals. */
module ExchangeModel {
  import opened Wrappers
  import opened SolidityLedger
  import Sessions

  /** A decoded withdrawal; `recovered` is whose signature it carries, as recovered
      from the signature and the digest of its fields, or None if that reverts. */
  datatype Withdrawal = Withdrawal(all: bool, sender: Address, token: Address, amount: Uint256,
                                   fee: Uint256, zeroSignature: bool, recovered: Option<Address>)
  datatype Request = Request(token: Address, amount: Uint256, timestamp: nat)

  /** Foreign code: the ABI decoders, and the recovery of a signer from a digest
      and a signature. */
  datatype Abi = Abi(batch: Bytes -> Option<Batch>, withdrawal: Bytes -> Option<Withdrawal>,
                     recover: (Bytes, Bytes) -> Option<Address>)

  /** `moves(who, token, amount)` says whether the token (or the recipient of
      native currency) lets this transfer happen. */
  datatype Msg = Msg(sender: Address, timestamp: nat, moves: (Address, Address, nat) -> bool)

  datatype Call =
    | Receive(value: Uint256)
    | Deposit(token: Address, amount: Uint256)
    | SovereignWithdrawal(token: Address, amount: Uint256)
    | SubmitWithdrawals(items: seq<Bytes>)
    | PrepareSettlementBatch(data: Bytes)
    | SubmitSettlementBatch(data: Bytes)
    | RollbackBatch
    | SetSubmitter(account: Address)
    | SetFeeAccount(account: Address)
    | SetSovereignWithdrawalDelay(delay: Uint256)
    | LinkSigner(signer: Address, digest: Bytes, signature: Bytes)
    | RemoveLinkedSigner

  datatype Tx = Tx(msg: Msg, call: Call)

  /** Contract storage, and `holdings`: what the token contracts record as held
      by this contract. */
  datatype State = State(
    balances: Ledger, submitter: Address, feeAccount: Address,
    batchHash: Hash, lastSettlementBatchHash: Hash, lastWithdrawalBatchHash: Hash,
    sovereignWithdrawals: map<Address, Request>, sovereignWithdrawalDelay: Uint256,
    linkedSigners: map<Address, Address>, owner: Address, holdings: map<Address, nat>)

  const ONE_DAY: nat := 86400

  function RequestOf(requests: map<Address, Request>, user: Address): Request {
    if user in requests then requests[user] else Request(NATIVE, 0, 0)
  }

  function Held(holdings: map<Address, nat>, token: Address): nat {
    if token in holdings then holdings[token] else 0
  }

  // ---------------------------------------------------------------------------
  // What each external function does; None is a revert
  // ---------------------------------------------------------------------------

  function CreditDeposit(s: State, sender: Address, token: Address, amount: Uint256): Option<State> {
    match Add(s.balances, sender, token, amount)
    case None => None
    case Some(b) => Some(s.(balances := b, holdings := s.holdings[token := Held(s.holdings, token) + amount]))
  }

  /** There is no token contract at address zero, so pulling it reverts. */
  function DepositToken(s: State, msg: Msg, token: Address, amount: Uint256): Option<State> {
    if token == NATIVE || !msg.moves(msg.sender, token, amount) then None
    else CreditDeposit(s, msg.sender, token, amount)
  }

  /** _withdraw: a withdrawal beyond the balance is reported, not reverted. */
  function Withdraw(s: State, msg: Msg, sender: Address, token: Address, amount: Uint256, fee: Uint256): Option<State> {
    if amount > BalanceOf(s.balances, sender, token) then Some(s) else
    match Sub(s.balances, sender, token, amount)
    case None => None
    case Some(b1) =>
      match Add(b1, s.feeAccount, token, fee)
      case None => None
      case Some(b2) =>
        if fee > amount || amount - fee > Held(s.holdings, token) || !msg.moves(sender, token, amount - fee) then None
        else Some(s.(balances := b2, holdings := s.holdings[token := Held(s.holdings, token) - (amount - fee)]))
  }

  function WithdrawAll(s: State, msg: Msg, sender: Address, token: Address, amount: Uint256,
                       fee: Uint256): Option<State> {
    var balance := BalanceOf(s.balances, sender, token);
    if fee >= balance then Some(s)
        else Withdraw(s, msg, sender, token, if amount > balance then balance else amount, fee)
  }

  function StoreRequest(s: State, msg: Msg, token: Address, amount: Uint256): Option<State> {
    if amount > BalanceOf(s.balances, msg.sender, token) then None else
    Some(s.(sovereignWithdrawals := s.sovereignWithdrawals[msg.sender := Request(token, amount, msg.timestamp)]))
  }

  function Sovereign(s: State, msg: Msg, token: Address, amount: Uint256): Option<State> {
    var request := RequestOf(s.sovereignWithdrawals, msg.sender);
    if request.timestamp == 0 then StoreRequest(s, msg, token, amount)
    else if request.timestamp + s.sovereignWithdrawalDelay >= U256
         || msg.timestamp < request.timestamp + s.sovereignWithdrawalDelay then None
    else if request.token == token && request.amount == amount then
      var out := if request.amount == 0 then BalanceOf(s.balances, msg.sender, token) else request.amount;
      match Withdraw(s, msg, msg.sender, request.token, out, 0)
      case None => None
      case Some(s') => Some(s'.(sovereignWithdrawals := s'.sovereignWithdrawals - {msg.sender}))
    else StoreRequest(s, msg, token, amount)
  }

  predicate IsPendingSovereign(requests: map<Address, Request>, w: Withdrawal) {
    var request := RequestOf(requests, w.sender);
    && (request.amount == w.amount || (request.amount == 0 && w.all))
    && request.token == w.token
  }

  function SignerOf(linked: map<Address, Address>, user: Address): Address {
    if user in linked then linked[user] else 0
  }

  /** _validateWithdrawalSignature: signed by the sender, or by the signer linked to
      the sender. */
  predicate SignatureAccepted(linked: map<Address, Address>, sender: Address, recovered: Address) {
    recovered != 0 && (recovered == sender || recovered == SignerOf(linked, sender))
  }

  function Link(abi: Abi, s: State, sender: Address, signer: Address, digest: Bytes, signature: Bytes): Option<State> {
    match abi.recover(digest, signature)
    case None => None
    case Some(a) => if a == 0 || a != signer then Some(s) else Some(s.(linkedSigners := s.linkedSigners[sender := a]))
  }

  /** A withdrawal that may be made, of a given amount or of everything. */
  function Pay(s: State, msg: Msg, w: Withdrawal): Option<State> {
    if w.all then WithdrawAll(s, msg, w.sender, w.token, w.amount, w.fee)
    else Withdraw(s, msg, w.sender, w.token, w.amount, w.fee)
  }

  function WithdrawOne(abi: Abi, s: State, msg: Msg, item: Bytes): Option<State> {
    match abi.withdrawal(item)
    case None => None
    case Some(w) =>
      var pending := w.zeroSignature && IsPendingSovereign(s.sovereignWithdrawals, w);
      if !pending && w.recovered.None? then None
      else if !pending && !SignatureAccepted(s.linkedSigners, w.sender, w.recovered.value) then Some(s)
      else
        match Pay(s, msg, w)
        case None => None
        case Some(s') =>
          if pending then Some(s'.(sovereignWithdrawals := s'.sovereignWithdrawals - {w.sender})) else Some(s')
  }

  function WithdrawMany(abi: Abi, s: State, msg: Msg, items: seq<Bytes>): Option<State>
    decreases |items|
  {
    if items == [] then Some(s) else
    match WithdrawOne(abi, s, msg, items[0])
    case None => None
    case Some(s') => WithdrawMany(abi, s', msg, items[1..])
  }

  function HashOfItems(items: seq<Bytes>): Hash {
    OfHashes(seq(|items|, i requires 0 <= i < |items| => Keccak(items[i])))
  }

  function SubmitWithdrawalBatch(abi: Abi, s: State, msg: Msg, items: seq<Bytes>): Option<State> {
    if s.batchHash != Zero || s.lastWithdrawalBatchHash == HashOfItems(items) then None else
    match WithdrawMany(abi, s, msg, items)
    case None => None
    case Some(s') => Some(s'.(lastWithdrawalBatchHash := HashOfItems(items)))
  }

  function PrepareSettlement(abi: Abi, s: State, data: Bytes): Option<State> {
    if s.batchHash != Zero then None else
    match abi.batch(data)
    case None => None
    case Some(batch) =>
      match Verify(s.balances, batch)
      case None => None
      case Some(covered) => if covered then Some(s.(batchHash := Keccak(data))) else Some(s)
  }

  function SubmitSettlement(abi: Abi, s: State, data: Bytes): Option<State> {
    if s.batchHash == Zero || s.batchHash != Keccak(data) then None else
    match abi.batch(data)
    case None => None
    case Some(batch) =>
      match Apply(s.balances, s.feeAccount, batch)
      case None => None
      case Some(b) => Some(s.(balances := b, lastSettlementBatchHash := s.batchHash, batchHash := Zero))
  }

  predicate SubmitterOnly(call: Call) {
    call.SubmitWithdrawals? || call.PrepareSettlementBatch? || call.SubmitSettlementBatch? || call.RollbackBatch?
  }

  predicate OwnerOnly(call: Call) {
    call.SetSubmitter? || call.SetFeeAccount? || call.SetSovereignWithdrawalDelay?
  }

  function Perform(abi: Abi, s: State, tx: Tx): Option<State> {
    if SubmitterOnly(tx.call) && tx.msg.sender != s.submitter then None
    else if OwnerOnly(tx.call) && tx.msg.sender != s.owner then None
    else
      match tx.call
      case Receive(value) => CreditDeposit(s, tx.msg.sender, NATIVE, value)
      case Deposit(token, amount) => DepositToken(s, tx.msg, token, amount)
      case SovereignWithdrawal(token, amount) => Sovereign(s, tx.msg, token, amount)
      case SubmitWithdrawals(items) => SubmitWithdrawalBatch(abi, s, tx.msg, items)
      case PrepareSettlementBatch(data) => PrepareSettlement(abi, s, data)
      case SubmitSettlementBatch(data) => SubmitSettlement(abi, s, data)
      case RollbackBatch => Some(s.(batchHash := Zero))
      case SetSubmitter(a) => if a == 0 then None else Some(s.(submitter := a))
      case SetFeeAccount(a) => if a == 0 then None else Some(s.(feeAccount := a))
      case SetSovereignWithdrawalDelay(d) => if d < ONE_DAY then None else Some(s.(sovereignWithdrawalDelay := d))
      case LinkSigner(a, digest, signature) => Link(abi, s, tx.msg.sender, a, digest, signature)
      case RemoveLinkedSigner => Some(s.(linkedSigners := s.linkedSigners - {tx.msg.sender}))
  }

  /** One transaction: a revert leaves everything as it was. */
  function Step(abi: Abi, s: State, tx: Tx): State {
    match Perform(abi, s, tx)
    case None => s
    case Some(s') => s'
  }

  function Stepper(abi: Abi): (State, Tx) -> State {
    (s, tx) => Step(abi, s, tx)
  }

  function Run(abi: Abi, s: State, txs: seq<Tx>): State {
    Sessions.RunOf(Stepper(abi), s, txs)
  }

  // ---------------------------------------------------------------------------
  // The contract itself
  // ---------------------------------------------------------------------------

  class Exchange {
    const abi: Abi
    const owner: Address
    var balances: Ledger
    var submitter: Address
    var feeAccount: Address
    var batchHash: Hash
    var lastSettlementBatchHash: Hash
    var lastWithdrawalBatchHash: Hash
    var sovereignWithdrawals: map<Address, Request>
    var sovereignWithdrawalDelay: Uint256
    var linkedSigners: map<Address, Address>
    var holdings: map<Address, nat>

    function Storage(): State
      reads this
    {
      State(balances, submitter, feeAccount, batchHash, lastSettlementBatchHash, lastWithdrawalBatchHash,
            sovereignWithdrawals, sovereignWithdrawalDelay, linkedSigners, owner, holdings)
    }

    constructor (abi: Abi, deployer: Address, submitter: Address, feeAccount: Address, delay: Uint256)
      ensures this.abi == abi
      ensures Storage() == State(map[], submitter, feeAccount, Zero, Zero, Zero, map[], delay, map[], deployer, map[])
    {
      this.abi, owner := abi, deployer;
      this.submitter, this.feeAccount, sovereignWithdrawalDelay := submitter, feeAccount, delay;
      balances, sovereignWithdrawals, linkedSigners, holdings := map[], map[], map[], map[];
      batchHash, lastSettlementBatchHash, lastWithdrawalBatchHash := Zero, Zero, Zero;
    }

    method CreditDeposited(sender: Address, token: Address, amount: Uint256) returns (ok: bool)
      modifies this`balances, this`holdings
      ensures ok == CreditDeposit(old(Storage()), sender, token, amount).Some?
      ensures ok ==> Some(Storage()) == CreditDeposit(old(Storage()), sender, token, amount)
    {
      holdings := holdings[token := Held(holdings, token) + amount];
      var b := Add(balances, sender, token, amount);
      if b.None? {
        return false;
      }
      balances := b.value;
      return true;
    }

    /** `_withdraw`: debits, credits the fee, then transfers out. */
    method WithdrawFunds(msg: Msg, sender: Address, token: Address, amount: Uint256, fee: Uint256) returns (ok: bool)
      modifies this`balances, this`holdings
      ensures ok == Withdraw(old(Storage()), msg, sender, token, amount, fee).Some?
      ensures ok ==> Some(Storage()) == Withdraw(old(Storage()), msg, sender, token, amount, fee)
    {
      var balance := BalanceOf(balances, sender, token);
      if amount > balance {
        return true;
      }
      balances := balances[(sender, token) := balance - amount];
      var b := Add(balances, feeAccount, token, fee);
      if b.None? {
        return false;
      }
      balances := b.value;
      if fee > amount || amount - fee > Held(holdings, token) || !msg.moves(sender, token, amount - fee) {
        return false;
      }
      holdings := holdings[token := Held(holdings, token) - (amount - fee)];
      return true;
    }

    method WithdrawEverything(msg: Msg, sender: Address, token: Address, amount: Uint256, fee: Uint256)
        returns (ok: bool)
      modifies this`balances, this`holdings
      ensures ok == WithdrawAll(old(Storage()), msg, sender, token, amount, fee).Some?
      ensures ok ==> Some(Storage()) == WithdrawAll(old(Storage()), msg, sender, token, amount, fee)
    {
      var balance := BalanceOf(balances, sender, token);
      if fee >= balance {
        return true;
      }
      ok := WithdrawFunds(msg, sender, token, if amount > balance then balance else amount, fee);
    }

    method SovereignWithdraw(msg: Msg, token: Address, amount: Uint256) returns (ok: bool)
      modifies this`balances, this`holdings, this`sovereignWithdrawals
      ensures ok == Sovereign(old(Storage()), msg, token, amount).Some?
      ensures ok ==> Some(Storage()) == Sovereign(old(Storage()), msg, token, amount)
    {
      var request := RequestOf(sovereignWithdrawals, msg.sender);
      if request.timestamp != 0 {
        var due := request.timestamp + sovereignWithdrawalDelay;
        if due >= U256 || msg.timestamp < due {
          return false;
        }
        if request.token == token && request.amount == amount {
          var out := if request.amount == 0 then BalanceOf(balances, msg.sender, token) else request.amount;
          ok := WithdrawFunds(msg, msg.sender, request.token, out, 0);
          sovereignWithdrawals := sovereignWithdrawals - {msg.sender};
          return;
        }
      }
      if amount > BalanceOf(balances, msg.sender, token) {
        return false;
      }
      sovereignWithdrawals := sovereignWithdrawals[msg.sender := Request(token, amount, msg.timestamp)];
      return true;
    }

    method SubmitWithdrawals(msg: Msg, items: seq<Bytes>) returns (ok: bool)
      modifies this`balances, this`holdings, this`sovereignWithdrawals, this`lastWithdrawalBatchHash
      ensures ok == SubmitWithdrawalBatch(abi, old(Storage()), msg, items).Some?
      ensures ok ==> Some(Storage()) == SubmitWithdrawalBatch(abi, old(Storage()), msg, items)
    {
      if batchHash != Zero || lastWithdrawalBatchHash == HashOfItems(items) {
        return false;
      }
      var i := 0;
      while i < |items|
        invariant 0 <= i <= |items|
        invariant WithdrawMany(abi, old(Storage()), msg, items) == WithdrawMany(abi, Storage(), msg, items[i..])
      {
        assert items[i..][1..] == items[i + 1..];
        var decoded := abi.withdrawal(items[i]);
        if decoded.None? {
          return false;
        }
        var w := decoded.value;
        var pending := w.zeroSignature && IsPendingSovereign(sovereignWithdrawals, w);
        if !pending && w.recovered.None? {
          return false;
        }
        if pending || SignatureAccepted(linkedSigners, w.sender, w.recovered.value) {
          var paid;
          if w.all {
            paid := WithdrawEverything(msg, w.sender, w.token, w.amount, w.fee);
          } else {
            paid := WithdrawFunds(msg, w.sender, w.token, w.amount, w.fee);
          }
          if !paid {
            return false;
          }
          if pending {
            sovereignWithdrawals := sovereignWithdrawals - {w.sender};
          }
        }
        i := i + 1;
      }
      lastWithdrawalBatchHash := HashOfItems(items);
      return true;
    }

    method PrepareSettlementBatch(data: Bytes) returns (ok: bool)
      modifies this`batchHash
      ensures ok == PrepareSettlement(abi, old(Storage()), data).Some?
      ensures ok ==> Some(Storage()) == PrepareSettlement(abi, old(Storage()), data)
    {
      var batch := abi.batch(data);
      if batchHash != Zero || batch.None? {
        return false;
      }
      var covered := VerifyBatch(balances, batch.value);
      if covered.None? {
        return false;
      }
      if covered.value {
        batchHash := Keccak(data);
      }
      return true;
    }

    method SubmitSettlementBatch(data: Bytes) returns (ok: bool)
      modifies this`balances, this`batchHash, this`lastSettlementBatchHash
      ensures ok == SubmitSettlement(abi, old(Storage()), data).Some?
      ensures ok ==> Some(Storage()) == SubmitSettlement(abi, old(Storage()), data)
    {
      var batch := abi.batch(data);
      if batchHash == Zero || batchHash != Keccak(data) || batch.None? {
        return false;
      }
      var b := ApplyBatch(balances, feeAccount, batch.value);
      if b.None? {
        return false;
      }
      balances := b.value;
      lastSettlementBatchHash := batchHash;
      batchHash := Zero;
      return true;
    }

    method Dispatch(tx: Tx) returns (ok: bool)
      modifies this
      ensures ok == Perform(abi, old(Storage()), tx).Some?
      ensures ok ==> Some(Storage()) == Perform(abi, old(Storage()), tx)
    {
      if SubmitterOnly(tx.call) && tx.msg.sender != submitter {
        return false;
      }
      if OwnerOnly(tx.call) && tx.msg.sender != owner {
        return false;
      }
      match tx.call
      case Receive(value) =>
        ok := CreditDeposited(tx.msg.sender, NATIVE, value);
      case Deposit(token, amount) =>
        if token == NATIVE || !tx.msg.moves(tx.msg.sender, token, amount) {
          return false;
        }
        ok := CreditDeposited(tx.msg.sender, token, amount);
      case SovereignWithdrawal(token, amount) =>
        ok := SovereignWithdraw(tx.msg, token, amount);
      case SubmitWithdrawals(items) =>
        ok := SubmitWithdrawals(tx.msg, items);
      case PrepareSettlementBatch(data) =>
        ok := PrepareSettlementBatch(data);
      case SubmitSettlementBatch(data) =>
        ok := SubmitSettlementBatch(data);
      case RollbackBatch =>
        batchHash := Zero;
        ok := true;
      case SetSubmitter(a) =>
        ok := a != 0;
        submitter := a;
      case SetFeeAccount(a) =>
        ok := a != 0;
        feeAccount := a;
      case SetSovereignWithdrawalDelay(d) =>
        ok := d >= ONE_DAY;
        sovereignWithdrawalDelay := d;
      case LinkSigner(a, digest, signature) =>
        var recovered := abi.recover(digest, signature);
        ok := recovered.Some?;
        if ok && recovered.value != 0 && recovered.value == a {
          linkedSigners := linkedSigners[tx.msg.sender := a];
        }
      case RemoveLinkedSigner =>
        linkedSigners := linkedSigners - {tx.msg.sender};
        ok := true;
    }

    /** A transaction as the chain runs it: storage is put back on a revert. */
    method Execute(tx: Tx) returns (ok: bool)
      modifies this
      ensures Storage() == Step(abi, old(Storage()), tx)
      ensures ok == Perform(abi, old(Storage()), tx).Some?
    {
      var before := Storage();
      ok := Dispatch(tx);
      if !ok {
        balances, submitter, feeAccount := before.balances, before.submitter, before.feeAccount;
        batchHash, lastSettlementBatchHash := before.batchHash, before.lastSettlementBatchHash;
        lastWithdrawalBatchHash := before.lastWithdrawalBatchHash;
        sovereignWithdrawals, linkedSigners := before.sovereignWithdrawals, before.linkedSigners;
        sovereignWithdrawalDelay, holdings := before.sovereignWithdrawalDelay, before.holdings;
      }
    }
  }
}
