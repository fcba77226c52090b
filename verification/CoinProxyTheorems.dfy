/** CoinProxy.sol: rollback undoes withdrawal, and settlement is exactly-once. */
module CoinProxyTheorems {
  import opened Wrappers
  import opened SolidityLedger
  import opened CoinProxyModel
  import opened Sessions

  // ---------------------------------------------------------------------------
  // What one withdrawal or deposit does to one slot
  // ---------------------------------------------------------------------------

  /** What a withdrawal takes from slot `k`: its amount, and a separate fee. */
  function Taken(w: Withdrawal, k: Slot): nat {
    (if k == (w.sender, w.token) then w.amount else 0)
    + (if k == (w.sender, NATIVE) && w.token != NATIVE then w.fee else 0)
  }

  function TakenBy(ws: seq<Withdrawal>, k: Slot): nat {
    if ws == [] then 0 else Taken(ws[0], k) + TakenBy(ws[1..], k)
  }

  function Fees(ws: seq<Withdrawal>): nat {
    if ws == [] then 0 else ws[0].fee + Fees(ws[1..])
  }

  /** The fees that reach slot `k`. */
  function FeesTo(ws: seq<Withdrawal>, feeAccount: Address, k: Slot): nat {
    if k == (feeAccount, NATIVE) then Fees(ws) else 0
  }

  function Deposited(ds: seq<Deposit>, k: Slot): nat {
    if ds == [] then 0 else (if k == (ds[0].sender, ds[0].token) then ds[0].amount else 0) + Deposited(ds[1..], k)
  }

  lemma ChargeSlot(b: Ledger, feeAccount: Address, w: Withdrawal, k: Slot)
    requires Covered(b, w) && Charge(b, feeAccount, w).Some?
    ensures At(Charge(b, feeAccount, w).value, k) == At(b, k) - Taken(w, k) + FeesTo([w], feeAccount, k)
  {
    assert Fees([w]) == w.fee + Fees([w][1..]);
  }

  lemma {:induction false} ChargeAllSlot(b: Ledger, feeAccount: Address, ws: seq<Withdrawal>, k: Slot)
    requires ChargeAll(b, feeAccount, ws).Some?
    ensures var done := Succeeded(b, feeAccount, ws);
            At(ChargeAll(b, feeAccount, ws).value, k) == At(b, k) - TakenBy(done, k) + FeesTo(done, feeAccount, k)
    decreases |ws|
  {
    if ws != [] {
      var b' := Charge(b, feeAccount, ws[0]).value;
      ChargeAllSlot(b', feeAccount, ws[1..], k);
      if Covered(b, ws[0]) {
        ChargeSlot(b, feeAccount, ws[0], k);
        assert Succeeded(b, feeAccount, ws)[1..] == Succeeded(b', feeAccount, ws[1..]);
        assert Fees([ws[0]]) == ws[0].fee + Fees([ws[0]][1..]);
      } else {
        assert Succeeded(b, feeAccount, ws) == Succeeded(b', feeAccount, ws[1..]);
      }
    }
  }

  lemma {:induction false} CreditAllSlot(b: Ledger, ds: seq<Deposit>, k: Slot)
    requires CreditAll(b, ds).Some?
    ensures At(CreditAll(b, ds).value, k) == At(b, k) + Deposited(ds, k)
    decreases |ds|
  {
    if ds != [] {
      CreditAllSlot(Add(b, ds[0].sender, ds[0].token, ds[0].amount).value, ds[1..], k);
    }
  }

  lemma FeesSplit(us: seq<Withdrawal>, vs: seq<Withdrawal>, k: Slot)
    ensures Fees(us + vs) == Fees(us) + Fees(vs)
    ensures TakenBy(us + vs, k) == TakenBy(us, k) + TakenBy(vs, k)
  {
    if us == [] {
      assert us + vs == vs;
    } else {
      assert (us + vs)[1..] == us[1..] + vs;
      FeesSplit(us[1..], vs, k);
    }
  }

  // ---------------------------------------------------------------------------
  // One undo
  // ---------------------------------------------------------------------------

  function Reverse(ws: seq<Withdrawal>): seq<Withdrawal> {
    if ws == [] then [] else Reverse(ws[1..]) + [ws[0]]
  }

  /** `c` is `b` with `extra` added to every slot. */
  ghost predicate Above(c: Ledger, b: Ledger, extra: Slot -> nat) {
    forall k: Slot :: At(c, k) == At(b, k) + extra(k)
  }

  /** With `extra` and the fees on top, no slot of `b` leaves the uint256 range. */
  ghost predicate Roomy(b: Ledger, extra: Slot -> nat, feeAccount: Address, ws: seq<Withdrawal>) {
    forall k: Slot :: At(b, k) + extra(k) + FeesTo(ws, feeAccount, k) < U256
  }

  lemma UndoSlot(c: Ledger, feeAccount: Address, w: Withdrawal, k: Slot)
    requires Undo(c, feeAccount, w).Some?
    ensures At(Undo(c, feeAccount, w).value, k) == At(c, k) + Taken(w, k) - FeesTo([w], feeAccount, k)
  {
    assert Fees([w]) == w.fee + Fees([w][1..]);
  }

  lemma UndoSucceeds(c: Ledger, feeAccount: Address, w: Withdrawal)
    requires At(c, (w.sender, w.token)) + w.amount < U256
    requires w.token != NATIVE ==> At(c, (w.sender, NATIVE)) + w.fee < U256
    requires w.fee <= At(c, (feeAccount, NATIVE)) + Taken(w, (feeAccount, NATIVE))
    ensures Undo(c, feeAccount, w).Some?
  {
  }

  /** Undoing the last withdrawal that went through gives back what was there
      before it, and whatever was added since stays on top. */
  lemma UndoInvertsCharge(b: Ledger, c: Ledger, extra: Slot -> nat, feeAccount: Address, w: Withdrawal)
    requires Covered(b, w) && Charge(b, feeAccount, w).Some?
    requires Above(c, Charge(b, feeAccount, w).value, extra) && Roomy(b, extra, feeAccount, [w])
    ensures Undo(c, feeAccount, w).Some? && Above(Undo(c, feeAccount, w).value, b, extra)
  {
    var b' := Charge(b, feeAccount, w).value;
    assert Fees([w]) == w.fee + Fees([w][1..]);
    forall k: Slot
      ensures At(c, k) == At(b, k) - Taken(w, k) + FeesTo([w], feeAccount, k) + extra(k)
      ensures At(c, k) + Taken(w, k) < U256
    {
      ChargeSlot(b, feeAccount, w, k);
      assert At(c, k) == At(b', k) + extra(k);
      assert At(b, k) + extra(k) + FeesTo([w], feeAccount, k) < U256;
    }
    assert At(c, (w.sender, w.token)) + Taken(w, (w.sender, w.token)) < U256;
    assert At(c, (w.sender, NATIVE)) + Taken(w, (w.sender, NATIVE)) < U256;
    var native := (feeAccount, NATIVE);
    assert At(c, native) == At(b, native) - Taken(w, native) + w.fee + extra(native);
    UndoSucceeds(c, feeAccount, w);
    forall k: Slot
      ensures At(Undo(c, feeAccount, w).value, k) == At(b, k) + extra(k)
    {
      UndoSlot(c, feeAccount, w, k);
    }
  }

  // ---------------------------------------------------------------------------
  // Rollback in any order
  // ---------------------------------------------------------------------------

  /** The fees of every first part of `us` are covered by `x`, what the fee
      account has at first, and what that part has given back to it. */
  predicate FeesCovered(x: nat, feeAccount: Address, us: seq<Withdrawal>) {
    forall n | 0 <= n <= |us| :: Fees(us[..n]) <= x + TakenBy(us[..n], (feeAccount, NATIVE))
  }

  /** The first entry, and then the rest from where the first one leaves off. */
  lemma FeesCoveredStep(x: nat, feeAccount: Address, us: seq<Withdrawal>)
    requires us != []
    ensures var back := x + Taken(us[0], (feeAccount, NATIVE));
            FeesCovered(x, feeAccount, us)
            <==> us[0].fee <= back && FeesCovered(back - us[0].fee, feeAccount, us[1..])
  {
    var native := (feeAccount, NATIVE);
    var back := x + Taken(us[0], native);
    forall n | 0 <= n < |us|
      ensures Fees(us[..n + 1]) == us[0].fee + Fees(us[1..][..n])
      ensures TakenBy(us[..n + 1], native) == Taken(us[0], native) + TakenBy(us[1..][..n], native)
    {
      assert us[..n + 1][1..] == us[1..][..n];
    }
    if FeesCovered(x, feeAccount, us) {
      assert us[1..][..0] == [];
      assert Fees(us[..0 + 1]) <= x + TakenBy(us[..0 + 1], native);
      forall n | 0 <= n <= |us[1..]|
        ensures Fees(us[1..][..n]) <= back - us[0].fee + TakenBy(us[1..][..n], native)
      {
        assert Fees(us[..n + 1]) <= x + TakenBy(us[..n + 1], native);
      }
    }
    if us[0].fee <= back && FeesCovered(back - us[0].fee, feeAccount, us[1..]) {
      forall n | 0 <= n <= |us|
        ensures Fees(us[..n]) <= x + TakenBy(us[..n], native)
      {
        if n > 0 {
          assert Fees(us[1..][..n - 1]) <= back - us[0].fee + TakenBy(us[1..][..n - 1], native);
        }
      }
    }
  }

  /** While no balance overflows, one undo goes through if and only if the fee
      is there, or comes back with the undo itself. */
  lemma UndoIff(c: Ledger, feeAccount: Address, w: Withdrawal)
    requires forall k: Slot :: At(c, k) + Taken(w, k) < U256
    ensures Undo(c, feeAccount, w).Some?
        <==> w.fee <= At(c, (feeAccount, NATIVE)) + Taken(w, (feeAccount, NATIVE))
  {
    assert At(c, (w.sender, w.token)) + Taken(w, (w.sender, w.token)) < U256;
    assert At(c, (w.sender, NATIVE)) + Taken(w, (w.sender, NATIVE)) < U256;
  }

  /** While no balance overflows, a rollback goes through if and only if the fees
      of every first part of it are covered. */
  lemma {:induction false} UndoAllIff(c: Ledger, feeAccount: Address, us: seq<Withdrawal>)
    requires forall k: Slot :: At(c, k) + TakenBy(us, k) < U256
    ensures UndoAll(c, feeAccount, us).Some? <==> FeesCovered(At(c, (feeAccount, NATIVE)), feeAccount, us)
    decreases |us|
  {
    if us == [] {
      assert FeesCovered(At(c, (feeAccount, NATIVE)), feeAccount, us);
    } else {
      forall k: Slot ensures At(c, k) + Taken(us[0], k) < U256 {
        assert At(c, k) + TakenBy(us, k) < U256;
      }
      UndoIff(c, feeAccount, us[0]);
      FeesCoveredStep(At(c, (feeAccount, NATIVE)), feeAccount, us);
      if Undo(c, feeAccount, us[0]).Some? {
        var c' := Undo(c, feeAccount, us[0]).value;
        OneFee(us[0]);
        forall k: Slot ensures At(c', k) + TakenBy(us[1..], k) < U256 {
          UndoSlot(c, feeAccount, us[0], k);
          assert At(c, k) + TakenBy(us, k) < U256;
        }
        UndoSlot(c, feeAccount, us[0], (feeAccount, NATIVE));
        UndoAllIff(c', feeAccount, us[1..]);
      }
    }
  }

  lemma OneFee(w: Withdrawal)
    ensures Fees([w]) == w.fee
  {
    assert Fees([w]) == w.fee + Fees([w][1..]);
  }

  /** A rollback that goes through moves each slot by exactly its amounts and fees. */
  lemma {:induction false} UndoAllSlot(c: Ledger, feeAccount: Address, us: seq<Withdrawal>, k: Slot)
    requires UndoAll(c, feeAccount, us).Some?
    ensures At(UndoAll(c, feeAccount, us).value, k) == At(c, k) + TakenBy(us, k) - FeesTo(us, feeAccount, k)
    decreases |us|
  {
    if us != [] {
      UndoSlot(c, feeAccount, us[0], k);
      OneFee(us[0]);
      UndoAllSlot(Undo(c, feeAccount, us[0]).value, feeAccount, us[1..], k);
    }
  }

  /** Taking entry `i` out takes exactly its fee and amounts out of the sums. */
  lemma SumsWithout(vs: seq<Withdrawal>, i: nat, k: Slot)
    requires i < |vs|
    ensures Fees(vs) == vs[i].fee + Fees(vs[..i] + vs[i + 1..])
    ensures TakenBy(vs, k) == Taken(vs[i], k) + TakenBy(vs[..i] + vs[i + 1..], k)
  {
    assert vs == vs[..i] + vs[i..] && vs[i..][1..] == vs[i + 1..];
    FeesSplit(vs[..i], vs[i..], k);
    FeesSplit(vs[..i], vs[i + 1..], k);
  }

  lemma BagWithout(vs: seq<Withdrawal>, i: nat)
    requires i < |vs|
    ensures multiset(vs[..i] + vs[i + 1..]) == multiset(vs) - multiset{vs[i]}
  {
    assert vs == vs[..i] + [vs[i]] + vs[i + 1..];
  }

  lemma Whereabouts(vs: seq<Withdrawal>, u: Withdrawal) returns (i: nat)
    requires u in multiset(vs)
    ensures i < |vs| && vs[i] == u
  {
    i :| 0 <= i < |vs| && vs[i] == u;
  }

  lemma FirstOfPermutation(us: seq<Withdrawal>, vs: seq<Withdrawal>) returns (i: nat)
    requires multiset(us) == multiset(vs) && us != []
    ensures i < |vs| && vs[i] == us[0] && multiset(us[1..]) == multiset(vs[..i] + vs[i + 1..])
  {
    i := Whereabouts(vs, us[0]);
    BagWithout(us, 0);
    BagWithout(vs, i);
    assert us[..0] + us[1..] == us[1..];
  }

  lemma {:induction false} SumsOfPermutation(us: seq<Withdrawal>, vs: seq<Withdrawal>, k: Slot)
    requires multiset(us) == multiset(vs)
    ensures Fees(us) == Fees(vs) && TakenBy(us, k) == TakenBy(vs, k)
  {
    if us == [] {
      assert |vs| == |multiset(vs)| == 0;
    } else {
      var i := FirstOfPermutation(us, vs);
      SumsWithout(vs, i, k);
      SumsOfPermutation(us[1..], vs[..i] + vs[i + 1..], k);
    }
  }

  /** At every point of the rollback, what the fee account withdrew in the
      entries still to be undone is covered by `x`, its balance from before the
      batch and what was added since, and by the fees of those entries. */
  predicate Undoable(x: nat, feeAccount: Address, us: seq<Withdrawal>) {
    forall n | 0 <= n <= |us| :: TakenBy(us[n..], (feeAccount, NATIVE)) <= x + Fees(us[n..])
  }

  /** The same when the fees of `us` were paid to one account and another one has
      to give them back: at every point, the fees given back by then and what that
      account withdrew in the entries still to be undone are covered by `x`, and by
      the fees of the batch if it is the one that was paid. */
  predicate Returnable(x: nat, paid: Address, feeAccount: Address, us: seq<Withdrawal>) {
    forall n | 0 <= n <= |us| ::
      Fees(us[..n]) + TakenBy(us[n..], (feeAccount, NATIVE)) <= x + FeesTo(us, paid, (feeAccount, NATIVE))
  }

  lemma PartsAddUp(us: seq<Withdrawal>, n: nat, k: Slot)
    requires n <= |us|
    ensures Fees(us[..n]) + Fees(us[n..]) == Fees(us)
    ensures TakenBy(us[..n], k) + TakenBy(us[n..], k) == TakenBy(us, k)
  {
    assert us == us[..n] + us[n..];
    FeesSplit(us[..n], us[n..], k);
  }

  lemma CoveredIffReturnable(x: nat, y: nat, paid: Address, feeAccount: Address, us: seq<Withdrawal>)
    requires y == x - TakenBy(us, (feeAccount, NATIVE)) + FeesTo(us, paid, (feeAccount, NATIVE))
    ensures FeesCovered(y, feeAccount, us) <==> Returnable(x, paid, feeAccount, us)
  {
    forall n | 0 <= n <= |us|
      ensures Fees(us[..n]) <= y + TakenBy(us[..n], (feeAccount, NATIVE))
          <==> Fees(us[..n]) + TakenBy(us[n..], (feeAccount, NATIVE)) <= x + FeesTo(us, paid, (feeAccount, NATIVE))
    {
      PartsAddUp(us, n, (feeAccount, NATIVE));
    }
  }

  lemma ReturnableBySame(x: nat, feeAccount: Address, us: seq<Withdrawal>)
    ensures Returnable(x, feeAccount, feeAccount, us) <==> Undoable(x, feeAccount, us)
  {
    forall n | 0 <= n <= |us| ensures Fees(us[..n]) + Fees(us[n..]) == Fees(us) {
      PartsAddUp(us, n, (feeAccount, NATIVE));
    }
  }

  /** The withdrawals of a batch, undone in any order whatsoever, with the fees
      given back by whoever is the fee account then: the rollback goes through if
      and only if that account can return them at every point of it.  Every slot
      then has its balance from before the batch and what was added since, plus the
      fees if it was paid them, less the fees if it gave them back. */
  lemma LaterRollbackIff(b: Ledger, c: Ledger, extra: Slot -> nat, paid: Address, feeAccount: Address,
                         ws: seq<Withdrawal>, us: seq<Withdrawal>)
    requires ChargeAll(b, paid, ws).Some?
    requires Above(c, ChargeAll(b, paid, ws).value, extra)
    requires multiset(us) == multiset(Succeeded(b, paid, ws))
    requires Roomy(b, extra, paid, us)
    ensures UndoAll(c, feeAccount, us).Some?
        <==> Returnable(At(b, (feeAccount, NATIVE)) + extra((feeAccount, NATIVE)), paid, feeAccount, us)
    ensures UndoAll(c, feeAccount, us).Some? ==> forall k: Slot ::
              At(UndoAll(c, feeAccount, us).value, k)
              == At(b, k) + extra(k) + FeesTo(us, paid, k) - FeesTo(us, feeAccount, k)
  {
    var native := (feeAccount, NATIVE);
    forall k: Slot
      ensures At(c, k) == At(b, k) - TakenBy(us, k) + FeesTo(us, paid, k) + extra(k)
      ensures At(c, k) + TakenBy(us, k) < U256
    {
      ChargeAllSlot(b, paid, ws, k);
      SumsOfPermutation(us, Succeeded(b, paid, ws), k);
      assert At(c, k) == At(ChargeAll(b, paid, ws).value, k) + extra(k);
      assert At(b, k) + extra(k) + FeesTo(us, paid, k) < U256;
    }
    UndoAllIff(c, feeAccount, us);
    CoveredIffReturnable(At(b, native) + extra(native), At(c, native), paid, feeAccount, us);
    if UndoAll(c, feeAccount, us).Some? {
      forall k: Slot
        ensures At(UndoAll(c, feeAccount, us).value, k)
             == At(b, k) + extra(k) + FeesTo(us, paid, k) - FeesTo(us, feeAccount, k)
      {
        UndoAllSlot(c, feeAccount, us, k);
      }
    }
  }

  /** With one fee account throughout, a rollback in any order goes through if and
      only if the fee account's own withdrawals are covered at every point of it, and
      then it gives every slot its balance from before the batch plus what was added
      since. */
  lemma RollbackIff(b: Ledger, c: Ledger, extra: Slot -> nat, feeAccount: Address, ws: seq<Withdrawal>,
                    us: seq<Withdrawal>)
    requires ChargeAll(b, feeAccount, ws).Some?
    requires Above(c, ChargeAll(b, feeAccount, ws).value, extra)
    requires multiset(us) == multiset(Succeeded(b, feeAccount, ws))
    requires Roomy(b, extra, feeAccount, us)
    ensures UndoAll(c, feeAccount, us).Some?
        <==> Undoable(At(b, (feeAccount, NATIVE)) + extra((feeAccount, NATIVE)), feeAccount, us)
    ensures UndoAll(c, feeAccount, us).Some? ==> Above(UndoAll(c, feeAccount, us).value, b, extra)
  {
    LaterRollbackIff(b, c, extra, feeAccount, feeAccount, ws, us);
    ReturnableBySame(At(b, (feeAccount, NATIVE)) + extra((feeAccount, NATIVE)), feeAccount, us);
  }

  /** So when the fee account withdrew nothing in the batch, any order will do,
      the batch's own order included. */
  lemma AnyOrderRollback(b: Ledger, c: Ledger, extra: Slot -> nat, feeAccount: Address, ws: seq<Withdrawal>,
                         us: seq<Withdrawal>)
    requires ChargeAll(b, feeAccount, ws).Some?
    requires Above(c, ChargeAll(b, feeAccount, ws).value, extra)
    requires multiset(us) == multiset(Succeeded(b, feeAccount, ws))
    requires forall u | u in us :: u.sender != feeAccount
    requires Roomy(b, extra, feeAccount, us)
    ensures UndoAll(c, feeAccount, us).Some? && Above(UndoAll(c, feeAccount, us).value, b, extra)
  {
    forall n | 0 <= n <= |us| ensures TakenBy(us[n..], (feeAccount, NATIVE)) == 0 {
      assert forall u | u in us[n..] :: u in us;
      NotTakenFromFeeAccount(us[n..], feeAccount);
    }
    RollbackIff(b, c, extra, feeAccount, ws, us);
  }

  lemma {:induction false} ReverseIsPermutation(ws: seq<Withdrawal>)
    ensures multiset(Reverse(ws)) == multiset(ws)
  {
    if ws != [] {
      ReverseIsPermutation(ws[1..]);
      assert ws == [ws[0]] + ws[1..];
    }
  }

  /** The end of a list in reverse is the start of the list in reverse. */
  lemma {:induction false} ReverseEnd(ws: seq<Withdrawal>, n: nat)
    requires n <= |ws|
    ensures |Reverse(ws)| == |ws| && Reverse(ws)[n..] == Reverse(ws[..|ws| - n])
  {
    if ws != [] {
      if n == |ws| {
        ReverseEnd(ws[1..], n - 1);
        assert ws[..|ws| - n] == [];
      } else {
        ReverseEnd(ws[1..], n);
        assert ws[..|ws| - n][1..] == ws[1..][..|ws[1..]| - n];
      }
    }
  }

  /** Each withdrawal was covered when it was made, so what the first ones took
      from a slot was there, or came in as their fees. */
  lemma {:induction false} FirstOnesCovered(b: Ledger, feeAccount: Address, ws: seq<Withdrawal>, m: nat)
    requires ChargeAll(b, feeAccount, ws).Some? && m <= |Succeeded(b, feeAccount, ws)|
    ensures var first := Succeeded(b, feeAccount, ws)[..m];
            TakenBy(first, (feeAccount, NATIVE)) <= At(b, (feeAccount, NATIVE)) + Fees(first)
    decreases |ws|
  {
    if ws != [] && m > 0 {
      var w, b' := ws[0], Charge(b, feeAccount, ws[0]).value;
      var done, rest := Succeeded(b, feeAccount, ws), Succeeded(b', feeAccount, ws[1..]);
      if Covered(b, w) {
        assert done == [w] + rest && done[..m][1..] == rest[..m - 1];
        ChargeSlot(b, feeAccount, w, (feeAccount, NATIVE));
        OneFee(w);
        FirstOnesCovered(b', feeAccount, ws[1..], m - 1);
      } else {
        assert done == rest && b' == b;
        FirstOnesCovered(b', feeAccount, ws[1..], m);
      }
    }
  }

  lemma ReverseUndoable(b: Ledger, feeAccount: Address, ws: seq<Withdrawal>, x: nat)
    requires ChargeAll(b, feeAccount, ws).Some? && At(b, (feeAccount, NATIVE)) <= x
    ensures Undoable(x, feeAccount, Reverse(Succeeded(b, feeAccount, ws)))
  {
    var done, native := Succeeded(b, feeAccount, ws), (feeAccount, NATIVE);
    ReverseEnd(done, 0);
    forall n | 0 <= n <= |Reverse(done)|
      ensures TakenBy(Reverse(done)[n..], native) <= x + Fees(Reverse(done)[n..])
    {
      var first := done[..|done| - n];
      ReverseEnd(done, n);
      ReverseIsPermutation(first);
      SumsOfPermutation(Reverse(first), first, native);
      FirstOnesCovered(b, feeAccount, ws, |done| - n);
    }
  }

  /** And last first, it always goes through. */
  lemma ReverseRollback(b: Ledger, c: Ledger, extra: Slot -> nat, feeAccount: Address, ws: seq<Withdrawal>)
    requires ChargeAll(b, feeAccount, ws).Some?
    requires Above(c, ChargeAll(b, feeAccount, ws).value, extra)
    requires Roomy(b, extra, feeAccount, Succeeded(b, feeAccount, ws))
    ensures var undone := UndoAll(c, feeAccount, Reverse(Succeeded(b, feeAccount, ws)));
            undone.Some? && Above(undone.value, b, extra)
  {
    var done, native := Succeeded(b, feeAccount, ws), (feeAccount, NATIVE);
    ReverseIsPermutation(done);
    forall k: Slot ensures At(b, k) + extra(k) + FeesTo(Reverse(done), feeAccount, k) < U256 {
      SumsOfPermutation(Reverse(done), done, k);
      assert At(b, k) + extra(k) + FeesTo(done, feeAccount, k) < U256;
    }
    ReverseUndoable(b, feeAccount, ws, At(b, native) + extra(native));
    RollbackIff(b, c, extra, feeAccount, ws, Reverse(done));
  }

  lemma {:induction false} NotTakenFromFeeAccount(us: seq<Withdrawal>, feeAccount: Address)
    requires forall u | u in us :: u.sender != feeAccount
    ensures TakenBy(us, (feeAccount, NATIVE)) == 0
  {
    if us != [] {
      assert us[0] in us;
      NotTakenFromFeeAccount(us[1..], feeAccount);
    }
  }

  // ---------------------------------------------------------------------------
  // Rollback over runs of the contract
  // ---------------------------------------------------------------------------

  /** A batch transaction that goes through. */
  predicate SubmitsMoney(abi: Abi, s: State, tx: Tx) {
    tx.call.SubmitDepositAndWithdrawalBatch? && Perform(abi, s, tx).Some?
  }

  function MoneyOf(abi: Abi, tx: Tx): MoneyBatch
    requires tx.call.SubmitDepositAndWithdrawalBatch?
  {
    match abi.money(tx.call.data) case Some(m) => m case None => MoneyBatch([], [])
  }

  /** The balances after the deposits of a batch, on which its withdrawals act. */
  function WithDeposits(abi: Abi, s: State, tx: Tx): Ledger
    requires SubmitsMoney(abi, s, tx)
  {
    CreditAll(s.balances, MoneyOf(abi, tx).deposits).value
  }

  /** The withdrawals that a batch transaction reports as succeeded. */
  function Withdrawn(abi: Abi, s: State, tx: Tx): seq<Withdrawal>
    requires SubmitsMoney(abi, s, tx)
  {
    Succeeded(WithDeposits(abi, s, tx), s.feeAccount, MoneyOf(abi, tx).withdrawals)
  }

  /** A transaction that moves no money but by deposits. */
  predicate OnlyDeposits(abi: Abi, tx: Tx) {
    match tx.call
    case SubmitDepositAndWithdrawalBatch(data) => MoneyOf(abi, tx).withdrawals == []
    case PrepareSettlementBatch(_) => true
    case RollbackBatch => true
    case SetSubmitter(_) => true
    case SetFeeAccount(_) => true
    case _ => false
  }

  /** What one transaction deposits into a slot: nothing if it reverts. */
  function DepositedBy(abi: Abi, s: State, tx: Tx, k: Slot): nat {
    if SubmitsMoney(abi, s, tx) then Deposited(MoneyOf(abi, tx).deposits, k) else 0
  }

  function RunDeposits(abi: Abi, s: State, txs: seq<Tx>, k: Slot): nat {
    if txs == [] then 0 else
    var front := txs[..|txs| - 1];
    RunDeposits(abi, s, front, k) + DepositedBy(abi, Run(abi, s, front), txs[|txs| - 1], k)
  }

  lemma DepositStep(abi: Abi, s: State, tx: Tx, k: Slot)
    requires OnlyDeposits(abi, tx)
    ensures At(Step(abi, s, tx).balances, k) == At(s.balances, k) + DepositedBy(abi, s, tx, k)
  {
    if SubmitsMoney(abi, s, tx) {
      CreditAllSlot(s.balances, MoneyOf(abi, tx).deposits, k);
    }
  }

  lemma {:induction false} DepositRun(abi: Abi, s: State, txs: seq<Tx>, k: Slot)
    requires forall tx | tx in txs :: OnlyDeposits(abi, tx)
    ensures At(Run(abi, s, txs).balances, k) == At(s.balances, k) + RunDeposits(abi, s, txs, k)
  {
    if txs != [] {
      var front, last := txs[..|txs| - 1], txs[|txs| - 1];
      assert last in txs && forall tx | tx in front :: tx in txs;
      DepositRun(abi, s, front, k);
      DepositStep(abi, Run(abi, s, front), last, k);
    }
  }

  /** Every balance has room for all deposits of the run and the fees of the batch. */
  ghost predicate RunRoomy(abi: Abi, s: State, batch: Tx, txs: seq<Tx>) {
    SubmitsMoney(abi, s, batch)
    && forall k: Slot ::
         At(s.balances, k) + DepositedBy(abi, s, batch, k) + RunDeposits(abi, Step(abi, s, batch), txs, k)
         + FeesTo(Withdrawn(abi, s, batch), s.feeAccount, k) < U256
  }

  /** The balances that a rollback meets are those that the withdrawals left, with
      the deposits since on top. */
  lemma BeforeRollback(abi: Abi, s: State, batch: Tx, txs: seq<Tx>, extra: Slot -> nat)
    requires RunRoomy(abi, s, batch, txs) && forall tx | tx in txs :: OnlyDeposits(abi, tx)
    requires forall k: Slot :: extra(k) == RunDeposits(abi, Step(abi, s, batch), txs, k)
    ensures var b := WithDeposits(abi, s, batch); var ws := MoneyOf(abi, batch).withdrawals;
            && ChargeAll(b, s.feeAccount, ws).Some?
            && Above(Run(abi, Step(abi, s, batch), txs).balances, ChargeAll(b, s.feeAccount, ws).value, extra)
            && Roomy(b, extra, s.feeAccount, Withdrawn(abi, s, batch))
    ensures forall k: Slot :: At(WithDeposits(abi, s, batch), k) == At(s.balances, k) + DepositedBy(abi, s, batch, k)
  {
    var s1 := Step(abi, s, batch);
    forall k: Slot
      ensures At(Run(abi, s1, txs).balances, k) == At(s1.balances, k) + extra(k)
      ensures At(WithDeposits(abi, s, batch), k) == At(s.balances, k) + DepositedBy(abi, s, batch, k)
      ensures At(WithDeposits(abi, s, batch), k) + extra(k) + FeesTo(Withdrawn(abi, s, batch), s.feeAccount, k) < U256
    {
      DepositRun(abi, s1, txs, k);
      CreditAllSlot(s.balances, MoneyOf(abi, batch).deposits, k);
      assert At(s.balances, k) + DepositedBy(abi, s, batch, k) + RunDeposits(abi, s1, txs, k)
             + FeesTo(Withdrawn(abi, s, batch), s.feeAccount, k) < U256;
    }
  }

  /** A rollback transaction whose data lists the withdrawals of the batch. */
  predicate RollsBack(abi: Abi, s: State, batch: Tx, rollback: Tx)
    requires SubmitsMoney(abi, s, batch)
  {
    && rollback.call.RollbackWithdrawalBatch? && abi.rollback(rollback.call.data).Some?
    && multiset(abi.rollback(rollback.call.data).value) == multiset(Withdrawn(abi, s, batch))
  }

  /** A balance from before the batch, with all deposits on top. */
  function WithAllDeposits(abi: Abi, s: State, batch: Tx, txs: seq<Tx>, k: Slot): nat {
    At(s.balances, k) + DepositedBy(abi, s, batch, k) + RunDeposits(abi, Step(abi, s, batch), txs, k)
  }

  /** Every balance is the one from before the batch, with all deposits on top. */
  ghost predicate Restored(abi: Abi, s: State, batch: Tx, txs: seq<Tx>, after: State) {
    forall k: Slot :: At(after.balances, k) == WithAllDeposits(abi, s, batch, txs, k)
  }

  /** Rollback over runs: a batch with deposits and withdrawals, then any
      transactions that at most deposit or change the fee account, then a rollback
      that lists the batch's withdrawals in any order.  It goes through if and only
      if the fee account by then can return the fees at every point of it. */
  lemma RunRollbackIff(abi: Abi, s: State, batch: Tx, txs: seq<Tx>, rollback: Tx)
    requires RunRoomy(abi, s, batch, txs) && forall tx | tx in txs :: OnlyDeposits(abi, tx)
    requires RollsBack(abi, s, batch, rollback)
    requires rollback.sender == Run(abi, Step(abi, s, batch), txs).submitter
    ensures var w := Run(abi, Step(abi, s, batch), txs);
            Perform(abi, w, rollback).Some?
            <==> Returnable(WithAllDeposits(abi, s, batch, txs, (w.feeAccount, NATIVE)), s.feeAccount, w.feeAccount,
                            abi.rollback(rollback.call.data).value)
  {
    var us := abi.rollback(rollback.call.data).value;
    var b, w := WithDeposits(abi, s, batch), Run(abi, Step(abi, s, batch), txs);
    var extra := (k: Slot) => RunDeposits(abi, Step(abi, s, batch), txs, k);
    BeforeRollback(abi, s, batch, txs, extra);
    forall k: Slot ensures At(b, k) + extra(k) + FeesTo(us, s.feeAccount, k) < U256 {
      SumsOfPermutation(us, Withdrawn(abi, s, batch), k);
      assert At(b, k) + extra(k) + FeesTo(Withdrawn(abi, s, batch), s.feeAccount, k) < U256;
    }
    LaterRollbackIff(b, w.balances, extra, s.feeAccount, w.feeAccount, MoneyOf(abi, batch).withdrawals, us);
    var native := (w.feeAccount, NATIVE);
    assert At(b, native) == At(s.balances, native) + DepositedBy(abi, s, batch, native);
  }

  /** What a rollback that goes through leaves in a slot, whoever the fee account
      is by then. */
  lemma RunRollbackSlot(abi: Abi, s: State, batch: Tx, txs: seq<Tx>, rollback: Tx, k: Slot)
    requires SubmitsMoney(abi, s, batch) && forall tx | tx in txs :: OnlyDeposits(abi, tx)
    requires RollsBack(abi, s, batch, rollback) && Perform(abi, Run(abi, Step(abi, s, batch), txs), rollback).Some?
    ensures var w := Run(abi, Step(abi, s, batch), txs); var done := Withdrawn(abi, s, batch);
            At(Step(abi, w, rollback).balances, k)
            == WithAllDeposits(abi, s, batch, txs, k) + FeesTo(done, s.feeAccount, k) - FeesTo(done, w.feeAccount, k)
  {
    var us := abi.rollback(rollback.call.data).value;
    var w := Run(abi, Step(abi, s, batch), txs);
    CreditAllSlot(s.balances, MoneyOf(abi, batch).deposits, k);
    ChargeAllSlot(WithDeposits(abi, s, batch), s.feeAccount, MoneyOf(abi, batch).withdrawals, k);
    DepositRun(abi, Step(abi, s, batch), txs, k);
    SumsOfPermutation(us, Withdrawn(abi, s, batch), k);
    UndoAllSlot(w.balances, w.feeAccount, us, k);
  }

  /** Such a rollback gives every balance from before the batch, plus all deposits,
      if and only if the fee account by then is the one that was paid, or there were
      no fees. */
  lemma RunRestoredIff(abi: Abi, s: State, batch: Tx, txs: seq<Tx>, rollback: Tx)
    requires SubmitsMoney(abi, s, batch) && forall tx | tx in txs :: OnlyDeposits(abi, tx)
    requires RollsBack(abi, s, batch, rollback) && Perform(abi, Run(abi, Step(abi, s, batch), txs), rollback).Some?
    ensures var w := Run(abi, Step(abi, s, batch), txs);
            Restored(abi, s, batch, txs, Step(abi, w, rollback))
            <==> w.feeAccount == s.feeAccount || Fees(Withdrawn(abi, s, batch)) == 0
  {
    var w, done := Run(abi, Step(abi, s, batch), txs), Withdrawn(abi, s, batch);
    var after := Step(abi, w, rollback);
    forall k: Slot
      ensures At(after.balances, k) == WithAllDeposits(abi, s, batch, txs, k) + FeesTo(done, s.feeAccount, k)
                                       - FeesTo(done, w.feeAccount, k)
    {
      RunRollbackSlot(abi, s, batch, txs, rollback, k);
    }
    if w.feeAccount != s.feeAccount && Fees(done) != 0 {
      var paid: Slot := (s.feeAccount, NATIVE);
      assert At(after.balances, paid) != WithAllDeposits(abi, s, batch, txs, paid);
    }
  }

  /** Last first, and with the fee account that was paid, it always goes through,
      and every balance is the one from before the batch plus all deposits. */
  lemma RollbackInvertsWithdrawal(abi: Abi, s: State, batch: Tx, txs: seq<Tx>, rollback: Tx)
    requires RunRoomy(abi, s, batch, txs) && forall tx | tx in txs :: OnlyDeposits(abi, tx)
    requires rollback.call.RollbackWithdrawalBatch?
    requires abi.rollback(rollback.call.data) == Some(Reverse(Withdrawn(abi, s, batch)))
    requires rollback.sender == Run(abi, Step(abi, s, batch), txs).submitter
    requires Run(abi, Step(abi, s, batch), txs).feeAccount == s.feeAccount
    ensures var w := Run(abi, Step(abi, s, batch), txs);
            Perform(abi, w, rollback).Some? && Restored(abi, s, batch, txs, Step(abi, w, rollback))
  {
    ReverseIsPermutation(Withdrawn(abi, s, batch));
    BatchReverseUndoable(abi, s, batch, txs);
    ReturnableBySame(WithAllDeposits(abi, s, batch, txs, (s.feeAccount, NATIVE)), s.feeAccount,
                     Reverse(Withdrawn(abi, s, batch)));
    RunRollbackIff(abi, s, batch, txs, rollback);
    RunRestoredIff(abi, s, batch, txs, rollback);
  }

  lemma BatchReverseUndoable(abi: Abi, s: State, batch: Tx, txs: seq<Tx>)
    requires SubmitsMoney(abi, s, batch)
    ensures Undoable(WithAllDeposits(abi, s, batch, txs, (s.feeAccount, NATIVE)), s.feeAccount,
        Reverse(Withdrawn(abi, s, batch)))
  {
    var native := (s.feeAccount, NATIVE);
    CreditAllSlot(s.balances, MoneyOf(abi, batch).deposits, native);
    ReverseUndoable(WithDeposits(abi, s, batch), s.feeAccount, MoneyOf(abi, batch).withdrawals,
                    WithAllDeposits(abi, s, batch, txs, native));
  }

  // ---------------------------------------------------------------------------
  // Where rollback fails
  // ---------------------------------------------------------------------------

  /** A contract with one submitter that decodes every batch to `m` and every
      rollback to `us`. */
  function Decoding(m: MoneyBatch, us: seq<Withdrawal>): Abi {
    Abi(_ => None, _ => Some(m), _ => Some(us))
  }

  function Fresh(submitter: Address, feeAccount: Address, owner: Address): State {
    State(map[], submitter, feeAccount, Zero, Zero, Zero, owner)
  }

  lemma SameOrderStuck()
    ensures var ws := [Withdrawal(1, NATIVE, 10, 5), Withdrawal(2, NATIVE, 5, 0)];
            && ChargeAll(map[(1, NATIVE) := 10], 2, ws) == Some(map[(1, NATIVE) := 0, (2, NATIVE) := 0])
            && Succeeded(map[(1, NATIVE) := 10], 2, ws) == ws
            && UndoAll(map[(1, NATIVE) := 0, (2, NATIVE) := 0], 2, ws) == None
  {
    var b: Ledger := map[(1, NATIVE) := 10];
    var w1, w2 := Withdrawal(1, NATIVE, 10, 5), Withdrawal(2, NATIVE, 5, 0);
    var b1: Ledger := map[(1, NATIVE) := 0, (2, NATIVE) := 5];
    var b2: Ledger := map[(1, NATIVE) := 0, (2, NATIVE) := 0];
    assert b[(1, NATIVE) := 0][(2, NATIVE) := 5] == b1;
    assert b1[(2, NATIVE) := 0][(2, NATIVE) := 0] == b2;
    assert Charge(b, 2, w1) == Some(b1);
    assert Charge(b1, 2, w2) == Some(b2);
    assert [w1, w2][1..] == [w2] && [w2][1..] == [];
    assert ChargeAll(b1, 2, [w2]) == ChargeAll(b2, 2, []);
    assert Succeeded(b1, 2, [w2]) == [w2] + Succeeded(b2, 2, []);
    assert Undo(b2, 2, w1) == None;
  }

  lemma OneCredit(b: Ledger, d: Deposit, ds: seq<Deposit>)
    requires BalanceOf(b, d.sender, d.token) + d.amount < U256
    ensures CreditAll(b, [d] + ds)
        == CreditAll(b[(d.sender, d.token) := BalanceOf(b, d.sender, d.token) + d.amount], ds)
  {
    assert ([d] + ds)[1..] == ds;
  }

  /** A fee account that withdraws can make the same-order rollback revert: it
      spends the fee it was just paid, so the first undo cannot take it back.  Two
      transactions to a new contract: wallet 1 deposits 10 and withdraws them with
      a fee of 5, which fee account 2 withdraws; then the same list to undo. */
  lemma SameOrderCanRevert()
    ensures var ws := [Withdrawal(1, NATIVE, 10, 5), Withdrawal(2, NATIVE, 5, 0)];
            var abi := Decoding(MoneyBatch([Deposit(1, NATIVE, 10)], ws), ws);
            var s, batch, rollback :=
                Fresh(7, 2, 9), Tx(7, SubmitDepositAndWithdrawalBatch([])), Tx(7, RollbackWithdrawalBatch([]));
            && SubmitsMoney(abi, s, batch) && Withdrawn(abi, s, batch) == ws && RollsBack(abi, s, batch, rollback)
            && Perform(abi, Step(abi, s, batch), rollback) == None
  {
    SameOrderStuck();
    OneCredit(map[], Deposit(1, NATIVE, 10), []);
    assert [Deposit(1, NATIVE, 10)] + [] == [Deposit(1, NATIVE, 10)];
  }

  lemma OneChargedAndUndone()
    ensures var w := Withdrawal(1, NATIVE, 10, 5);
            var b1, b2: Ledger :=
                map[(1, NATIVE) := 10, (3, NATIVE) := 5], map[(1, NATIVE) := 0, (2, NATIVE) := 5, (3, NATIVE) := 5];
            && ChargeAll(b1, 2, [w]) == Some(b2) && Succeeded(b1, 2, [w]) == [w]
            && UndoAll(b2, 3, [w]) == Some(map[(1, NATIVE) := 10, (2, NATIVE) := 5, (3, NATIVE) := 0])
  {
    var w := Withdrawal(1, NATIVE, 10, 5);
    var b1: Ledger := map[(1, NATIVE) := 10, (3, NATIVE) := 5];
    var b2: Ledger := map[(1, NATIVE) := 0, (2, NATIVE) := 5, (3, NATIVE) := 5];
    var b3: Ledger := map[(1, NATIVE) := 10, (2, NATIVE) := 5, (3, NATIVE) := 0];
    assert [w][1..] == [];
    assert b1[(1, NATIVE) := 0][(2, NATIVE) := 5] == b2 && b2[(1, NATIVE) := 10][(3, NATIVE) := 0] == b3;
    assert Charge(b1, 2, w) == Some(b2) && Undo(b2, 3, w) == Some(b3);
    assert ChargeAll(b1, 2, [w]) == ChargeAll(b2, 2, []) && Succeeded(b1, 2, [w]) == [w] + Succeeded(b2, 2, []);
    assert UndoAll(b2, 3, [w]) == UndoAll(b3, 3, []);
  }

  lemma TwoCredits()
    ensures CreditAll(map[], [Deposit(1, NATIVE, 10), Deposit(3, NATIVE, 5)])
        == Some(map[(1, NATIVE) := 10, (3, NATIVE) := 5])
  {
    var b0: Ledger := map[(1, NATIVE) := 10];
    OneCredit(map[], Deposit(1, NATIVE, 10), [Deposit(3, NATIVE, 5)]);
    OneCredit(b0, Deposit(3, NATIVE, 5), []);
    assert [Deposit(1, NATIVE, 10)] + [Deposit(3, NATIVE, 5)] == [Deposit(1, NATIVE, 10), Deposit(3, NATIVE, 5)];
    assert [Deposit(3, NATIVE, 5)] + [] == [Deposit(3, NATIVE, 5)];
    assert b0[(3, NATIVE) := 5] == map[(1, NATIVE) := 10, (3, NATIVE) := 5];
  }

  lemma BatchGoesThrough(s: State, m: MoneyBatch, us: seq<Withdrawal>, b1: Ledger, b2: Ledger)
    requires s.batchHash == Zero && s.lastDepositAndWithdrawBatchHash == Zero && m.deposits != []
    requires CreditAll(s.balances, m.deposits) == Some(b1) && ChargeAll(b1, s.feeAccount, m.withdrawals) == Some(b2)
    ensures var batch := Tx(s.submitter, SubmitDepositAndWithdrawalBatch([])); var abi := Decoding(m, us);
            && SubmitsMoney(abi, s, batch) && Withdrawn(abi, s, batch) == Succeeded(b1, s.feeAccount, m.withdrawals)
            && Step(abi, s, batch) == s.(balances := b2, lastDepositAndWithdrawBatchHash := Keccak([]))
  {
  }

  lemma RollbackGoesThrough(s: State, m: MoneyBatch, us: seq<Withdrawal>, b: Ledger)
    requires UndoAll(s.balances, s.feeAccount, us) == Some(b)
    ensures var rollback := Tx(s.submitter, RollbackWithdrawalBatch([])); var abi := Decoding(m, us);
            Perform(abi, s, rollback).Some? && Step(abi, s, rollback).balances == b
  {
  }

  /** A new fee account pays back the fees that the old one was paid: wallet 1
      deposits 10 and withdraws them with a fee of 5, wallet 3 deposits 5 and
      becomes the fee account, and after the rollback it has nothing. */
  lemma NewFeeAccountPays()
    ensures var w := Withdrawal(1, NATIVE, 10, 5);
            var abi := Decoding(MoneyBatch([Deposit(1, NATIVE, 10), Deposit(3, NATIVE, 5)], [w]), [w]);
            var s, batch, rollback :=
                Fresh(7, 2, 9), Tx(7, SubmitDepositAndWithdrawalBatch([])), Tx(7, RollbackWithdrawalBatch([]));
            var s2 := Step(abi, Step(abi, s, batch), Tx(9, SetFeeAccount(3)));
            && SubmitsMoney(abi, s, batch) && Withdrawn(abi, s, batch) == [w] && Perform(abi, s2, rollback).Some?
            && Step(abi, s2, rollback).balances == map[(1, NATIVE) := 10, (2, NATIVE) := 5, (3, NATIVE) := 0]
  {
    var w, m := Withdrawal(1, NATIVE, 10, 5),
        MoneyBatch([Deposit(1, NATIVE, 10), Deposit(3, NATIVE, 5)], [Withdrawal(1, NATIVE, 10, 5)]);
    var b1: Ledger := map[(1, NATIVE) := 10, (3, NATIVE) := 5];
    var b2: Ledger := map[(1, NATIVE) := 0, (2, NATIVE) := 5, (3, NATIVE) := 5];
    TwoCredits();
    OneChargedAndUndone();
    BatchGoesThrough(Fresh(7, 2, 9), m, [w], b1, b2);
    var s1 := Fresh(7, 2, 9).(balances := b2, lastDepositAndWithdrawBatchHash := Keccak([]));
    assert Step(Decoding(m, [w]), s1, Tx(9, SetFeeAccount(3))) == s1.(feeAccount := 3);
    RollbackGoesThrough(s1.(feeAccount := 3), m, [w], map[(1, NATIVE) := 10, (2, NATIVE) := 5, (3, NATIVE) := 0]);
  }

  // ---------------------------------------------------------------------------
  // Exactly-once settlement
  // ---------------------------------------------------------------------------

  function SettlementEvent(abi: Abi, s: State, tx: Tx): SessionEvent<Bytes> {
    if Perform(abi, s, tx).None? then Other else
    match tx.call
    case PrepareSettlementBatch(data) => if Step(abi, s, tx).batchHash != Zero then Prepare(data) else Other
    case SubmitSettlementBatch(data) => Submit(data)
    case RollbackBatch => Clear
    case _ => Other
  }

  function SettlementEvents(abi: Abi): (State, Tx) -> SessionEvent<Bytes> {
    (s, tx) => SettlementEvent(abi, s, tx)
  }

  function PreparedBatch(): State -> Option<Bytes> {
    (s: State) => Preimage(s.batchHash)
  }

  /** The batch hash is empty or the digest of one batch. */
  function OneDigest(): State -> bool {
    (s: State) => !s.batchHash.OfHashes?
  }

  /** Exactly once: a settlement that goes through was prepared earlier with the
      same bytes, and nothing was prepared, submitted or rolled back in between. */
  lemma SettlementExactlyOnce(abi: Abi, s: State, txs: seq<Tx>, n: nat) returns (m: nat)
    requires s.batchHash == Zero
    requires n < |txs| && txs[n].call.SubmitSettlementBatch? && Perform(abi, Run(abi, s, txs[..n]), txs[n]).Some?
    ensures m < n && SettlementEvent(abi, Run(abi, s, txs[..m]), txs[m]) == Prepare(txs[n].call.data)
    ensures forall j | m < j < n :: SettlementEvent(abi, Run(abi, s, txs[..j]), txs[j]) == Other
  {
    assert Tracks(Stepper(abi), SettlementEvents(abi), PreparedBatch(), OneDigest());
    m := ExactlyOnce(Stepper(abi), SettlementEvents(abi), PreparedBatch(), OneDigest(), s, txs, n);
  }
}
