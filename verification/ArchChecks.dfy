/** What the checks of the Arch program mean: which wallets an entry may name, and
    which accounts an instruction may list. */
module ArchChecks {
  import opened Machine
  import opened Wrappers
  import opened ArchTypes
  import opened ArchLedger

  // ---------------------------------------------------------------------------
  // Wallets
  // ---------------------------------------------------------------------------

  /** The address in a slot, up to its first NUL. */
  function AddressIn(t: TokenState, i: nat): Bytes
    requires i < |t.slots|
  {
    UpToNul(t.slots[i].address)
  }

  function SlotAmount(t: TokenState, i: nat): nat {
    if i < |t.slots| then t.slots[i].amount else 0
  }

  predicate EndsIn(s: Bytes, last4: Bytes) {
    4 <= |s| && s[|s| - 4..] == last4
  }

  /** The index is assigned, and the address there ends in the four bytes given. */
  predicate Names(t: TokenState, a: AddressIndex) {
    a.index < t.count && a.index < |t.slots| && EndsIn(AddressIn(t, a.index), a.last4)
  }

  /** A wallet index is accepted if and only if it names its wallet.  It is refused as
      an index exactly when it is not assigned, and as an address exactly when the last
      four bytes differ; a shorter address is a panic. */
  lemma ValidatedIndexIff(t: TokenState, a: AddressIndex)
    ensures ValidatedIndex(t, a).Ok? <==> Names(t, a)
    ensures ValidatedIndex(t, a).Ok? ==> ValidatedIndex(t, a).value == a.index
    ensures ValidatedIndex(t, a) == Err(Custom(601)) <==> a.index >= t.count
    ensures t.count <= |t.slots| ==>
              (ValidatedIndex(t, a) == Err(Custom(615))
               <==> && a.index < t.count && 4 <= |AddressIn(t, a.index)|
                    && AddressIn(t, a.index)[|AddressIn(t, a.index)| - 4..] != a.last4)
    ensures t.count <= |t.slots| ==>
              (ValidatedIndex(t, a) == Err(Panic) <==> a.index < t.count && |AddressIn(t, a.index)| < 4)
  {
  }

  /** A rune token that still waits for its id has block 0. */
  predicate AwaitsId(env: Env, t: TokenState) {
    var rune := env.rune(UpToNul(t.tokenId));
    rune.Some? && rune.value.block == 0
  }

  /** A wallet that a withdrawal may name: assigned, matching, an address of the
      network, in a token that does not wait for its id. */
  predicate Usable(env: Env, t: TokenState, a: AddressIndex, network: Network) {
    && Names(t, a) && env.parses(AddressIn(t, a.index)) && env.onNetwork(AddressIn(t, a.index), network)
    && !AwaitsId(env, t)
  }

  /** The code of the first of these that fails, for an index inside the data that
      holds at least four characters. */
  function Problem(env: Env, t: TokenState, a: AddressIndex, network: Network): Option<nat> {
    if a.index >= t.count || a.index >= |t.slots| then Some(601)
    else if !EndsIn(AddressIn(t, a.index), a.last4) then Some(615)
    else if !env.parses(AddressIn(t, a.index)) then Some(612)
    else if !env.onNetwork(AddressIn(t, a.index), network) then Some(616)
    else if AwaitsId(env, t) then Some(623)
    else None
  }

  lemma UsableIff(env: Env, t: TokenState, a: AddressIndex, network: Network)
    ensures var r := ValidatedWithdrawIndex(env, t, a, network);
            && (r.Ok? <==> Usable(env, t, a, network))
            && (r.Ok? ==> r.value == a.index)
            && (r.Err? && r.error.Custom? ==> Problem(env, t, a, network) == Some(r.error.code))
            && (r.Ok? <==> Problem(env, t, a, network) == None)
            && (r.Err? && !r.error.Custom? ==>
                  r.error == Panic && a.index < t.count
                  && (a.index < |t.slots| ==> |AddressIn(t, a.index)| < 4))
  {
    ValidatedIndexIff(t, a);
  }

  // ---------------------------------------------------------------------------
  // Adjustments
  // ---------------------------------------------------------------------------

  /** The same binding, count and addresses. */
  predicate SameNames(t: TokenState, t': TokenState) {
    && t'.program == t.program && t'.count == t.count && |t'.slots| == |t.slots|
    && forall i | 0 <= i < |t.slots| :: t'.slots[i].address == t.slots[i].address
  }

  lemma NamesKept(t: TokenState, t': TokenState, a: AddressIndex)
    requires SameNames(t, t')
    ensures Names(t', a) <==> Names(t, a)
  {
  }

  /** Credits go through if and only if each names its wallet. */
  lemma {:induction false} CreditsIff(t: TokenState, adjs: seq<Adjustment>)
    ensures Adjust(t, adjs, true).Ok? <==> forall a | a in adjs :: Names(t, a.address)
    decreases |adjs|
  {
    if adjs != [] {
      var r := AdjustOne(t, adjs[0], true);
      assert r.Ok? <==> Names(t, adjs[0].address);
      assert forall a | a in adjs :: a == adjs[0] || a in adjs[1..];
      if r.Ok? {
        forall a: AddressIndex ensures Names(r.value, a) <==> Names(t, a) {
          NamesKept(t, r.value, a);
        }
        CreditsIff(r.value, adjs[1..]);
      }
    }
  }

  /** Whatever is adjusted was named by its address. */
  lemma {:induction false} AdjustedNames(t: TokenState, adjs: seq<Adjustment>, increment: bool)
    requires Adjust(t, adjs, increment).Ok?
    ensures forall a | a in adjs :: Names(t, a.address)
    ensures forall a: AddressIndex :: Names(Adjust(t, adjs, increment).value, a) <==> Names(t, a)
    decreases |adjs|
  {
    if adjs != [] {
      var t1 := AdjustOne(t, adjs[0], increment).value;
      forall a: AddressIndex ensures Names(t1, a) <==> Names(t, a) {
        NamesKept(t, t1, a);
      }
      AdjustedNames(t1, adjs[1..], increment);
      assert forall a | a in adjs :: a == adjs[0] || a in adjs[1..];
    }
  }

  /** A deposit batch goes through if and only if the first account is a program account
      that signs, and every token and every wallet in it is named as it should be. */
  lemma DepositIff(w: World, metas: seq<Meta>, ds: seq<TokenDeposits>)
    ensures DepositBatch(w, metas, ds).Ok?
        <==> && ExpectProgram(w, metas, false, None).Ok?
             && forall x | x in ds ::
                  && ExpectToken(w, metas, x.account, true).Ok?
                  && forall a | a in x.deposits :: Names(ExpectToken(w, metas, x.account, true).value, a.address)
  {
    if ExpectProgram(w, metas, false, None).Ok? {
      DepositAllIff(w, metas, ds);
    }
  }

  lemma {:induction false} AdjustSameNames(t: TokenState, adjs: seq<Adjustment>, increment: bool)
    requires Adjust(t, adjs, increment).Ok?
    ensures SameNames(t, Adjust(t, adjs, increment).value)
    decreases |adjs|
  {
    if adjs != [] {
      AdjustSameNames(AdjustOne(t, adjs[0], increment).value, adjs[1..], increment);
    }
  }

  lemma ExpectTokenKept(w: World, metas: seq<Meta>, k: Key, t': TokenState, index: nat, writable: bool)
    requires At(w, k).Token? && SameNames(At(w, k).t, t')
    ensures var r, r' := ExpectToken(w, metas, index, writable), ExpectToken(w[k := Token(t')], metas, index, writable);
            && (r'.Ok? <==> r.Ok?)
            && (r.Ok? ==> forall a: AddressIndex :: Names(r'.value, a) <==> Names(r.value, a))
  {
    var r, r' := ExpectToken(w, metas, index, writable), ExpectToken(w[k := Token(t')], metas, index, writable);
    if r.Ok? && r'.Ok? {
      forall a: AddressIndex ensures Names(r'.value, a) <==> Names(r.value, a) {
        NamesKept(r.value, r'.value, a);
      }
    }
  }

  lemma {:induction false} DepositAllIff(w: World, metas: seq<Meta>, ds: seq<TokenDeposits>)
    ensures DepositAll(w, metas, ds).Ok?
        <==> forall x | x in ds ::
               && ExpectToken(w, metas, x.account, true).Ok?
               && forall a | a in x.deposits :: Names(ExpectToken(w, metas, x.account, true).value, a.address)
    decreases |ds|
  {
    if ds != [] {
      assert forall x | x in ds :: x == ds[0] || x in ds[1..];
      var r := ExpectToken(w, metas, ds[0].account, true);
      if r.Ok? {
        CreditsIff(r.value, ds[0].deposits);
        var t' := Adjust(r.value, ds[0].deposits, true);
        if t'.Ok? {
          AdjustSameNames(r.value, ds[0].deposits, true);
          var k := metas[ds[0].account].key;
          forall x | x in ds[1..]
            ensures ExpectToken(w[k := Token(t'.value)], metas, x.account, true).Ok?
                <==> ExpectToken(w, metas, x.account, true).Ok?
            ensures ExpectToken(w, metas, x.account, true).Ok? ==>
                      forall a: AddressIndex ::
                        Names(ExpectToken(w[k := Token(t'.value)], metas, x.account, true).value, a)
                        <==> Names(ExpectToken(w, metas, x.account, true).value, a)
          {
            ExpectTokenKept(w, metas, k, t'.value, x.account, true);
          }
          DepositAllIff(w[k := Token(t'.value)], metas, ds[1..]);
        }
      }
    }
  }

  /** A settlement batch that is submitted names only wallets whose addresses end as it
      says. */
  lemma {:induction false} SettledNames(w: World, metas: seq<Meta>, ss: seq<Settlement>)
    requires SettleAll(w, metas, ss).Ok?
    ensures forall x | x in ss ::
              && ExpectToken(w, metas, x.account, true).Ok?
              && forall a | a in x.increments + x.decrements ::
                   Names(ExpectToken(w, metas, x.account, true).value, a.address)
    decreases |ss|
  {
    if ss != [] {
      var t, k := ExpectToken(w, metas, ss[0].account, true).value, metas[ss[0].account].key;
      var t' := SettleToken(t, ss[0]).value;
      SettleTokenNames(t, ss[0]);
      SettledNames(w[k := Token(t')], metas, ss[1..]);
      forall x | x in ss[1..]
        ensures ExpectToken(w, metas, x.account, true).Ok?
        ensures forall a | a in x.increments + x.decrements ::
                  Names(ExpectToken(w, metas, x.account, true).value, a.address)
      {
        ExpectTokenKept(w, metas, k, t', x.account, true);
      }
      assert forall x | x in ss :: x == ss[0] || x in ss[1..];
    }
  }

  lemma SettleTokenNames(t: TokenState, s: Settlement)
    requires SettleToken(t, s).Ok?
    ensures forall a | a in s.increments + s.decrements :: Names(t, a.address)
    ensures SameNames(t, SettleToken(t, s).value)
  {
    var t1 := CreditFee(t, s.feeAmount).value;
    if s.feeAmount > 0 {
      var fee := [Adjustment(AddressIndex(0, Last4(t.slots[0].address).value), s.feeAmount)];
      AdjustSameNames(t, fee, true);
    }
    var t2 := Adjust(t1, s.increments, true).value;
    AdjustedNames(t1, s.increments, true);
    AdjustSameNames(t1, s.increments, true);
    AdjustedNames(t2, s.decrements, false);
    AdjustSameNames(t2, s.decrements, false);
    forall a: AddressIndex ensures (Names(t1, a) <==> Names(t, a)) && (Names(t2, a) <==> Names(t, a)) {
      NamesKept(t, t1, a);
      NamesKept(t1, t2, a);
    }
  }

  // ---------------------------------------------------------------------------
  // Accounts
  // ---------------------------------------------------------------------------

  /** The flags of a listed account are as expected. */
  predicate FlagsAre(metas: seq<Meta>, index: nat, signer: bool, writable: bool) {
    index < |metas| && metas[index].signer == signer && metas[index].writable == writable
  }

  /** The outcome of an account check, by what fails first. */
  lemma ExpectIff(w: World, metas: seq<Meta>, index: nat, signer: bool, writable: bool, kind: Kind,
                  related: Option<nat>)
    ensures var r := Expect(w, metas, index, signer, writable, kind, related);
            var flags, a := FlagsAre(metas, index, signer, writable), if index < |metas| then At(w, metas[index].key)
                else Empty;
            && (r == Err(Custom(602)) <==> index >= |metas|)
            && (r == Err(Custom(613)) <==> index < |metas| && !flags)
            && (r == Err(Custom(621)) <==> flags && !a.Empty? && !IsKind(a, kind))
            && (r == Err(Custom(610)) <==> flags && IsKind(a, kind) && related.Some? && related.value < |metas|
                                           && RelatedKey(a) != metas[related.value].key)
            && (r == Err(Panic)
                <==> flags && (a.Empty? || (IsKind(a, kind) && related.Some? && related.value >= |metas|)))
            && (r.Ok? <==> flags && IsKind(a, kind)
                           && (related.Some? ==> related.value < |metas| && RelatedKey(a) == metas[related.value].key))
            && (r.Ok? ==> r.value == a)
  {
  }

  lemma ExpectEmptyIff(w: World, metas: seq<Meta>, index: nat, signer: bool, writable: bool)
    ensures var r := ExpectEmpty(w, metas, index, signer, writable);
            && (r == Err(Custom(602)) <==> index >= |metas|)
            && (r == Err(Custom(613)) <==> index < |metas| && !FlagsAre(metas, index, signer, writable))
            && (r == Err(Custom(609)) <==> FlagsAre(metas, index, signer, writable) && !At(w, metas[index].key).Empty?)
            && (r.Ok? <==> FlagsAre(metas, index, signer, writable) && At(w, metas[index].key).Empty?)
  {
  }
}
