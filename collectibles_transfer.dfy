/**
 * The mint, burn, transfer and batch-transfer engine of the collectibles
 * contract (tycoon-collectibles/src/transfer.rs).
 *
 * Each operation is given twice: a function (`TransferStep`, ...) that says
 * what the operation leaves in storage and what it returns, and a method
 * (`SafeTransfer`, ...) that performs the same reads and writes in the same
 * order as the source and is proved equal to the function. What a failed
 * invocation wrote is discarded by the host, not by these operations; the
 * lemmas below show that even those partial writes keep the ledger consistent.
 */
module Transfer {
  import opened Wrappers
  import opened Ints
  import opened MapSum
  import opened CollectiblesStorage
  import opened Enumeration
  import opened CollectibleErrors

  /** What an engine call leaves in storage, and what it returns. */
  datatype Step = Step(ledger: Ledger, outcome: Outcome<Fault>)

  /**
   * The ledger invariant: no zero balance or empty list is stored, and for
   * every owner the list of held ids is duplicate-free and holds exactly the
   * ids of which the owner has a positive balance.
   */
  ghost predicate Consistent(l: Ledger) {
    && NoZeroBalance(l.balances)
    && NoEmptyList(l.owned)
    && ListsNoDup(l.owned)
    && ListsMatch(l)
  }

  ghost predicate ListsNoDup(m: map<Address, seq<TokenId>>) {
    forall o :: NoDup(Tokens(m, o))
  }

  /** An owner's list holds an id iff the owner's balance of it is positive. */
  ghost predicate ListsMatch(l: Ledger) {
    forall o: Address, t: TokenId :: t in Tokens(l.owned, o) <==> Bal(l.balances, o, t) > 0
  }

  /** The empty ledger of a freshly deployed contract is consistent. */
  lemma EmptyConsistent()
    ensures Consistent(Ledger(map[], map[]))
  {
    var l := Ledger(map[], map[]);
    forall o ensures NoDup(Tokens(l.owned, o)) {
      assert Tokens(l.owned, o) == [];
    }
  }

  /**
   * The sender side: the balance drops by `amount` and, when it reaches 0,
   * the id is filtered out of the sender's list.
   */
  function Debit(l: Ledger, from: Address, id: TokenId, amount: u64): (r: Ledger)
    requires amount <= Bal(l.balances, from, id)
  {
    var nb := Bal(l.balances, from, id) - amount;
    Ledger(SetBal(l.balances, from, id, nb), if nb == 0 then RemoveOwned(l.owned, from, id) else l.owned)
  }

  /**
   * The receiver side: the balance grows by `amount` (an unchecked `u64` add,
   * which panics before any write when it does not fit) and, when it was 0,
   * the id is added to the receiver's list.
   */
  function Credit(l: Ledger, to: Address, id: TokenId, amount: u64): (r: Step)
    ensures r.outcome.Fail? <==> Bal(l.balances, to, id) + amount > U64_MAX
    ensures r.outcome.Fail? ==> r == Step(l, Fail(Panic(AddOverflow)))
  {
    var b := Bal(l.balances, to, id);
    if b + amount > U64_MAX then Step(l, Fail(Panic(AddOverflow)))
    else Step(Ledger(SetBal(l.balances, to, id, b + amount),
                     if b == 0 then AddOwned(l.owned, to, id) else l.owned), Pass)
  }

  /**
   * `_safe_transfer`: zero amounts and overdrafts are rejected before any
   * write. A receiver overflow panics after the sender was debited, so the
   * storage then holds the debited ledger.
   */
  function TransferStep(l: Ledger, from: Address, to: Address, id: TokenId, amount: u64): (r: Step)
    ensures amount == 0 ==> r == Step(l, Fail(Error(InvalidAmount)))
    ensures amount > 0 && Bal(l.balances, from, id) < amount ==> r == Step(l, Fail(Error(InsufficientBalance)))
    ensures r.outcome.Pass? <==>
      amount > 0 && amount <= Bal(l.balances, from, id) &&
      Bal(Debit(l, from, id, amount).balances, to, id) + amount <= U64_MAX
  {
    if amount == 0 then Step(l, Fail(Error(InvalidAmount)))
    else if Bal(l.balances, from, id) < amount then Step(l, Fail(Error(InsufficientBalance)))
    else
      Credit(Debit(l, from, id, amount), to, id, amount)
  }

  /** `_safe_mint`: zero amounts are rejected; the overflow check writes nothing. */
  function MintStep(l: Ledger, to: Address, id: TokenId, amount: u64): (r: Step)
    ensures amount == 0 ==> r == Step(l, Fail(Error(InvalidAmount)))
    ensures r.outcome.Fail? ==> r.ledger == l
    ensures r.outcome.Pass? <==> amount > 0 && Bal(l.balances, to, id) + amount <= U64_MAX
  {
    if amount == 0 then Step(l, Fail(Error(InvalidAmount)))
    else Credit(l, to, id, amount)
  }

  /** `_safe_burn`: zero amounts and overdrafts are rejected before any write. */
  function BurnStep(l: Ledger, from: Address, id: TokenId, amount: u64): (r: Step)
    ensures amount == 0 ==> r == Step(l, Fail(Error(InvalidAmount)))
    ensures amount > 0 && Bal(l.balances, from, id) < amount ==> r == Step(l, Fail(Error(InsufficientBalance)))
    ensures r.outcome.Pass? <==> 0 < amount <= Bal(l.balances, from, id)
  {
    if amount == 0 then Step(l, Fail(Error(InvalidAmount)))
    else if Bal(l.balances, from, id) < amount then Step(l, Fail(Error(InsufficientBalance)))
    else Step(Debit(l, from, id, amount), Pass)
  }

  /**
   * The loop of `_safe_batch_transfer` from index `i` on: transfers are
   * applied in order and the first failure is returned with the earlier
   * transfers left in place.
   */
  function BatchFrom(l: Ledger, from: Address, to: Address, ids: seq<TokenId>, amounts: seq<u64>, i: nat): Step
    requires |ids| == |amounts| && i <= |ids|
    decreases |ids| - i
  {
    if i == |ids| then Step(l, Pass)
    else
      var st := TransferStep(l, from, to, ids[i], amounts[i]);
      if st.outcome.Fail? then st else BatchFrom(st.ledger, from, to, ids, amounts, i + 1)
  }

  /** `_safe_batch_transfer`: vectors of different lengths are rejected first. */
  function BatchStep(l: Ledger, from: Address, to: Address, ids: seq<TokenId>, amounts: seq<u64>): (r: Step)
    ensures |ids| != |amounts| ==> r == Step(l, Fail(Error(TokenIdMismatch)))
  {
    if |ids| != |amounts| then Step(l, Fail(Error(TokenIdMismatch)))
    else BatchFrom(l, from, to, ids, amounts, 0)
  }

  // ---------------------------------------------------------------------------
  // A batch as a left fold of single transfers.

  /** The ledger after the transfers at indices `i` to `k - 1`, applied in order starting from `p`. */
  function Fold(p: Ledger, from: Address, to: Address, ids: seq<TokenId>, amounts: seq<u64>, i: nat, k: nat): Ledger
    requires |ids| == |amounts| && i <= k <= |ids|
    decreases k - i
  {
    if i == k then p
    else Fold(TransferStep(p, from, to, ids[i], amounts[i]).ledger, from, to, ids, amounts, i + 1, k)
  }

  /** Each transfer at indices `i` to `k - 1` passes its checks on the ledger the previous ones left. */
  predicate FoldPasses(p: Ledger, from: Address, to: Address, ids: seq<TokenId>, amounts: seq<u64>, i: nat, k: nat)
    requires |ids| == |amounts| && i <= k <= |ids|
    decreases k - i
  {
    i == k ||
    (TransferStep(p, from, to, ids[i], amounts[i]).outcome.Pass? &&
     FoldPasses(TransferStep(p, from, to, ids[i], amounts[i]).ledger, from, to, ids, amounts, i + 1, k))
  }

  /** The loop from `i` passes iff every remaining transfer does, and then leaves the fold of them all. */
  lemma {:induction false} BatchFromPasses(p: Ledger, from: Address, to: Address, ids: seq<TokenId>, amounts: seq<u64>, i: nat)
    requires |ids| == |amounts| && i <= |ids|
    ensures BatchFrom(p, from, to, ids, amounts, i).outcome.Pass? <==> FoldPasses(p, from, to, ids, amounts, i, |ids|)
    ensures BatchFrom(p, from, to, ids, amounts, i).outcome.Pass? ==>
            BatchFrom(p, from, to, ids, amounts, i).ledger == Fold(p, from, to, ids, amounts, i, |ids|)
    decreases |ids| - i
  {
    if i < |ids| {
      var st := TransferStep(p, from, to, ids[i], amounts[i]);
      if st.outcome.Pass? {
        BatchFromPasses(st.ledger, from, to, ids, amounts, i + 1);
      }
    }
  }

  /** The loop from `i` returns the first failing transfer, `k`, as it left the ledger. */
  lemma {:induction false} BatchFromFails(p: Ledger, from: Address, to: Address, ids: seq<TokenId>, amounts: seq<u64>, i: nat, k: nat)
    requires |ids| == |amounts| && i <= k < |ids|
    requires FoldPasses(p, from, to, ids, amounts, i, k)
    requires TransferStep(Fold(p, from, to, ids, amounts, i, k), from, to, ids[k], amounts[k]).outcome.Fail?
    ensures BatchFrom(p, from, to, ids, amounts, i) == TransferStep(Fold(p, from, to, ids, amounts, i, k), from, to, ids[k], amounts[k])
    decreases k - i
  {
    if i < k {
      var st := TransferStep(p, from, to, ids[i], amounts[i]);
      BatchFromFails(st.ledger, from, to, ids, amounts, i + 1, k);
    }
  }

  /** A passing loop moves tokens between holders and keeps the sum of all balances. */
  lemma {:induction false} BatchFromKeepsSupply(p: Ledger, from: Address, to: Address, ids: seq<TokenId>, amounts: seq<u64>, i: nat)
    requires |ids| == |amounts| && i <= |ids|
    ensures BatchFrom(p, from, to, ids, amounts, i).outcome.Pass? ==>
            Sum(BatchFrom(p, from, to, ids, amounts, i).ledger.balances) == Sum(p.balances)
    decreases |ids| - i
  {
    if i < |ids| {
      var st := TransferStep(p, from, to, ids[i], amounts[i]);
      if st.outcome.Pass? {
        TransferKeepsSupply(p, from, to, ids[i], amounts[i]);
        BatchFromKeepsSupply(st.ledger, from, to, ids, amounts, i + 1);
      }
    }
  }

  /**
   * A batch passes iff every transfer passes on the ledger the earlier ones
   * left; its ledger is then the fold over all the transfers, with the sum of
   * all balances unchanged.
   */
  lemma BatchPasses(l: Ledger, from: Address, to: Address, ids: seq<TokenId>, amounts: seq<u64>)
    requires |ids| == |amounts|
    ensures BatchStep(l, from, to, ids, amounts).outcome.Pass? <==> FoldPasses(l, from, to, ids, amounts, 0, |ids|)
    ensures BatchStep(l, from, to, ids, amounts).outcome.Pass? ==>
            BatchStep(l, from, to, ids, amounts).ledger == Fold(l, from, to, ids, amounts, 0, |ids|)
    ensures BatchStep(l, from, to, ids, amounts).outcome.Pass? ==>
            Sum(BatchStep(l, from, to, ids, amounts).ledger.balances) == Sum(l.balances)
  {
    BatchFromPasses(l, from, to, ids, amounts, 0);
    BatchFromKeepsSupply(l, from, to, ids, amounts, 0);
  }

  /**
   * When the first `k` transfers pass and the one at `k` fails, the batch
   * returns that transfer's error and ledger: the earlier transfers stay
   * written, and so do that transfer's own partial writes.
   */
  lemma BatchStopsAtFirstFailure(l: Ledger, from: Address, to: Address, ids: seq<TokenId>, amounts: seq<u64>, k: nat)
    requires |ids| == |amounts| && k < |ids|
    requires FoldPasses(l, from, to, ids, amounts, 0, k)
    requires TransferStep(Fold(l, from, to, ids, amounts, 0, k), from, to, ids[k], amounts[k]).outcome.Fail?
    ensures BatchStep(l, from, to, ids, amounts) == TransferStep(Fold(l, from, to, ids, amounts, 0, k), from, to, ids[k], amounts[k])
  {
    BatchFromFails(l, from, to, ids, amounts, 0, k);
  }

  // ---------------------------------------------------------------------------
  // The invariant is kept by every step, including the partial writes of a
  // failing one.

  lemma DebitConsistent(l: Ledger, from: Address, id: TokenId, amount: u64)
    requires Consistent(l) && amount <= Bal(l.balances, from, id)
    ensures Consistent(Debit(l, from, id, amount))
  {
    var r := Debit(l, from, id, amount);
    if Bal(l.balances, from, id) == amount {
      DebitNoDup(l.owned, from, id);
      DebitMatch(l, from, id, amount);
    }
  }

  lemma DebitNoDup(m: map<Address, seq<TokenId>>, from: Address, id: TokenId)
    requires ListsNoDup(m)
    ensures ListsNoDup(RemoveOwned(m, from, id))
  {
    var r := RemoveOwned(m, from, id);
    forall o ensures NoDup(Tokens(r, o)) {
      if o == from {
        WithoutNoDup(Tokens(m, from), id);
      } else {
        assert Tokens(r, o) == Tokens(m, o);
      }
    }
  }

  lemma DebitMatch(l: Ledger, from: Address, id: TokenId, amount: u64)
    requires ListsMatch(l) && amount == Bal(l.balances, from, id)
    ensures ListsMatch(Debit(l, from, id, amount))
  {
    var r := Debit(l, from, id, amount);
    assert r.balances == SetBal(l.balances, from, id, 0);
    assert r.owned == RemoveOwned(l.owned, from, id);
    WithoutMembers(Tokens(l.owned, from), id);
    forall o: Address, t: TokenId ensures t in Tokens(r.owned, o) <==> Bal(r.balances, o, t) > 0 {
      if o != from {
        assert Tokens(r.owned, o) == Tokens(l.owned, o);
      }
    }
  }

  lemma CreditConsistent(l: Ledger, to: Address, id: TokenId, amount: u64)
    requires Consistent(l) && amount > 0
    ensures Consistent(Credit(l, to, id, amount).ledger)
  {
    var b := Bal(l.balances, to, id);
    if b + amount <= U64_MAX {
      if b == 0 {
        CreditNoDup(l.owned, to, id);
      }
      CreditMatch(l, to, id, amount);
    }
  }

  lemma CreditNoDup(m: map<Address, seq<TokenId>>, to: Address, id: TokenId)
    requires ListsNoDup(m)
    ensures ListsNoDup(AddOwned(m, to, id))
  {
    var r := AddOwned(m, to, id);
    forall o ensures NoDup(Tokens(r, o)) {
      if o != to { assert Tokens(r, o) == Tokens(m, o); }
    }
  }

  lemma CreditMatch(l: Ledger, to: Address, id: TokenId, amount: u64)
    requires ListsMatch(l) && amount > 0 && Bal(l.balances, to, id) + amount <= U64_MAX
    ensures ListsMatch(Credit(l, to, id, amount).ledger)
  {
    var b := Bal(l.balances, to, id);
    var r := Credit(l, to, id, amount).ledger;
    assert r.balances == SetBal(l.balances, to, id, b + amount);
    assert r.owned == if b == 0 then AddOwned(l.owned, to, id) else l.owned;
    forall o: Address, t: TokenId ensures t in Tokens(r.owned, o) <==> Bal(r.balances, o, t) > 0 {
      if o == to && b == 0 {
        assert Tokens(r.owned, o) == Appended(Tokens(l.owned, o), id);
      } else {
        assert Tokens(r.owned, o) == Tokens(l.owned, o);
      }
    }
  }

  /** Transfer keeps the ledger consistent, whatever it returns. */
  lemma {:induction false} TransferConsistent(l: Ledger, from: Address, to: Address, id: TokenId, amount: u64)
    requires Consistent(l)
    ensures Consistent(TransferStep(l, from, to, id, amount).ledger)
  {
    if amount > 0 && amount <= Bal(l.balances, from, id) {
      DebitConsistent(l, from, id, amount);
      var d := Debit(l, from, id, amount);
      CreditConsistent(d, to, id, amount);
    }
  }

  /** Mint keeps the ledger consistent, whatever it returns. */
  lemma {:induction false} MintConsistent(l: Ledger, to: Address, id: TokenId, amount: u64)
    requires Consistent(l)
    ensures Consistent(MintStep(l, to, id, amount).ledger)
  {
    if amount > 0 {
      CreditConsistent(l, to, id, amount);
    }
  }

  /** Burn keeps the ledger consistent, whatever it returns. */
  lemma {:induction false} BurnConsistent(l: Ledger, from: Address, id: TokenId, amount: u64)
    requires Consistent(l)
    ensures Consistent(BurnStep(l, from, id, amount).ledger)
  {
    if 0 < amount <= Bal(l.balances, from, id) {
      DebitConsistent(l, from, id, amount);
    }
  }

  /** A batch keeps the ledger consistent, also when it stops part-way. */
  lemma {:induction false} BatchFromConsistent(l: Ledger, from: Address, to: Address, ids: seq<TokenId>, amounts: seq<u64>, i: nat)
    requires |ids| == |amounts| && i <= |ids|
    requires Consistent(l)
    ensures Consistent(BatchFrom(l, from, to, ids, amounts, i).ledger)
    decreases |ids| - i
  {
    if i < |ids| {
      TransferConsistent(l, from, to, ids[i], amounts[i]);
      var st := TransferStep(l, from, to, ids[i], amounts[i]);
      if st.outcome.Pass? {
        BatchFromConsistent(st.ledger, from, to, ids, amounts, i + 1);
      }
    }
  }

  lemma BatchConsistent(l: Ledger, from: Address, to: Address, ids: seq<TokenId>, amounts: seq<u64>)
    requires Consistent(l)
    ensures Consistent(BatchStep(l, from, to, ids, amounts).ledger)
  {
    if |ids| == |amounts| {
      BatchFromConsistent(l, from, to, ids, amounts, 0);
    }
  }

  // ---------------------------------------------------------------------------
  // What each successful step does to balances and lists.

  /**
   * A successful transfer between two distinct owners moves `amount` from the
   * sender to the receiver and leaves every other balance alone.
   */
  lemma TransferMovesBalance(l: Ledger, from: Address, to: Address, id: TokenId, amount: u64)
    requires from != to
    requires TransferStep(l, from, to, id, amount).outcome.Pass?
    ensures var l' := TransferStep(l, from, to, id, amount).ledger;
      && Bal(l'.balances, from, id) == Bal(l.balances, from, id) - amount
      && Bal(l'.balances, to, id) == Bal(l.balances, to, id) + amount
      && (forall o: Address, t: TokenId :: (o, t) != (from, id) && (o, t) != (to, id) ==>
            Bal(l'.balances, o, t) == Bal(l.balances, o, t))
  {
    BurnThenMint(l, from, to, id, amount);
    var d := BurnStep(l, from, id, amount).ledger;
    BurnTakesBalance(l, from, id, amount);
    MintAddsBalance(d, to, id, amount);
  }

  /** A successful transfer keeps the sum of all balances, also a self-transfer. */
  lemma TransferKeepsSupply(l: Ledger, from: Address, to: Address, id: TokenId, amount: u64)
    requires TransferStep(l, from, to, id, amount).outcome.Pass?
    ensures Sum(TransferStep(l, from, to, id, amount).ledger.balances) == Sum(l.balances)
  {
    BurnThenMint(l, from, to, id, amount);
    var d := BurnStep(l, from, id, amount).ledger;
    BurnSupply(l, from, id, amount);
    MintSupply(d, to, id, amount);
  }

  /** A transfer that passes its checks is a burn from the sender followed by a mint to the receiver. */
  lemma BurnThenMint(l: Ledger, from: Address, to: Address, id: TokenId, amount: u64)
    requires 0 < amount <= Bal(l.balances, from, id)
    ensures BurnStep(l, from, id, amount).outcome.Pass?
    ensures TransferStep(l, from, to, id, amount) == MintStep(BurnStep(l, from, id, amount).ledger, to, id, amount)
  {
  }

  /** How a `set_balance` changes the sum of all balances. */
  lemma SetBalSum(m: map<BalanceKey, u64>, owner: Address, id: TokenId, amount: u64)
    ensures Sum(SetBal(m, owner, id, amount)) == Sum(m) - Bal(m, owner, id) + amount
  {
    if amount == 0 {
      SumDelete(m, (owner, id));
    } else {
      SumUpdate(m, (owner, id), amount);
    }
  }

  /**
   * On a successful transfer between two distinct owners the sender's id
   * leaves its list exactly when its balance reaches 0, the receiver's id is
   * appended exactly when its prior balance was 0, and no other list changes.
   */
  lemma TransferLists(l: Ledger, from: Address, to: Address, id: TokenId, amount: u64)
    requires from != to
    requires TransferStep(l, from, to, id, amount).outcome.Pass?
    ensures var l' := TransferStep(l, from, to, id, amount).ledger;
      && Tokens(l'.owned, from) ==
           (if Bal(l.balances, from, id) == amount then Without(Tokens(l.owned, from), id) else Tokens(l.owned, from))
      && Tokens(l'.owned, to) ==
           (if Bal(l.balances, to, id) == 0 then Appended(Tokens(l.owned, to), id) else Tokens(l.owned, to))
      && (forall o :: o != from && o != to ==> Tokens(l'.owned, o) == Tokens(l.owned, o))
  {
  }

  /**
   * A successful self-transfer leaves every balance as it was. When it moves
   * the whole balance, the id is cut out of the owner's list and re-appended
   * at its end; otherwise the list is untouched.
   */
  lemma {:induction false} SelfTransfer(l: Ledger, o: Address, id: TokenId, amount: u64)
    requires Consistent(l)
    requires TransferStep(l, o, o, id, amount).outcome.Pass?
    ensures var l' := TransferStep(l, o, o, id, amount).ledger;
      && l'.balances == l.balances
      && Tokens(l'.owned, o) ==
           (if amount == Bal(l.balances, o, id) then Without(Tokens(l.owned, o), id) + [id] else Tokens(l.owned, o))
      && (forall p :: p != o ==> Tokens(l'.owned, p) == Tokens(l.owned, p))
  {
    var b := Bal(l.balances, o, id);
    var d := Debit(l, o, id, amount);
    if amount == b {
      assert d.balances == l.balances - {(o, id)};
      WithoutMembers(Tokens(l.owned, o), id);
      assert id !in Tokens(d.owned, o);
    } else {
      assert d.balances == l.balances[(o, id) := b - amount];
    }
  }

  /**
   * Where the moved id sat at position i of the owner's list, the self-transfer
   * of the whole balance moves it from position i to the end.
   */
  lemma SelfTransferMovesToEnd(l: Ledger, o: Address, id: TokenId, i: nat)
    requires Consistent(l)
    requires i < |Tokens(l.owned, o)| && Tokens(l.owned, o)[i] == id
    requires TransferStep(l, o, o, id, Bal(l.balances, o, id)).outcome.Pass?
    ensures var s := Tokens(l.owned, o);
      Tokens(TransferStep(l, o, o, id, Bal(l.balances, o, id)).ledger.owned, o) == s[..i] + s[i + 1..] + [id]
  {
    SelfTransfer(l, o, id, Bal(l.balances, o, id));
    WithoutAt(Tokens(l.owned, o), i);
  }

  /** A successful mint adds `amount` to one balance and leaves the others alone. */
  lemma MintAddsBalance(l: Ledger, to: Address, id: TokenId, amount: u64)
    requires MintStep(l, to, id, amount).outcome.Pass?
    ensures var l' := MintStep(l, to, id, amount).ledger;
      && Bal(l'.balances, to, id) == Bal(l.balances, to, id) + amount
      && (forall o: Address, t: TokenId :: (o, t) != (to, id) ==> Bal(l'.balances, o, t) == Bal(l.balances, o, t))
      && Tokens(l'.owned, to) ==
           (if Bal(l.balances, to, id) == 0 then Appended(Tokens(l.owned, to), id) else Tokens(l.owned, to))
  {
    var b := Bal(l.balances, to, id);
    var l' := MintStep(l, to, id, amount).ledger;
    assert l' == Ledger(SetBal(l.balances, to, id, b + amount), if b == 0 then AddOwned(l.owned, to, id) else l.owned);
  }

  /** A successful mint adds `amount` to the sum of all balances. */
  lemma MintSupply(l: Ledger, to: Address, id: TokenId, amount: u64)
    requires MintStep(l, to, id, amount).outcome.Pass?
    ensures Sum(MintStep(l, to, id, amount).ledger.balances) == Sum(l.balances) + amount
  {
    var b := Bal(l.balances, to, id);
    var m' := SetBal(l.balances, to, id, b + amount);
    assert MintStep(l, to, id, amount).ledger.balances == m';
    SetBalSum(l.balances, to, id, b + amount);
  }

  /** A successful burn takes `amount` off one balance and leaves the others alone. */
  lemma BurnTakesBalance(l: Ledger, from: Address, id: TokenId, amount: u64)
    requires BurnStep(l, from, id, amount).outcome.Pass?
    ensures var l' := BurnStep(l, from, id, amount).ledger;
      && Bal(l'.balances, from, id) == Bal(l.balances, from, id) - amount
      && (forall o: Address, t: TokenId :: (o, t) != (from, id) ==> Bal(l'.balances, o, t) == Bal(l.balances, o, t))
      && Tokens(l'.owned, from) ==
           (if Bal(l.balances, from, id) == amount then Without(Tokens(l.owned, from), id) else Tokens(l.owned, from))
  {
    var l' := BurnStep(l, from, id, amount).ledger;
    assert l' == Debit(l, from, id, amount);
  }

  /** A successful burn takes `amount` off the sum of all balances. */
  lemma BurnSupply(l: Ledger, from: Address, id: TokenId, amount: u64)
    requires BurnStep(l, from, id, amount).outcome.Pass?
    ensures Sum(BurnStep(l, from, id, amount).ledger.balances) == Sum(l.balances) - amount
  {
    var b := Bal(l.balances, from, id);
    var m' := SetBal(l.balances, from, id, b - amount);
    assert BurnStep(l, from, id, amount).ledger.balances == m';
    SetBalSum(l.balances, from, id, b - amount);
  }

  /**
   * Minting an amount and burning the same amount again restores the ledger
   * exactly: the balance record and the owner's list are as before (a first
   * unit's id leaves the list again and an emptied record is deleted).
   */
  lemma {:induction false} MintThenBurn(l: Ledger, o: Address, id: TokenId, amount: u64)
    requires Consistent(l)
    requires MintStep(l, o, id, amount).outcome.Pass?
    ensures BurnStep(MintStep(l, o, id, amount).ledger, o, id, amount) == Step(l, Pass)
  {
    var b := Bal(l.balances, o, id);
    var m := MintStep(l, o, id, amount).ledger;
    SetBalTwice(l.balances, o, id, b + amount);
    if b == 0 {
      AddThenRemove(l.owned, o, id);
    }
  }

  /** Writing a new balance and then the old one again restores the records. */
  lemma SetBalTwice(m: map<BalanceKey, u64>, owner: Address, id: TokenId, n: u64)
    requires NoZeroBalance(m)
    ensures SetBal(SetBal(m, owner, id, n), owner, id, Bal(m, owner, id)) == m
  {
  }

  /** Appending an absent id and then filtering it out restores the list records. */
  lemma AddThenRemove(m: map<Address, seq<TokenId>>, owner: Address, id: TokenId)
    requires NoEmptyList(m) && id !in Tokens(m, owner)
    ensures RemoveOwned(AddOwned(m, owner, id), owner, id) == m
  {
    var s := Tokens(m, owner);
    var a := m[owner := s + [id]];
    assert AddOwned(m, owner, id) == a;
    WithoutCut(s, id, []);
    assert s + [id] + [] == s + [id] && s + [] == s;
    if s == [] {
      assert owner !in m;
      assert a - {owner} == m;
    } else {
      assert a[owner := s] == m;
    }
  }

  // ---------------------------------------------------------------------------
  // The operations as the source performs them.

  /**
   * The sender-side writes shared by `_safe_transfer` and `_safe_burn`:
   * the reduced balance is stored and, when it is 0, the id is removed from
   * the sender's list.
   */
  method DebitSender(s: Store, from: Address, id: TokenId, fromBalance: u64, amount: u64)
    requires fromBalance == Bal(s.balances, from, id) && amount <= fromBalance
    modifies s`balances, s`owned
    ensures s.View() == Debit(old(s.View()), from, id, amount)
  {
    var newFromBalance := fromBalance - amount;
    s.SetBalance(from, id, newFromBalance);
    if newFromBalance == 0 {
      RemoveTokenFromOwner(s, from, id);
    }
  }

  /**
   * The receiver-side reads and writes shared by `_safe_transfer` and
   * `_safe_mint`: the `u64` add panics when it does not fit; otherwise the
   * grown balance is stored and a first unit adds the id to the list.
   */
  method CreditReceiver(s: Store, to: Address, id: TokenId, amount: u64) returns (r: Outcome<Fault>)
    modifies s`balances, s`owned
    ensures Step(s.View(), r) == Credit(old(s.View()), to, id, amount)
  {
    var toBalance := s.GetBalance(to, id);
    if toBalance + amount > U64_MAX {
      return Fail(Panic(AddOverflow));
    }
    var newToBalance := toBalance + amount;
    s.SetBalance(to, id, newToBalance);
    if toBalance == 0 {
      AddTokenToOwner(s, to, id);
    }
    r := Pass;
  }

  /** `_safe_transfer` */
  method SafeTransfer(s: Store, from: Address, to: Address, id: TokenId, amount: u64) returns (r: Outcome<Fault>)
    modifies s`balances, s`owned
    ensures Step(s.View(), r) == TransferStep(old(s.View()), from, to, id, amount)
  {
    if amount == 0 {
      return Fail(Error(InvalidAmount));
    }
    var fromBalance := s.GetBalance(from, id);
    if fromBalance < amount {
      return Fail(Error(InsufficientBalance));
    }
    DebitSender(s, from, id, fromBalance, amount);
    r := CreditReceiver(s, to, id, amount);
  }

  /** `_safe_batch_transfer` */
  method SafeBatchTransfer(s: Store, from: Address, to: Address, ids: seq<TokenId>, amounts: seq<u64>)
    returns (r: Outcome<Fault>)
    modifies s`balances, s`owned
    ensures Step(s.View(), r) == BatchStep(old(s.View()), from, to, ids, amounts)
  {
    if |ids| != |amounts| {
      return Fail(Error(TokenIdMismatch));
    }
    for i := 0 to |ids|
      invariant BatchFrom(s.View(), from, to, ids, amounts, i) == BatchStep(old(s.View()), from, to, ids, amounts)
    {
      var one := SafeTransfer(s, from, to, ids[i], amounts[i]);
      if one.Fail? {
        return one;
      }
    }
    r := Pass;
  }

  /** `_safe_mint` */
  method SafeMint(s: Store, to: Address, id: TokenId, amount: u64) returns (r: Outcome<Fault>)
    modifies s`balances, s`owned
    ensures Step(s.View(), r) == MintStep(old(s.View()), to, id, amount)
  {
    if amount == 0 {
      return Fail(Error(InvalidAmount));
    }
    r := CreditReceiver(s, to, id, amount);
  }

  /** `_safe_burn` */
  method SafeBurn(s: Store, from: Address, id: TokenId, amount: u64) returns (r: Outcome<Fault>)
    modifies s`balances, s`owned
    ensures Step(s.View(), r) == BurnStep(old(s.View()), from, id, amount)
  {
    if amount == 0 {
      return Fail(Error(InvalidAmount));
    }
    var fromBalance := s.GetBalance(from, id);
    if fromBalance < amount {
      return Fail(Error(InsufficientBalance));
    }
    DebitSender(s, from, id, fromBalance, amount);
    r := Pass;
  }
}
