/**
 * The internal balance helpers of the reward system
 * (tycoon-reward-system/src/lib.rs): a `u64` balance per (owner, token id).
 *
 * Unlike the collectibles ledger, a zero amount is a silent no-op, the
 * addition is checked, and a balance that drops to 0 is stored as 0 rather
 * than deleted. The panics ("Balance overflow", "Insufficient balance") are
 * raised before any write.
 */
module Reward {
  import opened Wrappers
  import opened Ints
  import opened MapSum

  type RewardKey = (Address, u128)

  datatype RewardPanic = BalanceOverflow | InsufficientBalance

  /** `balance_of`: the stored balance, 0 when there is no record. */
  function BalanceIn(m: map<RewardKey, u64>, owner: Address, id: u128): (r: u64)
    ensures (owner, id) in m ==> r == m[(owner, id)]
    ensures (owner, id) !in m ==> r == 0
    ensures r == Get(m, (owner, id))
  {
    if (owner, id) in m then m[(owner, id)] else 0
  }

  /**
   * The records after `_mint`: unchanged for amount 0, a panic when the
   * `u64` sum does not fit, otherwise the key holds the grown balance.
   */
  function Minted(m: map<RewardKey, u64>, to: Address, id: u128, amount: u64): (r: Result<map<RewardKey, u64>, RewardPanic>)
    ensures amount == 0 ==> r == Success(m)
    ensures r.Failure? <==> BalanceIn(m, to, id) + amount > U64_MAX
    ensures r.Failure? ==> r.error == BalanceOverflow
    ensures r.Success? ==> BalanceIn(r.value, to, id) == BalanceIn(m, to, id) + amount
    ensures r.Success? ==> forall k :: k != (to, id) ==> (k in r.value <==> k in m) && (k in m ==> r.value[k] == m[k])
  {
    if amount == 0 then Success(m)
    else
      var b := BalanceIn(m, to, id);
      if b + amount > U64_MAX then Failure(BalanceOverflow)
      else Success(m[(to, id) := b + amount])
  }

  /**
   * The records after `_burn`: unchanged for amount 0, a panic when the
   * balance is below the amount, otherwise the key holds the reduced balance,
   * 0 included.
   */
  function Burned(m: map<RewardKey, u64>, from: Address, id: u128, amount: u64): (r: Result<map<RewardKey, u64>, RewardPanic>)
    ensures amount == 0 ==> r == Success(m)
    ensures r.Failure? <==> BalanceIn(m, from, id) < amount
    ensures r.Failure? ==> r.error == InsufficientBalance
    ensures r.Success? ==> BalanceIn(r.value, from, id) == BalanceIn(m, from, id) - amount
    ensures r.Success? && amount > 0 ==> (from, id) in r.value
    ensures r.Success? ==> forall k :: k != (from, id) ==> (k in r.value <==> k in m) && (k in m ==> r.value[k] == m[k])
  {
    if amount == 0 then Success(m)
    else
      var b := BalanceIn(m, from, id);
      if b < amount then Failure(InsufficientBalance)
      else Success(m[(from, id) := b - amount])
  }

  /** A successful `_mint` adds `amount` to the sum of all balances. */
  lemma MintedSum(m: map<RewardKey, u64>, to: Address, id: u128, amount: u64)
    requires Minted(m, to, id, amount).Success?
    ensures Sum(Minted(m, to, id, amount).value) == Sum(m) + amount
  {
    var b := BalanceIn(m, to, id);
    if amount > 0 {
      var v := b + amount;
      assert Minted(m, to, id, amount).value == m[(to, id) := v];
      SumUpdate(m, (to, id), v);
    }
  }

  /** A successful `_burn` takes `amount` off the sum of all balances. */
  lemma BurnedSum(m: map<RewardKey, u64>, from: Address, id: u128, amount: u64)
    requires Burned(m, from, id, amount).Success?
    ensures Sum(Burned(m, from, id, amount).value) == Sum(m) - amount
  {
    var b := BalanceIn(m, from, id);
    if amount > 0 {
      var v := b - amount;
      assert Burned(m, from, id, amount).value == m[(from, id) := v];
      SumUpdate(m, (from, id), v);
    }
  }

  /**
   * Minting and then burning the same amount restores every balance, but a
   * key that held no record before is left holding an explicit 0.
   */
  lemma MintThenBurn(m: map<RewardKey, u64>, o: Address, id: u128, amount: u64)
    requires Minted(m, o, id, amount).Success?
    ensures var m' := Minted(m, o, id, amount).value;
      && Burned(m', o, id, amount).Success?
      && (forall p: Address, t: u128 :: BalanceIn(Burned(m', o, id, amount).value, p, t) == BalanceIn(m, p, t))
      && (amount > 0 ==> Burned(m', o, id, amount).value == m[(o, id) := BalanceIn(m, o, id)])
  {
    var m' := Minted(m, o, id, amount).value;
    var r := Burned(m', o, id, amount).value;
    forall p: Address, t: u128 ensures BalanceIn(r, p, t) == BalanceIn(m, p, t) {
      if (p, t) != (o, id) {
        assert (p, t) in r <==> (p, t) in m;
      }
    }
  }

  /** The contract's persistent balance records. */
  class RewardStore {
    var balances: map<RewardKey, u64>

    constructor()
      ensures balances == map[]
    {
      balances := map[];
    }

    /** `balance_of` */
    method BalanceOf(owner: Address, id: u128) returns (b: u64)
      ensures b == BalanceIn(balances, owner, id)
    {
      var key := (owner, id);
      b := if key in balances then balances[key] else 0;
    }

    /** `get_balance`: the public view, the same read as `balance_of`. */
    method GetBalance(owner: Address, id: u128) returns (b: u64)
      ensures b == BalanceIn(balances, owner, id)
    {
      b := BalanceOf(owner, id);
    }

    /** `_mint` */
    method Mint(to: Address, id: u128, amount: u64) returns (r: Outcome<RewardPanic>)
      modifies this
      ensures Minted(old(balances), to, id, amount).Success? ==> r == Pass && balances == Minted(old(balances), to, id, amount).value
      ensures Minted(old(balances), to, id, amount).Failure? ==> r == Fail(BalanceOverflow) && balances == old(balances)
    {
      if amount == 0 {
        return Pass;
      }
      var key := (to, id);
      var current := BalanceOf(to, id);
      if current + amount > U64_MAX {
        return Fail(BalanceOverflow);
      }
      balances := balances[key := current + amount];
      r := Pass;
    }

    /** `_burn` */
    method Burn(from: Address, id: u128, amount: u64) returns (r: Outcome<RewardPanic>)
      modifies this
      ensures Burned(old(balances), from, id, amount).Success? ==> r == Pass && balances == Burned(old(balances), from, id, amount).value
      ensures Burned(old(balances), from, id, amount).Failure? ==> r == Fail(InsufficientBalance) && balances == old(balances)
    {
      if amount == 0 {
        return Pass;
      }
      var key := (from, id);
      var current := BalanceOf(from, id);
      if current < amount {
        return Fail(InsufficientBalance);
      }
      balances := balances[key := current - amount];
      r := Pass;
    }
  }
}
