/**
 * The persistent and instance records of the collectibles contract
 * (tycoon-collectibles/src/storage.rs): the admin, the backend minter, the
 * per-(owner, token) balances, the per-owner list of held token ids and the
 * per-(owner, token) list position.
 *
 * A key that holds no record reads as the default (0, the empty list, None).
 * The balance setter and the list setter delete their key instead of storing
 * 0 or an empty list.
 */
module CollectiblesStorage {
  import opened Wrappers
  import opened Ints

  type TokenId = u128
  type BalanceKey = (Address, TokenId)

  /** The ledger part of the store: the "BAL" and "OWNED" records. */
  datatype Ledger = Ledger(balances: map<BalanceKey, u64>, owned: map<Address, seq<TokenId>>)

  /** `get_balance`: the stored amount, 0 when no record exists. */
  function Bal(m: map<BalanceKey, u64>, owner: Address, id: TokenId): (r: u64)
    ensures (owner, id) in m ==> r == m[(owner, id)]
    ensures (owner, id) !in m ==> r == 0
  {
    if (owner, id) in m then m[(owner, id)] else 0
  }

  /** `get_owned_tokens_vec`: the stored list, empty when no record exists. */
  function Tokens(m: map<Address, seq<TokenId>>, owner: Address): (r: seq<TokenId>)
    ensures owner in m ==> r == m[owner]
    ensures owner !in m ==> r == []
  {
    if owner in m then m[owner] else []
  }

  /** No balance record holds 0, so a record exists iff the balance is positive. */
  ghost predicate NoZeroBalance(m: map<BalanceKey, u64>) {
    forall k :: k in m ==> m[k] > 0
  }

  /** No list record holds the empty list. */
  ghost predicate NoEmptyList(m: map<Address, seq<TokenId>>) {
    forall o :: o in m ==> m[o] != []
  }

  /**
   * `set_balance`: amount 0 removes the record, any other amount is stored.
   * Only the key (owner, id) is touched.
   */
  function SetBal(m: map<BalanceKey, u64>, owner: Address, id: TokenId, amount: u64): (r: map<BalanceKey, u64>)
    ensures Bal(r, owner, id) == amount
    ensures (owner, id) in r <==> amount > 0
    ensures forall o: Address, t: TokenId :: (o, t) != (owner, id) ==> Bal(r, o, t) == Bal(m, o, t)
    ensures NoZeroBalance(m) ==> NoZeroBalance(r)
  {
    if amount == 0 then m - {(owner, id)} else m[(owner, id) := amount]
  }

  /**
   * `set_owned_tokens_vec`: the empty list removes the record, any other list
   * is stored. Only the key of `owner` is touched.
   */
  function StoreList(m: map<Address, seq<TokenId>>, owner: Address, tokens: seq<TokenId>): (r: map<Address, seq<TokenId>>)
    ensures Tokens(r, owner) == tokens
    ensures owner in r <==> tokens != []
    ensures forall o :: o != owner ==> Tokens(r, o) == Tokens(m, o)
    ensures NoEmptyList(m) ==> NoEmptyList(r)
  {
    if tokens == [] then m - {owner} else m[owner := tokens]
  }

  /** The contract's storage. The contract's own address is fixed at deployment. */
  class Store {
    const contract: Address
    var admin: Option<Address>
    var minter: Option<Address>
    var balances: map<BalanceKey, u64>
    var owned: map<Address, seq<TokenId>>
    var tokenIndex: map<BalanceKey, u32>

    /** A freshly deployed contract: every key is empty. */
    constructor(contract: Address)
      ensures this.contract == contract
      ensures admin == None && minter == None
      ensures balances == map[] && owned == map[] && tokenIndex == map[]
    {
      this.contract := contract;
      admin, minter := None, None;
      balances, owned, tokenIndex := map[], map[], map[];
    }

    function View(): Ledger
      reads this
    {
      Ledger(balances, owned)
    }

    /** `has_admin` */
    method HasAdmin() returns (b: bool)
      ensures b <==> admin.Some?
    {
      b := admin.Some?;
    }

    /** `set_admin`: overwrites the admin and nothing else. */
    method SetAdmin(a: Address)
      modifies this`admin
      ensures admin == Some(a)
    {
      admin := Some(a);
    }

    /** `get_admin`: the `unwrap` panics when no admin was ever set. */
    method GetAdmin() returns (r: Option<Address>)
      ensures r == admin
    {
      r := admin;
    }

    /** `get_balance` */
    method GetBalance(owner: Address, id: TokenId) returns (b: u64)
      ensures b == Bal(balances, owner, id)
      ensures (owner, id) !in balances ==> b == 0
    {
      b := if (owner, id) in balances then balances[(owner, id)] else 0;
    }

    /** `set_balance` */
    method SetBalance(owner: Address, id: TokenId, amount: u64)
      modifies this`balances
      ensures balances == SetBal(old(balances), owner, id, amount)
    {
      if amount == 0 {
        balances := balances - {(owner, id)};
      } else {
        balances := balances[(owner, id) := amount];
      }
    }

    /** `get_owned_tokens_vec` */
    method GetOwnedTokensVec(owner: Address) returns (tokens: seq<TokenId>)
      ensures tokens == Tokens(owned, owner)
      ensures owner !in owned ==> tokens == []
    {
      tokens := if owner in owned then owned[owner] else [];
    }

    /** `set_owned_tokens_vec` */
    method SetOwnedTokensVec(owner: Address, tokens: seq<TokenId>)
      modifies this`owned
      ensures owned == StoreList(old(owned), owner, tokens)
    {
      if tokens == [] {
        owned := owned - {owner};
      } else {
        owned := owned[owner := tokens];
      }
    }

    /** `get_token_index` */
    method GetTokenIndex(owner: Address, id: TokenId) returns (r: Option<u32>)
      ensures (owner, id) in tokenIndex ==> r == Some(tokenIndex[(owner, id)])
      ensures (owner, id) !in tokenIndex ==> r == None
    {
      r := if (owner, id) in tokenIndex then Some(tokenIndex[(owner, id)]) else None;
    }

    /** `set_token_index`: a later `get_token_index` of the same key returns `Some(index)`. */
    method SetTokenIndex(owner: Address, id: TokenId, index: u32)
      modifies this`tokenIndex
      ensures tokenIndex == old(tokenIndex)[(owner, id) := index]
      ensures (owner, id) in tokenIndex && tokenIndex[(owner, id)] == index
    {
      tokenIndex := tokenIndex[(owner, id) := index];
    }

    /** `remove_token_index`: a later `get_token_index` of the same key returns `None`. */
    method RemoveTokenIndex(owner: Address, id: TokenId)
      modifies this`tokenIndex
      ensures tokenIndex == old(tokenIndex) - {(owner, id)}
      ensures (owner, id) !in tokenIndex
    {
      tokenIndex := tokenIndex - {(owner, id)};
    }
  }

  /**
   * The setters and getters round-trip: a balance reads back as set, an
   * empty list deletes its record and reads back empty, and a token index
   * reads back as set and as `None` once removed.
   */
  method StorageRoundTrips(s: Store, owner: Address, id: TokenId, n: u64, i: u32)
    returns (b: u64, l: seq<TokenId>, x1: Option<u32>, x2: Option<u32>)
    modifies s`balances, s`owned, s`tokenIndex
    ensures b == n && ((owner, id) in s.balances <==> n > 0)
    ensures l == [] && owner !in s.owned
    ensures x1 == Some(i) && x2 == None
  {
    s.SetBalance(owner, id, n);
    b := s.GetBalance(owner, id);
    s.SetOwnedTokensVec(owner, []);
    l := s.GetOwnedTokensVec(owner);
    s.SetTokenIndex(owner, id, i);
    x1 := s.GetTokenIndex(owner, id);
    s.RemoveTokenIndex(owner, id);
    x2 := s.GetTokenIndex(owner, id);
  }
}
