/**
 * The entry points of the collectibles contract (tycoon-collectibles/src/lib.rs).
 *
 * `require_auth` is modelled by the set `auth` of addresses that signed the
 * invocation: requiring an address outside it is a host panic. The contract's
 * own address is the store's `contract` constant.
 *
 * As for the engine, each entry point is given as a function of the contract
 * state (`...Body`, what the body leaves in storage and what it returns) and
 * as a method proved equal to it. `Invoke` adds what the host does with the
 * result: a failed invocation commits nothing.
 */
module Collectibles {
  import opened Wrappers
  import opened Ints
  import opened CollectiblesStorage
  import opened Enumeration
  import opened CollectibleErrors
  import opened Transfer

  /** The instance and persistent records the entry points read and write. */
  datatype Contract = Contract(admin: Option<Address>, minter: Option<Address>, ledger: Ledger)

  /** What an entry point's body leaves in storage, and what it returns. */
  datatype Effect = Effect(state: Contract, outcome: Outcome<Fault>)

  function StateOf(s: Store): Contract
    reads s
  {
    Contract(s.admin, s.minter, s.View())
  }

  /** Lifts an engine step to the whole contract state. */
  function WithStep(c: Contract, st: Step): (e: Effect)
    ensures e.state.admin == c.admin && e.state.minter == c.minter
    ensures e.state.ledger == st.ledger && e.outcome == st.outcome
  {
    Effect(c.(ledger := st.ledger), st.outcome)
  }

  /** `require_auth` of `who`: a panic unless `who` signed the invocation. */
  function Authorized(auth: set<Address>, who: Address): (r: Outcome<Fault>)
    ensures r.Pass? <==> who in auth
  {
    if who in auth then Pass else Fail(Panic(AuthMissing(who)))
  }

  // ---------------------------------------------------------------------------
  // The bodies as functions.

  /** `initialize`: a stored admin makes it fail; otherwise the admin is stored. */
  function InitializeBody(c: Contract, admin: Address): (e: Effect)
    ensures c.admin.Some? ==> e == Effect(c, Fail(Error(AlreadyInitialized)))
    ensures c.admin.None? ==> e == Effect(c.(admin := Some(admin)), Pass)
  {
    if c.admin.Some? then Effect(c, Fail(Error(AlreadyInitialized)))
    else Effect(c.(admin := Some(admin)), Pass)
  }

  /** `buy_collectible`: the buyer's signature, then `_safe_mint` to the buyer. */
  function BuyCollectibleBody(c: Contract, auth: set<Address>, buyer: Address, id: TokenId, amount: u64): (e: Effect)
  {
    if buyer !in auth then Effect(c, Authorized(auth, buyer))
    else WithStep(c, MintStep(c.ledger, buyer, id, amount))
  }

  /** `transfer`: the sender's signature, then `_safe_transfer`. */
  function TransferBody(c: Contract, auth: set<Address>, from: Address, to: Address, id: TokenId, amount: u64): (e: Effect)
  {
    if from !in auth then Effect(c, Authorized(auth, from))
    else WithStep(c, TransferStep(c.ledger, from, to, id, amount))
  }

  /** `burn`: the owner's signature, then `_safe_burn`. */
  function BurnBody(c: Contract, auth: set<Address>, owner: Address, id: TokenId, amount: u64): (e: Effect)
  {
    if owner !in auth then Effect(c, Authorized(auth, owner))
    else WithStep(c, BurnStep(c.ledger, owner, id, amount))
  }

  /**
   * `set_backend_minter`: the contract's own address is refused before
   * anything else; then the stored admin (a panic when none is stored) must
   * have signed, and the minter is overwritten.
   */
  function SetBackendMinterBody(c: Contract, self: Address, auth: set<Address>, newMinter: Address): (e: Effect)
    ensures e.state.admin == c.admin && e.state.ledger == c.ledger
    ensures newMinter == self ==> e == Effect(c, Fail(Error(Unauthorized)))
    ensures e.outcome.Pass? <==> newMinter != self && c.admin.Some? && c.admin.value in auth
    ensures e.outcome.Pass? ==> e.state.minter == Some(newMinter)
    ensures e.outcome.Fail? ==> e.state == c
  {
    if newMinter == self then Effect(c, Fail(Error(Unauthorized)))
    else if c.admin.None? then Effect(c, Fail(Panic(AdminNotSet)))
    else if c.admin.value !in auth then Effect(c, Authorized(auth, c.admin.value))
    else Effect(c.(minter := Some(newMinter)), Pass)
  }

  /** The `require_backend_or_owner` rule of `backend_mint`. */
  predicate MayMint(c: Contract, caller: Address)
    requires c.admin.Some?
  {
    caller == c.admin.value || c.minter == Some(caller)
  }

  /**
   * `backend_mint`: the caller's signature, then the stored admin (a panic
   * when none is stored); a caller that is neither the admin nor the stored
   * minter is refused, anyone else mints through `_safe_mint`.
   */
  function BackendMintBody(c: Contract, auth: set<Address>, caller: Address, to: Address, id: TokenId, amount: u64): (e: Effect)
  {
    if caller !in auth then Effect(c, Authorized(auth, caller))
    else if c.admin.None? then Effect(c, Fail(Panic(AdminNotSet)))
    else if !MayMint(c, caller) then Effect(c, Fail(Error(Unauthorized)))
    else WithStep(c, MintStep(c.ledger, to, id, amount))
  }

  // ---------------------------------------------------------------------------
  // One invocation, as the host runs it.

  datatype Call =
    | Initialize(admin: Address)
    | BuyCollectible(buyer: Address, id: TokenId, amount: u64)
    | TransferCall(from: Address, to: Address, id: TokenId, amount: u64)
    | Burn(owner: Address, id: TokenId, amount: u64)
    | SetBackendMinter(newMinter: Address)
    | BackendMint(caller: Address, to: Address, id: TokenId, amount: u64)

  function Body(c: Contract, self: Address, auth: set<Address>, call: Call): Effect {
    match call
    case Initialize(admin) => InitializeBody(c, admin)
    case BuyCollectible(buyer, id, amount) => BuyCollectibleBody(c, auth, buyer, id, amount)
    case TransferCall(from, to, id, amount) => TransferBody(c, auth, from, to, id, amount)
    case Burn(owner, id, amount) => BurnBody(c, auth, owner, id, amount)
    case SetBackendMinter(newMinter) => SetBackendMinterBody(c, self, auth, newMinter)
    case BackendMint(caller, to, id, amount) => BackendMintBody(c, auth, caller, to, id, amount)
  }

  /** The host commits the body's writes only when the invocation succeeds. */
  function Invoke(c: Contract, self: Address, auth: set<Address>, call: Call): (e: Effect)
    ensures e.outcome == Body(c, self, auth, call).outcome
    ensures e.outcome.Fail? ==> e.state == c
    ensures e.outcome.Pass? ==> e.state == Body(c, self, auth, call).state
  {
    var b := Body(c, self, auth, call);
    if b.outcome.Pass? then b else Effect(c, b.outcome)
  }

  /** A freshly deployed contract: no admin, no minter, an empty ledger. */
  function Deployed(): Contract {
    Contract(None, None, Ledger(map[], map[]))
  }

  // ---------------------------------------------------------------------------
  // Properties of the entry points.

  /** Every body keeps the ledger invariant, including the writes of a failing one. */
  lemma {:induction false} BodyConsistent(c: Contract, self: Address, auth: set<Address>, call: Call)
    requires Consistent(c.ledger)
    ensures Consistent(Body(c, self, auth, call).state.ledger)
  {
    match call
    case Initialize(_) =>
    case BuyCollectible(buyer, id, amount) => MintConsistent(c.ledger, buyer, id, amount);
    case TransferCall(from, to, id, amount) => TransferConsistent(c.ledger, from, to, id, amount);
    case Burn(owner, id, amount) => BurnConsistent(c.ledger, owner, id, amount);
    case SetBackendMinter(_) =>
    case BackendMint(_, to, id, amount) => MintConsistent(c.ledger, to, id, amount);
  }

  /** Every invocation, successful or not, keeps the ledger invariant. */
  lemma InvokeConsistent(c: Contract, self: Address, auth: set<Address>, call: Call)
    requires Consistent(c.ledger)
    ensures Consistent(Invoke(c, self, auth, call).state.ledger)
  {
    BodyConsistent(c, self, auth, call);
  }

  /** Any sequence of invocations from deployment on keeps the ledger invariant. */
  lemma {:induction false} RunConsistent(self: Address, auths: seq<set<Address>>, calls: seq<Call>)
    requires |auths| == |calls|
    ensures Consistent(Run(Deployed(), self, auths, calls).ledger)
    decreases |calls|
  {
    if calls == [] {
      EmptyConsistent();
    } else {
      var n := |calls| - 1;
      RunConsistent(self, auths[..n], calls[..n]);
      InvokeConsistent(Run(Deployed(), self, auths[..n], calls[..n]), self, auths[n], calls[n]);
    }
  }

  /** The state after the invocations `calls`, each signed by the matching set of `auths`. */
  function Run(c: Contract, self: Address, auths: seq<set<Address>>, calls: seq<Call>): Contract
    requires |auths| == |calls|
    decreases |calls|
  {
    if calls == [] then c
    else
      var n := |calls| - 1;
      Invoke(Run(c, self, auths[..n], calls[..n]), self, auths[n], calls[n]).state
  }

  /** Once an admin is stored, no invocation replaces or removes it. */
  lemma AdminFixed(c: Contract, self: Address, auth: set<Address>, call: Call)
    requires c.admin.Some?
    ensures Invoke(c, self, auth, call).state.admin == c.admin
  {
  }

  /** A second `initialize` fails with `AlreadyInitialized` and changes nothing. */
  lemma InitializeOnce(c: Contract, self: Address, auth: set<Address>, a: Address, b: Address)
    requires c.admin.None?
    ensures var c' := Invoke(c, self, auth, Initialize(a)).state;
      && c'.admin == Some(a)
      && Invoke(c', self, auth, Initialize(b)) == Effect(c', Fail(Error(AlreadyInitialized)))
  {
  }

  /**
   * `backend_mint` succeeds only for a signing caller that is the stored
   * admin or the stored minter, and then does exactly what `_safe_mint` does.
   */
  lemma BackendMintAuthorized(c: Contract, self: Address, auth: set<Address>, caller: Address, to: Address, id: TokenId, amount: u64)
    ensures var e := Invoke(c, self, auth, BackendMint(caller, to, id, amount));
      e.outcome.Pass? <==>
        && caller in auth && c.admin.Some? && MayMint(c, caller)
        && MintStep(c.ledger, to, id, amount).outcome.Pass?
    ensures var e := Invoke(c, self, auth, BackendMint(caller, to, id, amount));
      e.outcome.Pass? ==> e.state == c.(ledger := MintStep(c.ledger, to, id, amount).ledger)
    ensures caller in auth && c.admin.Some? && !MayMint(c, caller) ==>
      Invoke(c, self, auth, BackendMint(caller, to, id, amount)) == Effect(c, Fail(Error(Unauthorized)))
  {
  }

  /**
   * `buy_collectible`, `transfer` and `burn` fail unless the holder signed,
   * and otherwise behave exactly as the engine operation.
   */
  lemma HolderCalls(c: Contract, self: Address, auth: set<Address>, from: Address, to: Address, id: TokenId, amount: u64)
    ensures from !in auth ==>
      && Invoke(c, self, auth, BuyCollectible(from, id, amount)) == Effect(c, Fail(Panic(AuthMissing(from))))
      && Invoke(c, self, auth, TransferCall(from, to, id, amount)) == Effect(c, Fail(Panic(AuthMissing(from))))
      && Invoke(c, self, auth, Burn(from, id, amount)) == Effect(c, Fail(Panic(AuthMissing(from))))
    ensures from in auth ==>
      && Body(c, self, auth, BuyCollectible(from, id, amount)) == WithStep(c, MintStep(c.ledger, from, id, amount))
      && Body(c, self, auth, TransferCall(from, to, id, amount)) == WithStep(c, TransferStep(c.ledger, from, to, id, amount))
      && Body(c, self, auth, Burn(from, id, amount)) == WithStep(c, BurnStep(c.ledger, from, id, amount))
  {
  }

  /** No invocation other than `set_backend_minter` changes the minter. */
  lemma MinterOnlySetByAdmin(c: Contract, self: Address, auth: set<Address>, call: Call)
    requires Invoke(c, self, auth, call).state.minter != c.minter
    ensures call.SetBackendMinter? && call.newMinter != self
    ensures c.admin.Some? && c.admin.value in auth
    ensures Invoke(c, self, auth, call).state.minter == Some(call.newMinter)
  {
  }

  // ---------------------------------------------------------------------------
  // The entry points as the source performs them.

  /** `initialize` */
  method InitializeContract(s: Store, admin: Address) returns (r: Outcome<Fault>)
    modifies s`admin
    ensures Effect(StateOf(s), r) == InitializeBody(old(StateOf(s)), admin)
  {
    var present := s.HasAdmin();
    if present {
      return Fail(Error(AlreadyInitialized));
    }
    s.SetAdmin(admin);
    r := Pass;
  }

  /** `buy_collectible` */
  method BuyCollectibleEntry(s: Store, auth: set<Address>, buyer: Address, id: TokenId, amount: u64) returns (r: Outcome<Fault>)
    modifies s`balances, s`owned
    ensures Effect(StateOf(s), r) == BuyCollectibleBody(old(StateOf(s)), auth, buyer, id, amount)
  {
    if buyer !in auth {
      return Fail(Panic(AuthMissing(buyer)));
    }
    r := SafeMint(s, buyer, id, amount);
  }

  /** `transfer` */
  method TransferEntry(s: Store, auth: set<Address>, from: Address, to: Address, id: TokenId, amount: u64) returns (r: Outcome<Fault>)
    modifies s`balances, s`owned
    ensures Effect(StateOf(s), r) == TransferBody(old(StateOf(s)), auth, from, to, id, amount)
  {
    if from !in auth {
      return Fail(Panic(AuthMissing(from)));
    }
    r := SafeTransfer(s, from, to, id, amount);
  }

  /** `burn` */
  method BurnEntry(s: Store, auth: set<Address>, owner: Address, id: TokenId, amount: u64) returns (r: Outcome<Fault>)
    modifies s`balances, s`owned
    ensures Effect(StateOf(s), r) == BurnBody(old(StateOf(s)), auth, owner, id, amount)
  {
    if owner !in auth {
      return Fail(Panic(AuthMissing(owner)));
    }
    r := SafeBurn(s, owner, id, amount);
  }

  /** `balance_of`: a read of the balance record, 0 when there is none. */
  method BalanceOf(s: Store, owner: Address, id: TokenId) returns (b: u64)
    ensures b == Bal(s.balances, owner, id)
    ensures Consistent(s.View()) ==> (b > 0 <==> (owner, id) in s.balances)
    ensures Consistent(s.View()) ==> (b > 0 <==> id in Tokens(s.owned, owner))
  {
    b := s.GetBalance(owner, id);
  }

  /** `tokens_of`: a read of the owner's list, empty when there is none. */
  method TokensOf(s: Store, owner: Address) returns (tokens: seq<TokenId>)
    ensures tokens == Tokens(s.owned, owner)
    ensures Consistent(s.View()) ==> NoDup(tokens) && forall t :: t in tokens <==> Bal(s.balances, owner, t) > 0
  {
    tokens := GetOwnedTokens(s, owner);
  }

  /** `get_backend_minter`: the stored minter, `None` when never set. */
  method GetBackendMinter(s: Store) returns (m: Option<Address>)
    ensures m == s.minter
  {
    m := s.minter;
  }

  /** `set_backend_minter` */
  method SetBackendMinterEntry(s: Store, auth: set<Address>, newMinter: Address) returns (r: Outcome<Fault>)
    modifies s`minter
    ensures Effect(StateOf(s), r) == SetBackendMinterBody(old(StateOf(s)), s.contract, auth, newMinter)
  {
    if newMinter == s.contract {
      return Fail(Error(Unauthorized));
    }
    var admin := s.GetAdmin();
    if admin.None? {
      return Fail(Panic(AdminNotSet));
    }
    if admin.value !in auth {
      return Fail(Panic(AuthMissing(admin.value)));
    }
    s.minter := Some(newMinter);
    r := Pass;
  }

  /** `backend_mint` */
  method BackendMintEntry(s: Store, auth: set<Address>, caller: Address, to: Address, id: TokenId, amount: u64)
    returns (r: Outcome<Fault>)
    modifies s`balances, s`owned
    ensures Effect(StateOf(s), r) == BackendMintBody(old(StateOf(s)), auth, caller, to, id, amount)
  {
    if caller !in auth {
      return Fail(Panic(AuthMissing(caller)));
    }
    var admin := s.GetAdmin();
    if admin.None? {
      return Fail(Panic(AdminNotSet));
    }
    var minter := s.minter;
    var isAdmin := caller == admin.value;
    var isMinter := minter.Some? && Some(caller) == minter;
    if !(isAdmin || isMinter) {
      return Fail(Error(Unauthorized));
    }
    r := SafeMint(s, to, id, amount);
  }
}
