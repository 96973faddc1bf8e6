/**
 * The fungible TYC token (tycoon-token/src/lib.rs): an admin, a total supply,
 * `i128` balances and `i128` allowances keyed by (owner, spender).
 *
 * Every failure of this contract is a host panic. `require_auth` is modelled
 * by the set `auth` of addresses that signed the invocation. The `i128`
 * arithmetic is checked: `checked_add(..).expect(..)` panics with its message
 * and the unchecked `supply - amount` of `burn`/`burn_from` panics on overflow.
 *
 * Each entry point is given as a function of the token state (`...Body`,
 * what the body leaves in storage and what it returns) and as a method of
 * `TokenStore` proved equal to it. Several bodies write before they can still
 * panic; `Invoke` adds what the host does with a panic: it commits nothing.
 */
module Token {
  import opened Wrappers
  import opened Ints
  import opened MapSum

  /** The panic messages of the contract, and the host's own panics. */
  datatype TokenPanic =
    | AlreadyInitialized        // "Already initialized"
    | NotInitialized            // `unwrap` of an absent Admin or TotalSupply record
    | AuthMissing(who: Address) // `require_auth` of an address that did not sign
    | AmountNotPositive         // "Amount must be positive"
    | NegativeAmount            // "Amount cannot be negative"
    | InsufficientBalance       // "Insufficient balance"
    | InsufficientAllowance     // "Insufficient allowance"
    | BalanceOverflow           // "Balance overflow"
    | SupplyOverflow            // "Supply overflow"
    | SupplyUnderflow           // the unchecked `supply - amount` leaving the `i128` range

  type AllowanceKey = (Address, Address)

  /** The records of the contract (`DataKey`). */
  datatype TokenState = TokenState(
    initialized: bool,
    admin: Option<Address>,
    supply: Option<i128>,
    balances: map<Address, i128>,
    allowances: map<AllowanceKey, i128>)

  /** What an entry point's body leaves in storage, and what it returns. */
  datatype TokenEffect = TokenEffect(state: TokenState, outcome: Outcome<TokenPanic>)

  const DECIMALS: u32 := 18
  const NAME: string := "Tycoon"
  const SYMBOL: string := "TYC"

  /** `balance`: the stored balance, 0 when there is no record. */
  function BalanceIn(m: map<Address, i128>, a: Address): (r: i128)
    ensures r == Get(m, a)
    ensures a !in m ==> r == 0
  {
    if a in m then m[a] else 0
  }

  /** `allowance`: the stored allowance, 0 when there is no record. */
  function AllowanceIn(m: map<AllowanceKey, i128>, from: Address, spender: Address): (r: i128)
    ensures (from, spender) !in m ==> r == 0
    ensures (from, spender) in m ==> r == m[(from, spender)]
  {
    if (from, spender) in m then m[(from, spender)] else 0
  }

  /** `total_supply`: the stored supply, 0 before `initialize`. */
  function TotalSupply(t: TokenState): (r: i128)
    ensures t.supply.Some? ==> r == t.supply.value
    ensures t.supply.None? ==> r == 0
  {
    t.supply.GetOr(0)
  }

  /**
   * The token invariant: the three instance records are set together, no
   * balance exists before `initialize`, and the total supply is the sum of
   * all balances.
   */
  ghost predicate Valid(t: TokenState) {
    && (t.initialized <==> t.admin.Some?)
    && (t.initialized <==> t.supply.Some?)
    && (!t.initialized ==> t.balances == map[])
    && TotalSupply(t) == Sum(t.balances)
  }

  function Fails(t: TokenState, p: TokenPanic): (e: TokenEffect)
    ensures e.state == t && e.outcome == Fail(p)
  {
    TokenEffect(t, Fail(p))
  }

  // ---------------------------------------------------------------------------
  // The bodies as functions.

  /** `initialize`: once only; stores the admin and gives it the whole initial supply. */
  function InitializeBody(t: TokenState, admin: Address, initialSupply: i128): (e: TokenEffect)
    ensures t.initialized ==> e == Fails(t, AlreadyInitialized)
    ensures !t.initialized ==> e.outcome.Pass?
  {
    if t.initialized then Fails(t, AlreadyInitialized)
    else TokenEffect(t.(initialized := true, admin := Some(admin), supply := Some(initialSupply),
                        balances := t.balances[admin := initialSupply]), Pass)
  }

  /**
   * `mint`: the admin signs, the amount is positive, the receiver's balance
   * grows (checked) and is written, then the supply grows (checked). A
   * supply overflow panics after the balance was written.
   */
  function MintBody(t: TokenState, auth: set<Address>, to: Address, amount: i128): (e: TokenEffect)
    ensures amount <= 0 ==> e.outcome.Fail? && e.state == t
    ensures e.outcome.Pass? <==>
      (t.admin.Some? && t.admin.value in auth && amount > 0 &&
       BalanceIn(t.balances, to) + amount <= I128_MAX &&
       t.supply.Some? && t.supply.value + amount <= I128_MAX)
  {
    if t.admin.None? then Fails(t, NotInitialized)
    else if t.admin.value !in auth then Fails(t, AuthMissing(t.admin.value))
    else if amount <= 0 then Fails(t, AmountNotPositive)
    else
      var b := BalanceIn(t.balances, to);
      if b + amount > I128_MAX then Fails(t, BalanceOverflow)
      else
        var t1 := t.(balances := t.balances[to := b + amount]);
        if t.supply.None? then Fails(t1, NotInitialized)
        else if t.supply.value + amount > I128_MAX then Fails(t1, SupplyOverflow)
        else TokenEffect(t1.(supply := Some(t.supply.value + amount)), Pass)
  }

  /** `set_admin`: the current admin signs and is replaced. */
  function SetAdminBody(t: TokenState, auth: set<Address>, newAdmin: Address): (e: TokenEffect)
    ensures e.outcome.Pass? <==> t.admin.Some? && t.admin.value in auth
    ensures e.outcome.Pass? ==> e.state == t.(admin := Some(newAdmin))
    ensures e.outcome.Fail? ==> e.state == t
  {
    if t.admin.None? then Fails(t, NotInitialized)
    else if t.admin.value !in auth then Fails(t, AuthMissing(t.admin.value))
    else TokenEffect(t.(admin := Some(newAdmin)), Pass)
  }

  /** `approve`: the owner signs; a non-negative amount overwrites the allowance. */
  function ApproveBody(t: TokenState, auth: set<Address>, from: Address, spender: Address, amount: i128): (e: TokenEffect)
    ensures e.outcome.Pass? <==> from in auth && amount >= 0
    ensures e.outcome.Pass? ==> e.state == t.(allowances := t.allowances[(from, spender) := amount])
    ensures e.outcome.Fail? ==> e.state == t
  {
    if from !in auth then Fails(t, AuthMissing(from))
    else if amount < 0 then Fails(t, NegativeAmount)
    else TokenEffect(t.(allowances := t.allowances[(from, spender) := amount]), Pass)
  }

  /**
   * The balance moves shared by `transfer` and `transfer_from`, for a
   * positive amount: the sender must hold it, the sender's balance is written,
   * then the receiver's grows (checked). A receiver overflow panics after the
   * sender was debited.
   */
  function Move(t: TokenState, from: Address, to: Address, amount: i128): (e: TokenEffect)
    requires amount > 0
    ensures BalanceIn(t.balances, from) < amount ==> e == Fails(t, InsufficientBalance)
  {
    var fb := BalanceIn(t.balances, from);
    if fb < amount then Fails(t, InsufficientBalance)
    else
      var t1 := t.(balances := t.balances[from := fb - amount]);
      var tb := BalanceIn(t1.balances, to);
      if tb + amount > I128_MAX then Fails(t1, BalanceOverflow)
      else TokenEffect(t1.(balances := t1.balances[to := tb + amount]), Pass)
  }

  /** `transfer`: the sender signs; negative amounts panic and 0 returns at once. */
  function TransferBody(t: TokenState, auth: set<Address>, from: Address, to: Address, amount: i128): (e: TokenEffect)
    ensures from in auth && amount == 0 ==> e == TokenEffect(t, Pass)
    ensures from in auth && amount < 0 ==> e == Fails(t, NegativeAmount)
    ensures e.outcome.Pass? <==>
      (from in auth &&
       (amount == 0 ||
        (0 < amount <= BalanceIn(t.balances, from) &&
         BalanceIn(t.balances[from := BalanceIn(t.balances, from) - amount], to) + amount <= I128_MAX)))
  {
    if from !in auth then Fails(t, AuthMissing(from))
    else if amount < 0 then Fails(t, NegativeAmount)
    else if amount == 0 then TokenEffect(t, Pass)
    else Move(t, from, to, amount)
  }

  /** Spends `amount` of the allowance of `spender` over `from`'s balance; the write comes first. */
  function Spend(t: TokenState, from: Address, spender: Address, amount: i128): (e: TokenEffect)
    requires amount > 0
    ensures AllowanceIn(t.allowances, from, spender) < amount <==> e.outcome.Fail?
    ensures e.outcome.Fail? ==> e == Fails(t, InsufficientAllowance)
  {
    var a := AllowanceIn(t.allowances, from, spender);
    if a < amount then Fails(t, InsufficientAllowance)
    else TokenEffect(t.(allowances := t.allowances[(from, spender) := a - amount]), Pass)
  }

  /**
   * `transfer_from`: the spender signs; negative amounts panic and 0 returns
   * at once; the allowance is checked and written down before the balance
   * check, so a balance panic follows an allowance write.
   */
  function TransferFromBody(t: TokenState, auth: set<Address>, spender: Address, from: Address, to: Address, amount: i128): (e: TokenEffect)
    ensures spender in auth && amount == 0 ==> e == TokenEffect(t, Pass)
    ensures spender in auth && amount < 0 ==> e == Fails(t, NegativeAmount)
    ensures e.outcome.Pass? <==>
      (spender in auth &&
       (amount == 0 ||
        (0 < amount <= AllowanceIn(t.allowances, from, spender) &&
         amount <= BalanceIn(t.balances, from) &&
         BalanceIn(t.balances[from := BalanceIn(t.balances, from) - amount], to) + amount <= I128_MAX)))
  {
    if spender !in auth then Fails(t, AuthMissing(spender))
    else if amount < 0 then Fails(t, NegativeAmount)
    else if amount == 0 then TokenEffect(t, Pass)
    else
      var s := Spend(t, from, spender, amount);
      if s.outcome.Fail? then s else Move(s.state, from, to, amount)
  }

  /**
   * The balance and supply writes shared by `burn` and `burn_from`, for a
   * positive amount: the holder must hold it, its balance is written, then
   * the supply shrinks.
   */
  function Destroy(t: TokenState, from: Address, amount: i128): (e: TokenEffect)
    requires amount > 0
    ensures BalanceIn(t.balances, from) < amount ==> e == Fails(t, InsufficientBalance)
  {
    var b := BalanceIn(t.balances, from);
    if b < amount then Fails(t, InsufficientBalance)
    else
      var t1 := t.(balances := t.balances[from := b - amount]);
      if t.supply.None? then Fails(t1, NotInitialized)
      else if t.supply.value - amount < I128_MIN then Fails(t1, SupplyUnderflow)
      else TokenEffect(t1.(supply := Some(t.supply.value - amount)), Pass)
  }

  /** `burn`: the holder signs; the amount must be positive. */
  function BurnBody(t: TokenState, auth: set<Address>, from: Address, amount: i128): (e: TokenEffect)
    ensures amount <= 0 ==> e.outcome.Fail? && e.state == t
    ensures e.outcome.Pass? <==>
      (from in auth && 0 < amount <= BalanceIn(t.balances, from) &&
       t.supply.Some? && t.supply.value - amount >= I128_MIN)
  {
    if from !in auth then Fails(t, AuthMissing(from))
    else if amount <= 0 then Fails(t, AmountNotPositive)
    else Destroy(t, from, amount)
  }

  /** `burn_from`: the spender signs; the allowance is spent before the balance check. */
  function BurnFromBody(t: TokenState, auth: set<Address>, spender: Address, from: Address, amount: i128): (e: TokenEffect)
    ensures amount <= 0 ==> e.outcome.Fail? && e.state == t
    ensures e.outcome.Pass? <==>
      (spender in auth && 0 < amount <= AllowanceIn(t.allowances, from, spender) &&
       amount <= BalanceIn(t.balances, from) &&
       t.supply.Some? && t.supply.value - amount >= I128_MIN)
  {
    if spender !in auth then Fails(t, AuthMissing(spender))
    else if amount <= 0 then Fails(t, AmountNotPositive)
    else
      var s := Spend(t, from, spender, amount);
      if s.outcome.Fail? then s else Destroy(s.state, from, amount)
  }

  // ---------------------------------------------------------------------------
  // One invocation, as the host runs it.

  datatype TokenCall =
    | Initialize(admin: Address, initialSupply: i128)
    | Mint(to: Address, amount: i128)
    | SetAdmin(newAdmin: Address)
    | Approve(from: Address, spender: Address, amount: i128, expirationLedger: u32)
    | Transfer(from: Address, to: Address, amount: i128)
    | TransferFrom(spender: Address, from: Address, to: Address, amount: i128)
    | Burn(from: Address, amount: i128)
    | BurnFrom(spender: Address, from: Address, amount: i128)

  function Body(t: TokenState, auth: set<Address>, call: TokenCall): TokenEffect {
    match call
    case Initialize(admin, initialSupply) => InitializeBody(t, admin, initialSupply)
    case Mint(to, amount) => MintBody(t, auth, to, amount)
    case SetAdmin(newAdmin) => SetAdminBody(t, auth, newAdmin)
    case Approve(from, spender, amount, _) => ApproveBody(t, auth, from, spender, amount)
    case Transfer(from, to, amount) => TransferBody(t, auth, from, to, amount)
    case TransferFrom(spender, from, to, amount) => TransferFromBody(t, auth, spender, from, to, amount)
    case Burn(from, amount) => BurnBody(t, auth, from, amount)
    case BurnFrom(spender, from, amount) => BurnFromBody(t, auth, spender, from, amount)
  }

  /** The host commits the body's writes only when the invocation does not panic. */
  function Invoke(t: TokenState, auth: set<Address>, call: TokenCall): (e: TokenEffect)
    ensures e.outcome == Body(t, auth, call).outcome
    ensures e.outcome.Fail? ==> e.state == t
    ensures e.outcome.Pass? ==> e.state == Body(t, auth, call).state
  {
    var b := Body(t, auth, call);
    if b.outcome.Pass? then b else TokenEffect(t, b.outcome)
  }

  /** A freshly deployed token: no record at all. */
  function Deployed(): TokenState {
    TokenState(false, None, None, map[], map[])
  }

  // ---------------------------------------------------------------------------
  // Supply is the sum of the balances.

  lemma DeployedValid()
    ensures Valid(Deployed())
  {
  }

  lemma InitializeValid(t: TokenState, admin: Address, initialSupply: i128)
    requires Valid(t)
    ensures Valid(Invoke(t, {}, Initialize(admin, initialSupply)).state)
  {
    if !t.initialized {
      SumUpdate(t.balances, admin, initialSupply);
    }
  }

  lemma MintValid(t: TokenState, auth: set<Address>, to: Address, amount: i128)
    requires Valid(t)
    ensures Valid(Invoke(t, auth, Mint(to, amount)).state)
  {
    var e := MintBody(t, auth, to, amount);
    if e.outcome.Pass? {
      var b := BalanceIn(t.balances, to);
      assert e.state.balances == t.balances[to := b + amount];
      SumUpdate(t.balances, to, b + amount);
    }
  }

  lemma MoveSum(t: TokenState, from: Address, to: Address, amount: i128)
    requires amount > 0
    requires Move(t, from, to, amount).outcome.Pass?
    ensures Sum(Move(t, from, to, amount).state.balances) == Sum(t.balances)
  {
    var fb := BalanceIn(t.balances, from);
    var m1 := t.balances[from := fb - amount];
    assert Move(t, from, to, amount).state.balances == m1[to := BalanceIn(m1, to) + amount];
    SumMove(t.balances, from, to, amount);
  }

  lemma DestroySum(t: TokenState, from: Address, amount: i128)
    requires amount > 0
    requires Destroy(t, from, amount).outcome.Pass?
    ensures Sum(Destroy(t, from, amount).state.balances) == Sum(t.balances) - amount
  {
    var b := BalanceIn(t.balances, from);
    assert Destroy(t, from, amount).state.balances == t.balances[from := b - amount];
    SumUpdate(t.balances, from, b - amount);
  }

  /** A balance record exists only after `initialize`, so an uninitialized holder has nothing to move. */
  lemma MoveValid(t: TokenState, from: Address, to: Address, amount: i128)
    requires Valid(t) && amount > 0
    ensures Move(t, from, to, amount).outcome.Pass? ==> Valid(Move(t, from, to, amount).state)
  {
    if Move(t, from, to, amount).outcome.Pass? {
      MoveSum(t, from, to, amount);
    }
  }

  lemma DestroyValid(t: TokenState, from: Address, amount: i128)
    requires Valid(t) && amount > 0
    ensures Destroy(t, from, amount).outcome.Pass? ==> Valid(Destroy(t, from, amount).state)
  {
    if Destroy(t, from, amount).outcome.Pass? {
      DestroySum(t, from, amount);
    }
  }

  /** Every invocation, successful or not, keeps the supply equal to the sum of the balances. */
  lemma {:induction false} InvokeValid(t: TokenState, auth: set<Address>, call: TokenCall)
    requires Valid(t)
    ensures Valid(Invoke(t, auth, call).state)
  {
    match call
    case Initialize(admin, initialSupply) => InitializeValid(t, admin, initialSupply);
    case Mint(to, amount) => MintValid(t, auth, to, amount);
    case SetAdmin(_) =>
    case Approve(_, _, _, _) =>
    case Transfer(from, to, amount) =>
      if from in auth && amount > 0 { MoveValid(t, from, to, amount); }
    case TransferFrom(spender, from, to, amount) =>
      if spender in auth && amount > 0 {
        var s := Spend(t, from, spender, amount);
        if s.outcome.Pass? { MoveValid(s.state, from, to, amount); }
      }
    case Burn(from, amount) =>
      if from in auth && amount > 0 { DestroyValid(t, from, amount); }
    case BurnFrom(spender, from, amount) =>
      if spender in auth && amount > 0 {
        var s := Spend(t, from, spender, amount);
        if s.outcome.Pass? { DestroyValid(s.state, from, amount); }
      }
  }

  /**
   * The rollback matters: a `mint` whose supply update overflows has
   * already written the grown balance, which no longer matches the supply.
   */
  lemma MintOverflowWritesBalance(t: TokenState, auth: set<Address>, to: Address, amount: i128)
    requires Valid(t)
    requires MintBody(t, auth, to, amount).outcome == Fail(SupplyOverflow)
    ensures Sum(MintBody(t, auth, to, amount).state.balances) == TotalSupply(t) + amount
    ensures !Valid(MintBody(t, auth, to, amount).state)
    ensures Invoke(t, auth, Mint(to, amount)).state == t
  {
    SumUpdate(t.balances, to, BalanceIn(t.balances, to) + amount);
  }

  // ---------------------------------------------------------------------------
  // What each successful call does.

  /** `initialize` runs once: the admin holds the whole initial supply; a second call panics. */
  lemma InitializeOnce(t: TokenState, auth: set<Address>, admin: Address, initialSupply: i128, call2: TokenCall)
    requires Valid(t) && !t.initialized
    requires call2.Initialize?
    ensures var t' := Invoke(t, auth, Initialize(admin, initialSupply)).state;
      && t'.admin == Some(admin)
      && BalanceIn(t'.balances, admin) == initialSupply
      && TotalSupply(t') == initialSupply
      && Invoke(t', auth, call2) == Fails(t', AlreadyInitialized)
  {
  }

  /** A successful `mint` adds `amount` to the receiver and to the supply, and to nothing else. */
  lemma MintEffect(t: TokenState, auth: set<Address>, to: Address, amount: i128)
    requires Invoke(t, auth, Mint(to, amount)).outcome.Pass?
    ensures var t' := Invoke(t, auth, Mint(to, amount)).state;
      && amount > 0 && t.admin.Some? && t.admin.value in auth
      && BalanceIn(t'.balances, to) == BalanceIn(t.balances, to) + amount
      && TotalSupply(t') == TotalSupply(t) + amount
      && (forall a :: a != to ==> BalanceIn(t'.balances, a) == BalanceIn(t.balances, a))
      && t'.allowances == t.allowances && t'.admin == t.admin
  {
  }

  /**
   * A successful `transfer` between two distinct holders moves `amount`;
   * the supply, the allowances and every other balance stay as they were.
   */
  lemma TransferEffect(t: TokenState, auth: set<Address>, from: Address, to: Address, amount: i128)
    requires from != to
    requires Invoke(t, auth, Transfer(from, to, amount)).outcome.Pass?
    ensures var t' := Invoke(t, auth, Transfer(from, to, amount)).state;
      && BalanceIn(t'.balances, from) == BalanceIn(t.balances, from) - amount
      && BalanceIn(t'.balances, to) == BalanceIn(t.balances, to) + amount
      && (forall a :: a != from && a != to ==> BalanceIn(t'.balances, a) == BalanceIn(t.balances, a))
      && t'.supply == t.supply && t'.allowances == t.allowances
  {
  }

  /** A self-transfer that succeeds changes no balance. */
  lemma SelfTransferNetZero(t: TokenState, auth: set<Address>, a: Address, amount: i128)
    requires Invoke(t, auth, Transfer(a, a, amount)).outcome.Pass?
    ensures forall x :: BalanceIn(Invoke(t, auth, Transfer(a, a, amount)).state.balances, x) == BalanceIn(t.balances, x)
  {
  }

  /** `transfer` panics with "Insufficient balance" when the sender holds less than a positive amount. */
  lemma TransferOverdraft(t: TokenState, auth: set<Address>, from: Address, to: Address, amount: i128)
    requires from in auth && 0 < amount && BalanceIn(t.balances, from) < amount
    ensures Invoke(t, auth, Transfer(from, to, amount)) == Fails(t, InsufficientBalance)
  {
  }

  /**
   * `transfer_from`: an allowance below a positive amount panics with
   * "Insufficient allowance"; a success lowers the allowance by exactly
   * `amount` and moves `amount` between two distinct holders.
   */
  lemma TransferFromEffect(t: TokenState, auth: set<Address>, spender: Address, from: Address, to: Address, amount: i128)
    requires spender in auth && amount > 0
    ensures AllowanceIn(t.allowances, from, spender) < amount ==>
      Invoke(t, auth, TransferFrom(spender, from, to, amount)) == Fails(t, InsufficientAllowance)
    ensures var t' := Invoke(t, auth, TransferFrom(spender, from, to, amount)).state;
      Invoke(t, auth, TransferFrom(spender, from, to, amount)).outcome.Pass? ==>
        && AllowanceIn(t'.allowances, from, spender) == AllowanceIn(t.allowances, from, spender) - amount
        && (forall f, s :: (f, s) != (from, spender) ==> AllowanceIn(t'.allowances, f, s) == AllowanceIn(t.allowances, f, s))
        && (from != to ==> BalanceIn(t'.balances, from) == BalanceIn(t.balances, from) - amount)
        && (from != to ==> BalanceIn(t'.balances, to) == BalanceIn(t.balances, to) + amount)
        && (forall a :: a != from && a != to ==> BalanceIn(t'.balances, a) == BalanceIn(t.balances, a))
        && t'.supply == t.supply
  {
  }

  /** A successful `burn` takes `amount` off the holder and off the supply. */
  lemma BurnEffect(t: TokenState, auth: set<Address>, from: Address, amount: i128)
    requires Invoke(t, auth, Burn(from, amount)).outcome.Pass?
    ensures var t' := Invoke(t, auth, Burn(from, amount)).state;
      && 0 < amount <= BalanceIn(t.balances, from)
      && BalanceIn(t'.balances, from) == BalanceIn(t.balances, from) - amount
      && TotalSupply(t') == TotalSupply(t) - amount
      && (forall a :: a != from ==> BalanceIn(t'.balances, a) == BalanceIn(t.balances, a))
      && t'.allowances == t.allowances
  {
  }

  /**
   * `burn_from`: an allowance below a positive amount panics; an allowance
   * that covers it but a balance that does not panics too, after the
   * allowance write, which the rollback undoes; a success lowers the
   * allowance, the holder's balance and the supply by `amount` and nothing else.
   */
  lemma BurnFromEffect(t: TokenState, auth: set<Address>, spender: Address, from: Address, amount: i128)
    requires spender in auth && amount > 0
    ensures AllowanceIn(t.allowances, from, spender) < amount ==>
      Invoke(t, auth, BurnFrom(spender, from, amount)) == Fails(t, InsufficientAllowance)
    ensures amount <= AllowanceIn(t.allowances, from, spender) && BalanceIn(t.balances, from) < amount ==>
      Invoke(t, auth, BurnFrom(spender, from, amount)) == Fails(t, InsufficientBalance)
    ensures var t' := Invoke(t, auth, BurnFrom(spender, from, amount)).state;
      Invoke(t, auth, BurnFrom(spender, from, amount)).outcome.Pass? ==>
        && AllowanceIn(t'.allowances, from, spender) == AllowanceIn(t.allowances, from, spender) - amount
        && (forall f, s :: (f, s) != (from, spender) ==> AllowanceIn(t'.allowances, f, s) == AllowanceIn(t.allowances, f, s))
        && BalanceIn(t'.balances, from) == BalanceIn(t.balances, from) - amount
        && (forall a :: a != from ==> BalanceIn(t'.balances, a) == BalanceIn(t.balances, a))
        && TotalSupply(t') == TotalSupply(t) - amount
  {
  }

  /** `approve` overwrites the allowance, whatever it was; a later `allowance` reads it back. */
  lemma ApproveOverwrites(t: TokenState, auth: set<Address>, from: Address, spender: Address, a1: i128, a2: i128, x: u32)
    requires from in auth && a1 >= 0 && a2 >= 0
    ensures var t1 := Invoke(t, auth, Approve(from, spender, a1, x)).state;
      var t2 := Invoke(t1, auth, Approve(from, spender, a2, x)).state;
      && AllowanceIn(t1.allowances, from, spender) == a1
      && AllowanceIn(t2.allowances, from, spender) == a2
      && t2.balances == t.balances
  {
  }

  // ---------------------------------------------------------------------------
  // The contract's storage and entry points as the source performs them.

  class TokenStore {
    var initialized: bool
    var admin: Option<Address>
    var supply: Option<i128>
    var balances: map<Address, i128>
    var allowances: map<AllowanceKey, i128>

    /** A freshly deployed token: no record at all. */
    constructor()
      ensures View() == Deployed()
    {
      initialized, admin, supply := false, None, None;
      balances, allowances := map[], map[];
    }

    function View(): TokenState
      reads this
    {
      TokenState(initialized, admin, supply, balances, allowances)
    }

    /** `initialize` */
    method Initialize(a: Address, initialSupply: i128) returns (r: Outcome<TokenPanic>)
      modifies this
      ensures TokenEffect(View(), r) == InitializeBody(old(View()), a, initialSupply)
    {
      if initialized {
        return Fail(AlreadyInitialized);
      }
      initialized := true;
      admin := Some(a);
      supply := Some(initialSupply);
      balances := balances[a := initialSupply];
      r := Pass;
    }

    /** `mint` */
    method Mint(auth: set<Address>, to: Address, amount: i128) returns (r: Outcome<TokenPanic>)
      modifies this
      ensures TokenEffect(View(), r) == MintBody(old(View()), auth, to, amount)
    {
      if admin.None? {
        return Fail(NotInitialized);
      }
      if admin.value !in auth {
        return Fail(AuthMissing(admin.value));
      }
      if amount <= 0 {
        return Fail(AmountNotPositive);
      }
      var balance := Balance(to);
      if balance + amount > I128_MAX {
        return Fail(BalanceOverflow);
      }
      balances := balances[to := balance + amount];
      if supply.None? {
        return Fail(NotInitialized);
      }
      if supply.value + amount > I128_MAX {
        return Fail(SupplyOverflow);
      }
      supply := Some(supply.value + amount);
      r := Pass;
    }

    /** `set_admin` */
    method SetAdmin(auth: set<Address>, newAdmin: Address) returns (r: Outcome<TokenPanic>)
      modifies this
      ensures TokenEffect(View(), r) == SetAdminBody(old(View()), auth, newAdmin)
    {
      if admin.None? {
        return Fail(NotInitialized);
      }
      if admin.value !in auth {
        return Fail(AuthMissing(admin.value));
      }
      admin := Some(newAdmin);
      r := Pass;
    }

    /** `admin`: the `unwrap` panics before `initialize`. */
    method Admin() returns (r: Result<Address, TokenPanic>)
      ensures admin.Some? ==> r == Success(admin.value)
      ensures admin.None? ==> r == Failure(NotInitialized)
    {
      r := if admin.Some? then Success(admin.value) else Failure(NotInitialized);
    }

    /** `total_supply` */
    method GetTotalSupply() returns (s: i128)
      ensures s == TotalSupply(View())
      ensures Valid(View()) ==> s == Sum(balances)
    {
      s := if supply.Some? then supply.value else 0;
    }

    /** `allowance` */
    method Allowance(from: Address, spender: Address) returns (a: i128)
      ensures a == AllowanceIn(allowances, from, spender)
    {
      a := if (from, spender) in allowances then allowances[(from, spender)] else 0;
    }

    /** `balance` */
    method Balance(id: Address) returns (b: i128)
      ensures b == BalanceIn(balances, id)
    {
      b := if id in balances then balances[id] else 0;
    }

    /** `approve`; the expiration ledger is only published in the event. */
    method Approve(auth: set<Address>, from: Address, spender: Address, amount: i128, expirationLedger: u32)
      returns (r: Outcome<TokenPanic>)
      modifies this
      ensures TokenEffect(View(), r) == ApproveBody(old(View()), auth, from, spender, amount)
    {
      if from !in auth {
        return Fail(AuthMissing(from));
      }
      if amount < 0 {
        return Fail(NegativeAmount);
      }
      allowances := allowances[(from, spender) := amount];
      r := Pass;
    }

    /** The balance moves shared by `transfer` and `transfer_from`. */
    method MoveBalance(from: Address, to: Address, amount: i128) returns (r: Outcome<TokenPanic>)
      requires amount > 0
      modifies this
      ensures TokenEffect(View(), r) == Move(old(View()), from, to, amount)
    {
      var fromBalance := Balance(from);
      if fromBalance < amount {
        return Fail(InsufficientBalance);
      }
      balances := balances[from := fromBalance - amount];
      var toBalance := Balance(to);
      if toBalance + amount > I128_MAX {
        return Fail(BalanceOverflow);
      }
      balances := balances[to := toBalance + amount];
      r := Pass;
    }

    /** The allowance check and write shared by `transfer_from` and `burn_from`. */
    method SpendAllowance(from: Address, spender: Address, amount: i128) returns (r: Outcome<TokenPanic>)
      requires amount > 0
      modifies this
      ensures TokenEffect(View(), r) == Spend(old(View()), from, spender, amount)
    {
      var allowance := Allowance(from, spender);
      if allowance < amount {
        return Fail(InsufficientAllowance);
      }
      allowances := allowances[(from, spender) := allowance - amount];
      r := Pass;
    }

    /** The balance and supply writes shared by `burn` and `burn_from`. */
    method DestroyBalance(from: Address, amount: i128) returns (r: Outcome<TokenPanic>)
      requires amount > 0
      modifies this
      ensures TokenEffect(View(), r) == Destroy(old(View()), from, amount)
    {
      var balance := Balance(from);
      if balance < amount {
        return Fail(InsufficientBalance);
      }
      balances := balances[from := balance - amount];
      if supply.None? {
        return Fail(NotInitialized);
      }
      if supply.value - amount < I128_MIN {
        return Fail(SupplyUnderflow);
      }
      supply := Some(supply.value - amount);
      r := Pass;
    }

    /** `transfer` */
    method Transfer(auth: set<Address>, from: Address, to: Address, amount: i128) returns (r: Outcome<TokenPanic>)
      modifies this
      ensures TokenEffect(View(), r) == TransferBody(old(View()), auth, from, to, amount)
    {
      if from !in auth {
        return Fail(AuthMissing(from));
      }
      if amount < 0 {
        return Fail(NegativeAmount);
      }
      if amount == 0 {
        return Pass;
      }
      r := MoveBalance(from, to, amount);
    }

    /** `transfer_from` */
    method TransferFrom(auth: set<Address>, spender: Address, from: Address, to: Address, amount: i128)
      returns (r: Outcome<TokenPanic>)
      modifies this
      ensures TokenEffect(View(), r) == TransferFromBody(old(View()), auth, spender, from, to, amount)
    {
      if spender !in auth {
        return Fail(AuthMissing(spender));
      }
      if amount < 0 {
        return Fail(NegativeAmount);
      }
      if amount == 0 {
        return Pass;
      }
      r := SpendAllowance(from, spender, amount);
      if r.Fail? {
        return;
      }
      r := MoveBalance(from, to, amount);
    }

    /** `burn` */
    method Burn(auth: set<Address>, from: Address, amount: i128) returns (r: Outcome<TokenPanic>)
      modifies this
      ensures TokenEffect(View(), r) == BurnBody(old(View()), auth, from, amount)
    {
      if from !in auth {
        return Fail(AuthMissing(from));
      }
      if amount <= 0 {
        return Fail(AmountNotPositive);
      }
      r := DestroyBalance(from, amount);
    }

    /** `burn_from` */
    method BurnFrom(auth: set<Address>, spender: Address, from: Address, amount: i128) returns (r: Outcome<TokenPanic>)
      modifies this
      ensures TokenEffect(View(), r) == BurnFromBody(old(View()), auth, spender, from, amount)
    {
      if spender !in auth {
        return Fail(AuthMissing(spender));
      }
      if amount <= 0 {
        return Fail(AmountNotPositive);
      }
      r := SpendAllowance(from, spender, amount);
      if r.Fail? {
        return;
      }
      r := DestroyBalance(from, amount);
    }
  }
}
