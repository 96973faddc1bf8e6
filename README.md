# Tycoon: a Dafny model of the on-chain ledgers and the backend's request rules

This project models two parts of the Tycoon game: the Soroban smart contracts that
keep its assets, and the pure rules of the NestJS backend.

**Collectibles contract** (`tycoon-collectibles`). This is a multi-token ledger with:

- a `u64` balance per (owner, token id);
- a list, per owner, of the token ids that owner holds;
- an admin and a backend minter.

Storage is modelled as maps. A record that holds 0 or an empty list is deleted, and an
absent record reads as the default. The engine of mint, burn, transfer and batch
transfer is given twice:

- a function says what each operation leaves in storage and what it returns;
- a method performs the same reads and writes, in the same order as the contract, and
  is proved equal to that function.

The central invariant is `Transfer.Consistent`. It says that:

- no zero balance or empty list is stored;
- every owner's list is free of duplicates;
- every owner's list holds exactly the ids of which that owner has a positive balance.

Every entry point keeps this invariant, even with the partial writes of a failing
invocation. So does any run of invocations from deployment on. `require_auth` is
modelled by the set of addresses that signed the invocation. `Invoke` adds the host's
rule that a failed invocation commits nothing.

**TYC token** (`tycoon-token`). This is an `i128` fungible token with allowances. Each
entry point is a function of the token state and a `TokenStore` method proved equal
to it. The checked additions and the unchecked supply subtraction become explicit
panics. The invariant `Token.Valid` says that the total supply is the sum of all
balances. It is preserved by every invocation. `MintOverflowWritesBalance` shows that
the host's rollback is needed for this.

**Reward system** (`tycoon-reward-system`). This holds the `_mint` and `_burn` balance
helpers. Here a zero amount is a silent no-op, and an emptied balance is kept as an
explicit 0.

**Backend rules**, each modelled on JavaScript values with explicit truthiness:

- the JWT duration parser and its defaults;
- pagination and the chance-card page window;
- the success envelope and the two exception filters;
- the bearer-token guard;
- the Redis fixed-window rate limiter, a class over a counter map;
- the GET response cache, a class over a cache map;
- the logger's in-place redaction of sensitive fields, over heap objects so that
  aliasing is captured;
- the log-level rules.

The removal from an owner's token list follows `enumeration.rs`. `storage.rs` keeps
token-index helpers (`get_token_index`, `set_token_index`, `remove_token_index`) that
nothing calls. `remove_token_from_owner` rebuilds the list in order without the id,
with no swap with the last element. `Enumeration.WithoutAt` states this
order-preserving behaviour.

## Model

| member | source | states |
|---|---|---|
| CollectibleErrors.CollectibleError.Code | contract/contracts/tycoon-collectibles/src/errors.rs:6-15 | every error's discriminant lies in 1..8 |
| CollectibleErrors.CodeInjective | contract/contracts/tycoon-collectibles/src/errors.rs:6-15 | two errors have the same discriminant iff they are the same error |
| CollectiblesStorage.Bal | contract/contracts/tycoon-collectibles/src/storage.rs:24-27 | the stored amount, and 0 when no record exists |
| CollectiblesStorage.Tokens | contract/contracts/tycoon-collectibles/src/storage.rs:40-46 | the stored list of an owner with a record, and the empty list for an owner without one |
| CollectiblesStorage.SetBal | contract/contracts/tycoon-collectibles/src/storage.rs:30-37 | after the write the key reads back the amount; the record exists iff the amount is positive; every other key is unchanged; no zero record is ever stored |
| CollectiblesStorage.StoreList | contract/contracts/tycoon-collectibles/src/storage.rs:49-56 | the list reads back; the record exists iff the list is non-empty; other owners are unchanged; no empty list is stored |
| CollectiblesStorage.Store.constructor | contract/contracts/tycoon-collectibles/src/storage.rs:9-11 | a fresh contract has no admin, no minter and no records |
| CollectiblesStorage.Store.HasAdmin | contract/contracts/tycoon-collectibles/src/storage.rs:9-11 | true iff an admin is stored |
| CollectiblesStorage.Store.SetAdmin | contract/contracts/tycoon-collectibles/src/storage.rs:14-16 | the stored admin becomes the address; nothing else changes |
| CollectiblesStorage.Store.GetAdmin | contract/contracts/tycoon-collectibles/src/storage.rs:19-21 | returns the stored admin (absent means the unwrap panics) |
| CollectiblesStorage.Store.GetBalance | contract/contracts/tycoon-collectibles/src/storage.rs:24-27 | the stored balance, 0 without a record |
| CollectiblesStorage.Store.SetBalance | contract/contracts/tycoon-collectibles/src/storage.rs:30-37 | the balance records become `SetBal` of the old ones |
| CollectiblesStorage.Store.GetOwnedTokensVec | contract/contracts/tycoon-collectibles/src/storage.rs:40-46 | the stored list, empty without a record |
| CollectiblesStorage.Store.SetOwnedTokensVec | contract/contracts/tycoon-collectibles/src/storage.rs:49-56 | the list records become `StoreList` of the old ones |
| CollectiblesStorage.Store.GetTokenIndex | contract/contracts/tycoon-collectibles/src/storage.rs:59-62 | `Some` of the stored index, `None` without a record |
| CollectiblesStorage.Store.SetTokenIndex | contract/contracts/tycoon-collectibles/src/storage.rs:65-68 | the key then holds the index; other keys are unchanged |
| CollectiblesStorage.Store.RemoveTokenIndex | contract/contracts/tycoon-collectibles/src/storage.rs:71-74 | the key no longer has a record; other keys are unchanged |
| CollectiblesStorage.StorageRoundTrips | contract/contracts/tycoon-collectibles/src/storage.rs:24-74 | set-then-get round trips: a balance reads back (its record exists iff it is positive), an empty list deletes its record, an index reads back and then reads `None` after removal |
| Enumeration.Appended | contract/contracts/tycoon-collectibles/src/enumeration.rs:13-17 | the id is appended at the end iff absent; the old list is a prefix; the members are the old ones plus the id; no duplicates are introduced |
| Enumeration.WithoutIsKeep | contract/contracts/tycoon-collectibles/src/enumeration.rs:28-33 | the loop's filter equals an independent front-to-back filter that drops every occurrence of the id |
| Enumeration.WithoutAppend | contract/contracts/tycoon-collectibles/src/enumeration.rs:28-33 | the filter distributes over concatenation |
| Enumeration.WithoutMembers | contract/contracts/tycoon-collectibles/src/enumeration.rs:28-33 | the result holds exactly the old members other than the id |
| Enumeration.WithoutAbsent | contract/contracts/tycoon-collectibles/src/enumeration.rs:28-33 | removing an absent id leaves the list unchanged |
| Enumeration.WithoutNoDup | contract/contracts/tycoon-collectibles/src/enumeration.rs:28-33 | removal keeps a duplicate-free list duplicate-free |
| Enumeration.WithoutAt | contract/contracts/tycoon-collectibles/src/enumeration.rs:28-33 | on a duplicate-free list, removal cuts out that one slot and keeps the order of the rest (no swap-remove) |
| Enumeration.WithoutCut | contract/contracts/tycoon-collectibles/src/enumeration.rs:28-33 | an id occurring once between two parts is cut out, and the parts are joined |
| Enumeration.OnlyAt | contract/contracts/tycoon-collectibles/src/enumeration.rs:14-15 | in a duplicate-free list an element occurs at one position only |
| Enumeration.AddOwned | contract/contracts/tycoon-collectibles/src/enumeration.rs:6-18 | the owner's list becomes `Appended`; other owners' lists are unchanged; no empty list is stored |
| Enumeration.RemoveOwned | contract/contracts/tycoon-collectibles/src/enumeration.rs:21-40 | the owner's list is filtered; its record is deleted iff nothing is left; other owners are unchanged |
| Enumeration.AddTokenToOwner | contract/contracts/tycoon-collectibles/src/enumeration.rs:6-18 | the list records become `AddOwned` of the old ones |
| Enumeration.RemoveTokenFromOwner | contract/contracts/tycoon-collectibles/src/enumeration.rs:21-40 | the loop that rebuilds the list, and the delete-or-store that follows, leave `RemoveOwned` of the old records |
| Enumeration.GetOwnedTokens | contract/contracts/tycoon-collectibles/src/enumeration.rs:43-49 | the stored list, empty for an owner without a record |
| Transfer.EmptyConsistent | contract/contracts/tycoon-collectibles/src/storage.rs:24-46 | the empty ledger of a new contract satisfies the ledger invariant |
| Transfer.Credit | contract/contracts/tycoon-collectibles/src/transfer.rs:38-46 | the receiver side fails iff the `u64` sum overflows, and then it writes nothing |
| Transfer.TransferStep | contract/contracts/tycoon-collectibles/src/transfer.rs:9-52 | amount 0 gives `InvalidAmount` and an overdraft gives `InsufficientBalance`, both with storage unchanged; success iff positive, covered and the receiver sum fits |
| Transfer.MintStep | contract/contracts/tycoon-collectibles/src/transfer.rs:78-105 | amount 0 gives `InvalidAmount`; a failure writes nothing; success iff positive and the sum fits |
| Transfer.BurnStep | contract/contracts/tycoon-collectibles/src/transfer.rs:108-139 | amount 0 gives `InvalidAmount` and an overdraft gives `InsufficientBalance`, unchanged; success iff 0 < amount <= balance |
| Transfer.BatchStep | contract/contracts/tycoon-collectibles/src/transfer.rs:57-75 | vectors of different lengths give `TokenIdMismatch` with storage unchanged |
| Transfer.BatchFromPasses | contract/contracts/tycoon-collectibles/src/transfer.rs:68-74 | the loop from any index passes iff each remaining transfer passes on the ledger the earlier ones left, and then leaves their left fold `Fold` |
| Transfer.BatchFromFails | contract/contracts/tycoon-collectibles/src/transfer.rs:68-72 | the `?` in the loop returns the first failing transfer's result, applied to the fold of the transfers before it |
| Transfer.BatchFromKeepsSupply | contract/contracts/tycoon-collectibles/src/transfer.rs:68-74 | a loop that passes keeps the sum of all balances |
| Transfer.BatchPasses | contract/contracts/tycoon-collectibles/src/transfer.rs:57-75 | a batch of equal-length vectors passes iff every transfer passes in order; its ledger is then the fold of all the transfers and the sum of all balances is unchanged |
| Transfer.BatchStopsAtFirstFailure | contract/contracts/tycoon-collectibles/src/transfer.rs:57-75 | when the first `k` transfers pass and transfer `k` fails, the batch returns that transfer's error and ledger: the first `k` transfers stay written, and so do the partial writes of transfer `k` |
| Transfer.DebitConsistent | contract/contracts/tycoon-collectibles/src/transfer.rs:29-36 | the sender-side writes keep the ledger invariant |
| Transfer.DebitNoDup | contract/contracts/tycoon-collectibles/src/transfer.rs:34-36 | removing from a list keeps every list duplicate-free |
| Transfer.DebitMatch | contract/contracts/tycoon-collectibles/src/transfer.rs:29-36 | debiting a whole balance and removing the id keeps lists matching positive balances |
| Transfer.CreditConsistent | contract/contracts/tycoon-collectibles/src/transfer.rs:38-46 | the receiver-side writes keep the ledger invariant |
| Transfer.CreditNoDup | contract/contracts/tycoon-collectibles/src/transfer.rs:43-46 | adding to a list keeps every list duplicate-free |
| Transfer.CreditMatch | contract/contracts/tycoon-collectibles/src/transfer.rs:38-46 | crediting and adding a first unit keeps lists matching positive balances |
| Transfer.TransferConsistent | contract/contracts/tycoon-collectibles/src/transfer.rs:9-52 | a transfer keeps the ledger invariant whatever it returns, including a receiver overflow after the debit |
| Transfer.MintConsistent | contract/contracts/tycoon-collectibles/src/transfer.rs:78-105 | a mint keeps the ledger invariant |
| Transfer.BurnConsistent | contract/contracts/tycoon-collectibles/src/transfer.rs:108-139 | a burn keeps the ledger invariant |
| Transfer.BatchFromConsistent | contract/contracts/tycoon-collectibles/src/transfer.rs:68-72 | the batch loop keeps the invariant from any index on, also when it stops at a failure |
| Transfer.BatchConsistent | contract/contracts/tycoon-collectibles/src/transfer.rs:57-75 | a batch keeps the ledger invariant |
| Transfer.TransferMovesBalance | contract/contracts/tycoon-collectibles/src/transfer.rs:29-41 | for distinct owners the sender loses the amount, the receiver gains it, and every other balance is unchanged |
| Transfer.TransferKeepsSupply | contract/contracts/tycoon-collectibles/src/transfer.rs:29-41 | a successful transfer keeps the sum of all balances, self-transfers included |
| Transfer.BurnThenMint | contract/contracts/tycoon-collectibles/src/transfer.rs:9-52 | a transfer that passes its checks equals a burn from the sender followed by a mint to the receiver |
| Transfer.SetBalSum | contract/contracts/tycoon-collectibles/src/storage.rs:30-37 | a balance write changes the sum of all balances by the new value minus the old one |
| Transfer.TransferLists | contract/contracts/tycoon-collectibles/src/transfer.rs:33-46 | the sender's id leaves its list iff its balance reaches 0; the receiver's id is appended iff its prior balance was 0; no other list changes |
| Transfer.SelfTransfer | contract/contracts/tycoon-collectibles/src/transfer.rs:22-46 | a self-transfer leaves every balance unchanged; moving the whole balance cuts the id out and re-appends it |
| Transfer.SelfTransferMovesToEnd | contract/contracts/tycoon-collectibles/src/transfer.rs:22-46 | a whole-balance self-transfer moves the id from its position to the end of the list |
| Transfer.MintAddsBalance | contract/contracts/tycoon-collectibles/src/transfer.rs:88-96 | a mint adds the amount to one balance, appends a first unit's id, and leaves other balances unchanged |
| Transfer.MintSupply | contract/contracts/tycoon-collectibles/src/transfer.rs:88-91 | a mint adds the amount to the sum of all balances |
| Transfer.BurnTakesBalance | contract/contracts/tycoon-collectibles/src/transfer.rs:118-130 | a burn takes the amount off one balance, removes an emptied id, and leaves other balances unchanged |
| Transfer.BurnSupply | contract/contracts/tycoon-collectibles/src/transfer.rs:123-125 | a burn takes the amount off the sum of all balances |
| Transfer.MintThenBurn | contract/contracts/tycoon-collectibles/src/transfer.rs:78-139 | minting then burning the same amount restores the ledger exactly, records and lists included |
| Transfer.SetBalTwice | contract/contracts/tycoon-collectibles/src/storage.rs:30-37 | writing a balance and then the old balance restores the records |
| Transfer.AddThenRemove | contract/contracts/tycoon-collectibles/src/enumeration.rs:6-40 | adding an absent id and removing it restores the list records |
| Transfer.DebitSender | contract/contracts/tycoon-collectibles/src/transfer.rs:29-36 | the sender-side writes leave `Debit` of the old ledger |
| Transfer.CreditReceiver | contract/contracts/tycoon-collectibles/src/transfer.rs:38-46 | the receiver-side reads and writes leave `Credit` of the old ledger and return its outcome |
| Transfer.SafeTransfer | contract/contracts/tycoon-collectibles/src/transfer.rs:9-52 | storage and result equal `TransferStep` of the old ledger |
| Transfer.SafeBatchTransfer | contract/contracts/tycoon-collectibles/src/transfer.rs:57-75 | the loop leaves storage and result equal to `BatchStep` of the old ledger |
| Transfer.SafeMint | contract/contracts/tycoon-collectibles/src/transfer.rs:78-105 | storage and result equal `MintStep` of the old ledger |
| Transfer.SafeBurn | contract/contracts/tycoon-collectibles/src/transfer.rs:108-139 | storage and result equal `BurnStep` of the old ledger |
| Collectibles.WithStep | contract/contracts/tycoon-collectibles/src/lib.rs:43 | an engine step changes only the ledger, never the admin or the minter |
| Collectibles.Authorized | contract/contracts/tycoon-collectibles/src/lib.rs:40 | `require_auth` passes iff the address signed |
| Collectibles.InitializeBody | contract/contracts/tycoon-collectibles/src/lib.rs:25-31 | a stored admin gives `AlreadyInitialized` and no change; otherwise the admin is stored |
| Collectibles.SetBackendMinterBody | contract/contracts/tycoon-collectibles/src/lib.rs:87-101 | the contract's own address gives `Unauthorized`; success iff the stored admin signed; then the minter is the new one; the ledger and the admin never change |
| Collectibles.Invoke | contract/contracts/tycoon-collectibles/src/lib.rs:23-126 | a failed invocation commits nothing; a successful one commits the body's writes |
| Collectibles.BodyConsistent | contract/contracts/tycoon-collectibles/src/lib.rs:23-126 | every entry point's body keeps the ledger invariant, partial writes included |
| Collectibles.InvokeConsistent | contract/contracts/tycoon-collectibles/src/lib.rs:23-126 | every invocation keeps the ledger invariant |
| Collectibles.RunConsistent | contract/contracts/tycoon-collectibles/src/lib.rs:23-126 | any sequence of invocations from deployment ends in a consistent ledger |
| Collectibles.AdminFixed | contract/contracts/tycoon-collectibles/src/lib.rs:25-31 | once an admin is stored, no invocation changes it |
| Collectibles.InitializeOnce | contract/contracts/tycoon-collectibles/src/lib.rs:25-31 | the first `initialize` stores the admin; a second fails with `AlreadyInitialized` and changes nothing |
| Collectibles.BackendMintAuthorized | contract/contracts/tycoon-collectibles/src/lib.rs:104-125 | `backend_mint` succeeds iff the caller signed, an admin is stored, the caller is the admin or the stored minter, and the mint succeeds; it then does exactly `_safe_mint`; other callers get `Unauthorized` with no change |
| Collectibles.HolderCalls | contract/contracts/tycoon-collectibles/src/lib.rs:34-69 | without the holder's signature `buy_collectible`, `transfer` and `burn` panic with no change; with it they are exactly `_safe_mint`, `_safe_transfer` and `_safe_burn` |
| Collectibles.MinterOnlySetByAdmin | contract/contracts/tycoon-collectibles/src/lib.rs:87-101 | the minter changes only through `set_backend_minter`, signed by the stored admin, to an address other than the contract |
| Collectibles.InitializeContract | contract/contracts/tycoon-collectibles/src/lib.rs:25-31 | storage and result equal `InitializeBody` |
| Collectibles.BuyCollectibleEntry | contract/contracts/tycoon-collectibles/src/lib.rs:34-44 | storage and result equal the signature check followed by `MintStep` |
| Collectibles.TransferEntry | contract/contracts/tycoon-collectibles/src/lib.rs:47-57 | storage and result equal the signature check followed by `TransferStep` |
| Collectibles.BurnEntry | contract/contracts/tycoon-collectibles/src/lib.rs:60-69 | storage and result equal the signature check followed by `BurnStep` |
| Collectibles.BalanceOf | contract/contracts/tycoon-collectibles/src/lib.rs:72-74 | the stored balance; on a consistent ledger it is positive iff a record exists and iff the id is in the owner's list |
| Collectibles.TokensOf | contract/contracts/tycoon-collectibles/src/lib.rs:77-79 | the stored list; on a consistent ledger it is duplicate-free and holds exactly the ids with a positive balance |
| Collectibles.GetBackendMinter | contract/contracts/tycoon-collectibles/src/lib.rs:81-84 | the stored minter, `None` when never set |
| Collectibles.SetBackendMinterEntry | contract/contracts/tycoon-collectibles/src/lib.rs:87-101 | storage and result equal `SetBackendMinterBody` |
| Collectibles.BackendMintEntry | contract/contracts/tycoon-collectibles/src/lib.rs:104-125 | storage and result equal the `backend_mint` body |
| Token.BalanceIn | contract/contracts/tycoon-token/src/lib.rs:144-149 | the stored balance, 0 without a record |
| Token.AllowanceIn | contract/contracts/tycoon-token/src/lib.rs:120-125 | the stored allowance, 0 without a record |
| Token.TotalSupply | contract/contracts/tycoon-token/src/lib.rs:110-115 | the stored supply once one exists, and 0 before `initialize` |
| Token.InitializeBody | contract/contracts/tycoon-token/src/lib.rs:54-71 | a second call panics with no change; the first succeeds |
| Token.MintBody | contract/contracts/tycoon-token/src/lib.rs:73-98 | a non-positive amount panics before any write; a mint passes iff the admin is set and signed, the amount is positive, and neither the receiver's balance nor the supply overflows `i128` |
| Token.SetAdminBody | contract/contracts/tycoon-token/src/lib.rs:100-104 | succeeds iff the stored admin signed, and then replaces only the admin |
| Token.ApproveBody | contract/contracts/tycoon-token/src/lib.rs:127-142 | succeeds iff the owner signed and the amount is non-negative, and then overwrites only that allowance |
| Token.Move | contract/contracts/tycoon-token/src/lib.rs:160-181 | an overdraft panics "Insufficient balance" before any write |
| Token.TransferBody | contract/contracts/tycoon-token/src/lib.rs:151-189 | a signed transfer of 0 returns with no change; a negative amount panics; a transfer passes iff the sender signed and the amount is 0, or is positive, covered by the sender's balance, and does not overflow the receiver's balance after the debit |
| Token.Spend | contract/contracts/tycoon-token/src/lib.rs:200-211 | fails iff the allowance is below the amount, with "Insufficient allowance" and no change |
| Token.TransferFromBody | contract/contracts/tycoon-token/src/lib.rs:191-236 | a signed transfer of 0 returns with no change; a negative amount panics; it passes iff the spender signed and the amount is 0, or is positive, covered by the allowance and the balance, and does not overflow the receiver's balance after the debit |
| Token.Destroy | contract/contracts/tycoon-token/src/lib.rs:244-259 | an overdraft panics "Insufficient balance" before any write |
| Token.BurnBody | contract/contracts/tycoon-token/src/lib.rs:238-262 | a non-positive amount panics with no change; a burn passes iff the holder signed, 0 < amount <= balance, and the supply is set and does not underflow |
| Token.BurnFromBody | contract/contracts/tycoon-token/src/lib.rs:264-301 | a non-positive amount panics with no change; it passes iff the spender signed, the amount is positive and covered by the allowance and the balance, and the supply is set and does not underflow |
| Token.Invoke | contract/contracts/tycoon-token/src/lib.rs:54-301 | a panicking invocation commits nothing; a successful one commits the body's writes |
| Token.DeployedValid | contract/contracts/tycoon-token/src/lib.rs:54-71 | a fresh token satisfies the supply invariant |
| Token.InitializeValid | contract/contracts/tycoon-token/src/lib.rs:58-65 | `initialize` keeps supply == sum of balances |
| Token.MintValid | contract/contracts/tycoon-token/src/lib.rs:80-95 | `mint` keeps supply == sum of balances |
| Token.MoveSum | contract/contracts/tycoon-token/src/lib.rs:169-181 | a balance move keeps the sum of all balances |
| Token.DestroySum | contract/contracts/tycoon-token/src/lib.rs:252-259 | a burn lowers the sum of all balances by the amount |
| Token.MoveValid | contract/contracts/tycoon-token/src/lib.rs:160-181 | a successful move keeps the supply invariant |
| Token.DestroyValid | contract/contracts/tycoon-token/src/lib.rs:244-259 | a successful burn keeps the supply invariant |
| Token.InvokeValid | contract/contracts/tycoon-token/src/lib.rs:54-301 | every invocation, panicking or not, keeps total supply == sum of all balances |
| Token.MintOverflowWritesBalance | contract/contracts/tycoon-token/src/lib.rs:80-95 | a supply overflow after the balance write leaves a body state that breaks the invariant, and the rollback restores the old state |
| Token.InitializeOnce | contract/contracts/tycoon-token/src/lib.rs:54-71 | the first call makes the admin hold the whole initial supply, equal to the total supply; a second panics "Already initialized" with no change |
| Token.MintEffect | contract/contracts/tycoon-token/src/lib.rs:73-98 | a successful mint had a positive amount and the admin's signature, and adds the amount to the receiver and the supply only |
| Token.TransferEffect | contract/contracts/tycoon-token/src/lib.rs:151-189 | for distinct holders a transfer moves the amount; the supply, the allowances and other balances are unchanged |
| Token.SelfTransferNetZero | contract/contracts/tycoon-token/src/lib.rs:160-181 | a successful self-transfer changes no balance |
| Token.TransferOverdraft | contract/contracts/tycoon-token/src/lib.rs:160-168 | a positive transfer above the balance panics "Insufficient balance" with no change |
| Token.TransferFromEffect | contract/contracts/tycoon-token/src/lib.rs:191-236 | a short allowance panics with no change; a success lowers exactly that allowance by the amount and moves the amount; other holders' balances and the supply are unchanged |
| Token.BurnEffect | contract/contracts/tycoon-token/src/lib.rs:238-262 | a successful burn had 0 < amount <= balance, and lowers the balance and the supply by the amount; other balances and all allowances are unchanged |
| Token.BurnFromEffect | contract/contracts/tycoon-token/src/lib.rs:264-301 | a short allowance panics with no change; a covered allowance with a short balance panics "Insufficient balance" with no change; a success lowers that allowance, the balance and the supply by the amount, with other allowances and balances unchanged |
| Token.ApproveOverwrites | contract/contracts/tycoon-token/src/lib.rs:120-142 | `approve` overwrites the allowance whatever it held; `allowance` reads it back; balances are untouched |
| Token.TokenStore.constructor | contract/contracts/tycoon-token/src/lib.rs:54-71 | a fresh store holds no record |
| Token.TokenStore.Initialize | contract/contracts/tycoon-token/src/lib.rs:54-71 | the writes and result equal `InitializeBody` |
| Token.TokenStore.Mint | contract/contracts/tycoon-token/src/lib.rs:73-98 | the writes and result equal `MintBody`, a balance written before a supply overflow included |
| Token.TokenStore.SetAdmin | contract/contracts/tycoon-token/src/lib.rs:100-104 | the writes and result equal `SetAdminBody` |
| Token.TokenStore.Admin | contract/contracts/tycoon-token/src/lib.rs:106-108 | the stored admin, a panic before `initialize` |
| Token.TokenStore.GetTotalSupply | contract/contracts/tycoon-token/src/lib.rs:110-115 | the stored supply, which equals the sum of all balances on a valid state |
| Token.TokenStore.Allowance | contract/contracts/tycoon-token/src/lib.rs:120-125 | the stored allowance, 0 without a record |
| Token.TokenStore.Balance | contract/contracts/tycoon-token/src/lib.rs:144-149 | the stored balance, 0 without a record |
| Token.TokenStore.Approve | contract/contracts/tycoon-token/src/lib.rs:127-142 | the writes and result equal `ApproveBody` |
| Token.TokenStore.MoveBalance | contract/contracts/tycoon-token/src/lib.rs:160-181 | the writes and result equal `Move` |
| Token.TokenStore.SpendAllowance | contract/contracts/tycoon-token/src/lib.rs:200-211 | the writes and result equal `Spend` |
| Token.TokenStore.DestroyBalance | contract/contracts/tycoon-token/src/lib.rs:244-259 | the writes and result equal `Destroy` |
| Token.TokenStore.Transfer | contract/contracts/tycoon-token/src/lib.rs:151-189 | the writes and result equal `TransferBody` |
| Token.TokenStore.TransferFrom | contract/contracts/tycoon-token/src/lib.rs:191-236 | the writes and result equal `TransferFromBody`, an allowance written before a balance panic included |
| Token.TokenStore.Burn | contract/contracts/tycoon-token/src/lib.rs:238-262 | the writes and result equal `BurnBody` |
| Token.TokenStore.BurnFrom | contract/contracts/tycoon-token/src/lib.rs:264-301 | the writes and result equal `BurnFromBody` |
| Reward.BalanceIn | contract/contracts/tycoon-reward-system/src/lib.rs:82-85 | the stored balance, 0 without a record |
| Reward.Minted | contract/contracts/tycoon-reward-system/src/lib.rs:46-62 | amount 0 changes nothing; "Balance overflow" iff the `u64` sum does not fit; otherwise only that key grows by the amount |
| Reward.Burned | contract/contracts/tycoon-reward-system/src/lib.rs:64-80 | amount 0 changes nothing; "Insufficient balance" iff the balance is short; otherwise only that key drops by the amount and keeps a record, even at 0 |
| Reward.MintedSum | contract/contracts/tycoon-reward-system/src/lib.rs:50-58 | a mint adds the amount to the sum of all balances |
| Reward.BurnedSum | contract/contracts/tycoon-reward-system/src/lib.rs:68-76 | a burn takes the amount off the sum of all balances |
| Reward.MintThenBurn | contract/contracts/tycoon-reward-system/src/lib.rs:46-80 | mint then burn of the same amount restores every balance, but leaves an explicit 0 record |
| Reward.RewardStore.constructor | contract/contracts/tycoon-reward-system/src/lib.rs:82-85 | a fresh store has no balance record |
| Reward.RewardStore.BalanceOf | contract/contracts/tycoon-reward-system/src/lib.rs:82-85 | the stored balance, 0 without a record |
| Reward.RewardStore.GetBalance | contract/contracts/tycoon-reward-system/src/lib.rs:38-40 | the same read as `balance_of` |
| Reward.RewardStore.Mint | contract/contracts/tycoon-reward-system/src/lib.rs:46-62 | the records become `Minted` of the old ones, or are unchanged with the overflow panic |
| Reward.RewardStore.Burn | contract/contracts/tycoon-reward-system/src/lib.rs:64-80 | the records become `Burned` of the old ones, or are unchanged with the balance panic |
| JsValue.JoinAppend | backend/src/common/filters/http-exception.filter.ts:70-72 | joining a concatenation is joining the parts with one more separator |
| Exceptions.Unauthorized | backend/src/common/guards/auth.guard.ts:18 | an `UnauthorizedException` has status 401 and carries its message |
| Exceptions.WithStatus | backend/src/common/guards/redis-rate-limit.guard.ts:46-49 | an `HttpException` with a string body has that status and that body |
| JwtConfig.UnitOf | backend/src/config/jwt.config.ts:8 | a unit is recognised iff the letter is one of s, m, h, d |
| JwtConfig.UnitChar | backend/src/config/jwt.config.ts:11-19 | each unit's letter reads back as that unit |
| JwtConfig.MatchDuration | backend/src/config/jwt.config.ts:8 | matches iff the text is one or more ASCII digits followed by a unit letter; the captures rebuild the text |
| JwtConfig.ParseExpiresIn | backend/src/config/jwt.config.ts:3-23 | an absent, empty or unmatched value gives the default; a matched one gives digits × seconds per unit, never negative |
| JwtConfig.DefaultUsedIffUnmatched | backend/src/config/jwt.config.ts:7-19 | the default is used iff the value does not match, so even "0s" gives 0 |
| JwtConfig.DigitChar | backend/src/config/jwt.config.ts:10 | the digit character of a digit value |
| JwtConfig.NatToString | backend/src/config/jwt.config.ts:8 | a decimal spelling is non-empty and all digits |
| JwtConfig.DecimalOfNatToString | backend/src/config/jwt.config.ts:10 | `parseInt` of a decimal spelling gives back the number |
| JwtConfig.ParseFormatted | backend/src/config/jwt.config.ts:8-19 | a written duration "Nu" always matches and parses to N × seconds per unit |
| JwtConfig.DefaultsAreDurations | backend/src/config/jwt.config.ts:27-28 | the defaults 900 and 604800 are the durations "15m" and "7d" |
| JwtConfig.Settings | backend/src/config/jwt.config.ts:25-29 | the secret falls back to the built-in default; unmatched durations fall back to 900 and 604800; both durations are non-negative |
| Pagination.Resolve | backend/src/common/services/pagination.service.ts:13 | absent page, limit and sortOrder default to 1, 10 and ASC |
| Pagination.FieldConditions | backend/src/common/services/pagination.service.ts:17-19 | one `alias.field ILIKE :search` condition per field, in order |
| Pagination.Search | backend/src/common/services/pagination.service.ts:16-21 | a clause exists iff the search is non-empty and fields are given; its parameter is `%search%` and its condition is the field conditions joined by " OR " in parentheses |
| Pagination.SearchAddsAlternative | backend/src/common/services/pagination.service.ts:16-21 | adding a searchable field adds exactly one " OR " alternative at the end |
| Pagination.CeilDiv | backend/src/common/services/pagination.service.ts:35 | the page count is the ceiling of items / limit |
| Pagination.PageMeta | backend/src/common/services/pagination.service.ts:35-47 | meta echoes page, limit and count; totalPages is the ceiling of totalItems / limit (`CeilDiv`); hasPreviousPage iff page > 1; hasNextPage iff page < totalPages, equivalently page × limit < totalItems |
| Pagination.CeilDivBound | backend/src/common/services/pagination.service.ts:35-44 | page < totalPages iff page × limit < totalItems |
| Pagination.MulMono | backend/src/common/services/pagination.service.ts:35 | multiplying by a positive limit is monotonic |
| Pagination.Plan | backend/src/common/services/pagination.service.ts:13-30 | the query gets the search clause, an order by `alias.sortBy` only for a non-empty sortBy, take = limit and skip = (page − 1) × limit |
| Pagination.Paginate | backend/src/common/services/pagination.service.ts:8-48 | the plan and the meta of the page, for a positive limit |
| Pagination.NextPageIffItemsRemain | backend/src/common/services/pagination.service.ts:29-44 | there is a next page iff skip + take < totalItems |
| Pagination.PagesTile | backend/src/common/services/pagination.service.ts:29-35 | the next page starts where this one ends, and every page up to the last starts inside the item count |
| ChanceService.Take | backend/src/modules/chance/chance.service.ts:15 | take = limit when given and non-zero, else 20 |
| ChanceService.FindAll | backend/src/modules/chance/chance.service.ts:14-23 | always ordered by id ascending; take as above; skip = (page − 1) × take for a positive page, else 0 |
| ChanceService.PagesAreConsecutive | backend/src/modules/chance/chance.service.ts:16 | page 1 starts at 0, and each page starts where the previous one ended |
| ChanceService.PagesDisjoint | backend/src/modules/chance/chance.service.ts:15-16 | with a positive take, distinct positive pages read disjoint windows |
| ResponseEnvelope.Wrap | backend/src/common/interceptors/response.interceptor.ts:28-49 | success is true with "Operation successful" and the response's status code; undefined becomes null; any other value is passed through unchanged |
| ResponseEnvelope.WrapCollisions | backend/src/common/interceptors/response.interceptor.ts:34-48 | two values give the same envelope iff they are equal or are undefined and null |
| HttpExceptionFilter.Classify | backend/src/common/filters/http-exception.filter.ts:39-67 | an HttpException keeps its status, with a string body as the message or else the body's truthy message or the exception's; an Error gives 500 with its message or "Internal server error"; anything else gives 500 "Internal server error" |
| HttpExceptionFilter.LogChoiceFor | backend/src/common/filters/http-exception.filter.ts:85-100 | error log iff status ≥ 500; warn iff 400 ≤ status < 500; none below 400 |
| HttpExceptionFilter.Catch | backend/src/common/filters/http-exception.filter.ts:30-110 | the reply status equals the body's statusCode; success is false and data is null; the message is the classified one with lists joined by ", "; non-HTTP errors give 500, an error log and a non-empty message |
| HttpExceptionFilter.ErrorEnvelopeIsNotSuccess | backend/src/common/filters/http-exception.filter.ts:102-107 | an error envelope never equals a success envelope |
| HttpExceptionFilter.ValidationMessagesJoined | backend/src/common/filters/http-exception.filter.ts:50-72 | a list of validation messages is reported joined with ", " |
| HttpExceptionFilter.GuardRejectionsRendered | backend/src/common/filters/http-exception.filter.ts:39-100 | a guard's 401 and 429 exceptions reach the client with their own status and text, logged as warnings |
| AllExceptionsFilter.CodeAsWritten | backend/src/common/filters/all-exceptions.filter.ts:53 | reading `code` throws iff the thrown value is null or undefined |
| AllExceptionsFilter.CodeOf | backend/src/common/filters/all-exceptions.filter.ts:53 | the guarded lookup agrees with the unguarded one wherever that one succeeds, and is undefined otherwise |
| AllExceptionsFilter.Respond | backend/src/common/filters/all-exceptions.filter.ts:18-64 | the reply status equals the body's statusCode; path and timestamp are recorded; HTTP exceptions keep their status, message and truthy error; other exceptions give 409 iff the code is "23505", else 500, with the message "Duplicate entry" for 409 and "Internal server error" otherwise, never their raw text |
| AllExceptionsFilter.Catch | backend/src/common/filters/all-exceptions.filter.ts:18-64 | the body built field by field equals `Respond` |
| AllExceptionsFilter.CatchAsWritten | backend/src/common/filters/all-exceptions.filter.ts:18-64 | the filter as written replies as `Respond` or throws, and throws iff the `code` read throws |
| AllExceptionsFilter.ThrownNullEscapesFilter | backend/src/common/filters/all-exceptions.filter.ts:53 | a thrown null escapes the filter as written; the corrected filter replies 500 "Internal server error" |
| AuthGuard.CanActivate | backend/src/common/guards/auth.guard.ts:11-27 | passes iff the header is exactly "Bearer secret-token"; never returns false; a missing or empty header and any other header throw 401 with their own messages |
| AuthGuard.RejectionsReachClient | backend/src/common/guards/auth.guard.ts:17-26 | each rejection reaches the client as a 401 carrying the guard's message, logged as a warning |
| RateLimit.RateLimitMetadata | backend/src/common/guards/redis-rate-limit.guard.ts:11-12 | the decorator records the limit and a ttl of 60 unless one is given |
| RateLimit.Key | backend/src/common/guards/redis-rate-limit.guard.ts:38 | the key is "rate_limit:" + ip + ":" + (route path if non-empty, else url) |
| RateLimit.NoSlashUpTo | backend/src/common/guards/redis-rate-limit.guard.ts:38 | no '/' occurs before the path part of a key whose ip has none |
| RateLimit.SplitAtPath | backend/src/common/guards/redis-rate-limit.guard.ts:38 | the ip and path parts of a key can be recovered |
| RateLimit.KeysSeparateClientsAndRoutes | backend/src/common/guards/redis-rate-limit.guard.ts:38 | two requests share a counter iff they share the ip and the path |
| RateLimit.AdmittedCount | backend/src/common/guards/redis-rate-limit.guard.ts:40-50 | within one window a key admits exactly limit − start further calls, however many arrive |
| RateLimit.Counters.constructor | backend/src/modules/redis/redis.service.ts:50-56 | a fresh counter store is empty |
| RateLimit.Counters.IncrementRateLimit | backend/src/modules/redis/redis.service.ts:50-56 | the counter grows by 1 and is returned; the first increment sets the expiry, later ones do not |
| RateLimit.Counters.Expire | backend/src/modules/redis/redis.service.ts:52-54 | an expired key is dropped, so the next increment returns 1 |
| RateLimit.RedisRateLimitGuard.CanActivate | backend/src/common/guards/redis-rate-limit.guard.ts:21-53 | without metadata it passes and touches no counter; otherwise it increments the key's counter (rejected calls included), passes iff the new count ≤ limit, and throws 429 "Rate limit exceeded" otherwise |
| CacheInterceptor.CacheKey | backend/src/common/interceptors/cache.interceptor.ts:46-55 | the key is "cache:" + method + ":" + url + ":" + user id or "anonymous" + ":" + the query JSON |
| CacheInterceptor.MiddleCancels | backend/src/common/interceptors/cache.interceptor.ts:54 | equal keys with equal surroundings have equal middles |
| CacheInterceptor.KeySeparatesUsers | backend/src/common/interceptors/cache.interceptor.ts:53-54 | two otherwise equal requests share an entry iff they resolve to the same user |
| CacheInterceptor.Served | backend/src/common/interceptors/cache.interceptor.ts:28-36 | a cached value is served iff the request is a GET and the value is truthy |
| CacheInterceptor.StoredResultServedNext | backend/src/common/interceptors/cache.interceptor.ts:33-43 | after a miss stores a truthy result, the same request is served it |
| CacheInterceptor.OtherUsersUnaffected | backend/src/common/interceptors/cache.interceptor.ts:41-54 | storing one user's result changes nothing another user is served |
| CacheInterceptor.CacheStore.constructor | backend/src/modules/redis/redis.service.ts:59-65 | a fresh cache is empty |
| CacheInterceptor.CacheStore.Get | backend/src/modules/redis/redis.service.ts:59-61 | the stored value, undefined when absent |
| CacheInterceptor.CacheStore.Set | backend/src/modules/redis/redis.service.ts:63-65 | the key then holds the value and its ttl; other keys are unchanged |
| CacheInterceptor.Interceptor.Intercept | backend/src/common/interceptors/cache.interceptor.ts:15-44 | a served hit skips the handler; otherwise the handler's result is returned unchanged; non-GET requests and hits leave the cache alone; a GET miss stores the result with ttl 300 |
| LoggerConfig.Redacted | backend/src/common/logger/logger.config.ts:16-42 | same keys; each present sensitive key becomes "[REDACTED]"; every other key is unchanged |
| LoggerConfig.RedactedIdempotent | backend/src/common/logger/logger.config.ts:28-42 | redacting twice is redacting once |
| LoggerConfig.JsObject.constructor | backend/src/common/logger/logger.config.ts:14 | an object holds the given properties |
| LoggerConfig.LogInfo.constructor | backend/src/common/logger/logger.config.ts:14 | a log entry holds the given context and message |
| LoggerConfig.LogInfo.Sanitize | backend/src/common/logger/logger.config.ts:14-45 | object-valued context and message are redacted in place, also when both are the same object; nothing else is written |
| LoggerConfig.RedactInPlace | backend/src/common/logger/logger.config.ts:29-33 | the loop over the sensitive fields leaves `Redacted` of the old properties |
| LoggerConfig.ConfigLevel | backend/src/common/logger/logger.config.ts:124 | LOG_LEVEL when non-empty, else "info" in production and "debug" elsewhere |
| LoggerConfig.GetLogLevel | backend/src/common/logger/logger.config.ts:144-159 | LOG_LEVEL when non-empty, else "info" in production, "error" in test and "debug" elsewhere |
| LoggerConfig.LevelRulesDisagreeOnlyInTest | backend/src/common/logger/logger.config.ts:124-159 | the two level rules differ iff LOG_LEVEL is unset or empty and the environment is "test" |

## Left out

- Events: the `.publish(...)` calls and `events.rs` are left out. They do not affect storage.
- `require_auth` is abstracted as a set of signers. Signature checking itself is the host's job.
- Host rollback is stated, not derived: `Invoke` discards a failed body's writes. The methods describe the body's writes, partial ones included.
- Storage tiers, TTL extension and `MuxedAddress` decoding are not modelled. Storage is a set of maps, and the `to` of a token transfer is an address.
- The `u64` and `i128` additions of the contracts become explicit panics on overflow. This assumes the contracts are built with overflow checks, as Soroban contracts are.
- Token.BurnBody, Token.BurnFromBody: the unchecked `supply - amount` is modelled as a panic when it leaves the `i128` range. On a valid state it never does.
- `get_minter`/`set_minter` are called by `lib.rs` but defined in no file of the contract. The minter is modelled as an optional record with the obvious read and write.
- The token-index helpers (`get_token_index`, `set_token_index`, `remove_token_index`) are unused by the contract. They are modelled only as storage operations with round trips.
- `test_mint`/`test_burn` of the reward system only forward to `_mint`/`_burn`, which are modelled. The reward system's test-only shop and voucher calls exist in no contract file.
- `decimals`, `name` and `symbol` of the token are constants (`Token.DECIMALS`, `Token.NAME`, `Token.SYMBOL`), not members.
- The `tycoon-game` contract and the collectibles shop, perk, pause and stock behaviour are not part of this model.
- JavaScript numbers are modelled as integers. Floats, NaN, `Number(...)` of non-numeric text and `parseInt` precision on huge digit strings are left out.
- Pagination.Paginate, Pagination.PageMeta, Pagination.CeilDiv require a positive limit. The service divides by the limit, and a zero or negative limit yields Infinity or NaN pages, which integers cannot express.
- The query builder and the repositories are not executed. `Pagination.Plan` and `ChanceService.FindAll` describe the calls made on them.
- `JSON.stringify(request.query)` is taken as a given string in the cache key.
- The clock (`new Date().toISOString()`) and the request path are parameters of `AllExceptionsFilter.Respond`.
- The text that the filters pass to the logger is not modelled. `HttpExceptionFilter.Catch` states only which log level is used.
- Exception bodies are restricted to a string, or to an object whose `message` is a string or a list of strings and whose `error` is a string. A `message` or `error` of any other type (number, object) is not modelled, and neither is a response that is neither a string nor an object, the third branch of `HttpExceptionFilter`'s body test.
- The log entry's `context` and `message` are either shared objects (`Ref`) or other values (`Plain`); the `LogInfo` constructor requires that a `Plain` field never holds an object (`Field.WellFormed`). An array passes the `typeof ... === 'object'` test, but none of the sensitive names is an own key of an array, so its redaction changes nothing and the model leaves it as a `Plain` value.
- Winston transports, formats other than the redaction, and the `createWinstonConfig` transports per environment are left out.
- The unit of the cache and rate-limit TTLs depends on the Redis and cache-manager clients. The model records the number passed.
- The cache write after a miss is not awaited by the interceptor. The model performs it before the response returns, so the interleaving with concurrent requests is not captured.
- Concurrency between requests, and the atomicity of Redis `INCR`/`EXPIRE`, are not modelled. Each guarded call runs alone.

## Findings

| source | as written | input that shows it | evidently intended | confidence | as-written member | corrected member |
|---|---|---|---|---|---|---|
| backend/src/common/filters/all-exceptions.filter.ts:53 | `(exception as any).code` is read for every non-HTTP exception | `throw null` (or `throw undefined`) in a handler: reading `code` of null throws a TypeError inside the catch-all filter, so no reply is built | a thrown nullish value is answered like any other unknown error: 500 "Internal server error" | not executed | AllExceptionsFilter.CatchAsWritten, AllExceptionsFilter.ThrownNullEscapesFilter | AllExceptionsFilter.Respond, AllExceptionsFilter.Catch |
