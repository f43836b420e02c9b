# OCCToken ledger (ofp-occ) in Dafny

This project models the `OCCToken` ledger of the ofp-occ NEAR contract: a
table of registered accounts, per-project `u128` balances, a `total_supply`
counter and the `account_storage_usage` recorded by a storage probe, together
with the contract initialisation (`Contract::new`, `new_default_meta`) that
drives it and the panic of `Contract::default`.

Three modules, one per concern:

- `Ledger` (`ledger.dfy`): the types (`Balance` as u128, `ProjectId` and
  `StorageUsage` as u64), one `Error` constructor per panic message, the
  ledger state as a value (`LedgerState`), reference definitions of the operations that
  compute every new value before committing any (`Fresh`, `Register`,
  `Deposit`, `BalanceOf`), and the lemmas that relate several calls.
- `TokenImpl` (`token_impl.dfy`): the class `OCCToken` with the source's
  fields and methods. The methods write in the source's order, before the
  checks that can still fail, and a failing call ends with `RollBack`, the
  host's discarding of a panicking call's writes. Each method's postcondition
  ties its outcome and its new state to the reference definition: the
  reference result on success, the entry state on failure.
- `Lib` (`lib.dfy`): the class `Contract`, the pure `Init` path and the
  invariant that holds on it.

Panics become `Fail(error)` / `Err(error)` results. `env::state_exists()` is a
boolean parameter and the storage-usage delta read from the host is a `u64`
parameter whose value is not modelled.

### Persistent layout

The model rests on near-sdk's `collections::LookupMap` semantics (that
library is not part of this model): a `LookupMap` is persisted as its key
prefix only, and its entries live under `prefix ++ key`. Every per-account
`Projects` map is created with the same prefix `TokenStorageKey::OccToken`
(src/token_impl.rs lines 50, 99 and 117), so all accounts read and write one
shared ProjectId -> Balance table, and the outer map only records which
accounts exist. The state is therefore `accounts: set<AccountId>`,
`projects: map<ProjectId, Balance>`, `totalSupply`, `accountStorageUsage`.
The code, not the doc comment on the `accounts` field ("AccountID ->
Projects -> Project -> Balance"), is followed. Consequences proved here:

- the balance read does not depend on the account (`FtBalanceOfProject`);
- registering any account on a project resets that project's balance for
  every account (`RegisterResetsSharedEntry`);
- the probe's temporary entry `1 -> 10000000` stays in the table after
  construction, while its 64-character temporary account is removed (`Fresh`);
- after initialisation the counter equals the owner's project balance, but
  equals the sum of the whole table only when that project is 1
  (`InitSupplyGap`).

### Where the code and its own comments differ

- The doc comment on the `accounts` field (src/token_impl.rs:20) reads
  "AccountID -> Projects -> Project -> Balance", a separate project map per
  account. With the shared prefix all accounts use one table; the model
  follows the code.
- The comment on `total_supply` (src/token_impl.rs:23) calls it the total
  supply of all tokens. Because of the probe's leftover entry, the counter
  equals the sum of the table only when the owner's project is 1. The model
  states this only for the initialisation path, the only path callers can
  reach (the fungible-token core and storage macros are commented out at
  src/lib.rs:85-86).
- The code writes before it checks. Registration writes the project entry
  before it finds the account already present. Deposit writes the new
  balance before the supply check. A failing call leaves no trace only
  because the NEAR host rolls back every write of a call that panics. The
  model makes that rollback explicit as `RollBack`.
- `Deposit` accepts any project present in the shared table, not only the
  one the account registered with.

## Model

| member | source | states |
|---|---|---|
| `Ledger.CheckedAdd` | src/token_impl.rs:86-91 | `u128::checked_add`: a result exactly when the sum fits in 128 bits, and then it is the sum |
| `Ledger.Fresh` | src/token_impl.rs:31-56 | after construction: no account registered (the 64-character probe account among them), supply 0, usage as measured, the table holds only the probe's `1 -> 10000000` |
| `Ledger.BalanceOf` | src/token_impl.rs:113-120 | the read never fails: the shared table's entry, or 0 when the project has none |
| `Ledger.Register` | src/token_impl.rs:98-105 | fails with AccountAlreadyRegistered exactly when the account exists; otherwise adds it, creates or resets the table entry `project -> 0`, keeps every other entry with its balance, and leaves the supply and the usage unchanged |
| `Ledger.RegisterEnablesDeposit` | src/token_impl.rs:83-92 | right after a successful registration, a deposit to the same account and project succeeds whenever the supply has room, and leaves exactly the amount as the balance |
| `Ledger.Deposit` | src/token_impl.rs:77-96 | succeeds exactly when account and project entry exist and neither addition overflows; each failure in the source's order (account, project, balance, supply) gives its own error; success adds the amount to the project's balance and to the supply and changes nothing else |
| `Ledger.RegisterTwiceFails` | src/token_impl.rs:102-104 | a second registration of the same account fails with AccountAlreadyRegistered, whatever project it names |
| `Ledger.RegisterResetsSharedEntry` | src/token_impl.rs:99-102 | registering another account on a project zeroes an existing account's positive balance on that project |
| `Ledger.ReadDefaultWhereDepositFails` | src/token_impl.rs:113-120 | where the table has no entry, the read gives 0 while a deposit on the same pair fails |
| `Ledger.DepositAdditive` | src/token_impl.rs:86-92 | depositing x then y succeeds exactly when depositing x + y does, and then both give the same ledger |
| `Ledger.DepositKeepsSupplyGap` | src/token_impl.rs:86-92 | a successful deposit leaves supply minus the table's sum unchanged |
| `Ledger.RegisterSupplyGap` | src/token_impl.rs:99-102 | a successful registration raises supply minus the table's sum by the balance the project entry held |
| `Ledger.FreshSupplyGap` | src/token_impl.rs:47-55 | after construction the table's sum exceeds the supply by the probe's 10000000 |
| `TokenImpl.OCCToken.constructor` | src/token_impl.rs:31-42 | the new ledger is `Fresh(usage)` |
| `TokenImpl.OCCToken.MeasureAccountStorageUsage` | src/token_impl.rs:44-56 | the probe account is gone afterwards, the table gains `1 -> 10000000`, the usage is recorded, the supply is unchanged |
| `TokenImpl.OCCToken.RollBack` | src/token_impl.rs:102-103 | the NEAR host's behaviour, not a source function: the writes of a call that panics are discarded and the state on entry comes back |
| `TokenImpl.OCCToken.UnwrapBalance` | src/token_impl.rs:58-65 | the project's balance when the map has an entry, else ProjectNotRegistered naming the project |
| `TokenImpl.OCCToken.UnwrapProjectsOf` | src/token_impl.rs:67-74 | the shared table when the account is registered, else AccountNotRegistered naming the account |
| `TokenImpl.OCCToken.InternalDeposit` | src/token_impl.rs:77-96 | write-through deposit: on success the state is `Deposit`'s result, on each failure the reported error is `Deposit`'s and the state is the one on entry |
| `TokenImpl.OCCToken.InternalRegisterAccount` | src/token_impl.rs:98-105 | write-through registration: on success the state is `Register`'s result, on failure AccountAlreadyRegistered and the state on entry |
| `TokenImpl.OCCToken.FtTotalSupply` | src/token_impl.rs:109-111 | the stored supply counter |
| `TokenImpl.OCCToken.FtBalanceOfProject` | src/token_impl.rs:113-120 | both read routes (registered account, fresh map) give the reference read, and the result is the same for every account |
| `Lib.Init` | src/lib.rs:50-74 | fails with AlreadyInitialized exactly when state exists; otherwise supply and owner-project balance are the initial supply, the owner is the only account, and the table is the supply's entry plus the probe's unless the project is 1 |
| `Lib.InitSupplyGap` | src/lib.rs:59-66 | on the initialisation path the supply equals the owner's project balance, and equals the table's sum exactly when the project is 1 |
| `Lib.Contract.constructor` | src/lib.rs:59-62 | the contract holds the given token ledger and metadata |
| `Lib.Contract.New` | src/lib.rs:49-74 | fails with AlreadyInitialized exactly when state exists; otherwise registration and deposit cannot fail, the ledger is `Init`'s, the metadata is the given one, and both queries return the initial supply |
| `Lib.Contract.NewDefaultMeta` | src/lib.rs:27-47 | the same outcome and ledger as `New`, with the default metadata |
| `Lib.Contract.Default` | src/lib.rs:17 | default construction fails with NotInitialized |

## Left out

- The value of `env::storage_usage()`: a host counter; the probe's delta is a parameter and only the probe's effect on the tables is modelled.
- `env::state_exists()`: a host query, taken as a boolean parameter.
- The text of panic messages: each is one `Error` constructor carrying the account or project it names; decimal formatting of the project id is not modelled.
- Borsh encodings and raw storage keys; possible collisions between outer-map and inner-map keys under the shared prefix are not modelled.
- The `LookupMap` of a new ledger is taken to start empty (fresh storage under the prefix).
- `FungibleTokenMetadata` beyond name, symbol and decimals, `metadata.assert_valid()` (taken to pass), `FT_METADATA_SPEC` and the icon constant: code and data of the near-contract-standards library.
- `ft_metadata` (src/metadata.rs): a getter over `LazyOption` with no logic.
- The `OccTokenCore` trait (src/token.rs): signatures only, modelled through its implementation.
- `near_bindgen` dispatch, the commented-out events and fungible-token macros, and the unit-test scaffolding (`VMContextBuilder`, `testing_env!`); the tests' expectations are what `Lib.Contract.New`, `NewDefaultMeta` and `Default` state.
- `Lib.Contract.New`: an `assert_valid` panic on invalid metadata is not among its errors, because metadata validation is not modelled.
