/**
 The OCCToken ledger as a value: its types, its error conditions, the state a
 caller can observe, and reference definitions of each operation that compute
 every new value before committing any of them.

 The persistent layout follows near-sdk's `collections::LookupMap`, whose
 semantics are not part of this model: a `LookupMap` is persisted as nothing
 but its key prefix, and each entry lives under `prefix ++ key`. Every
 per-account project map of the source is created with the same prefix
 (`TokenStorageKey::OccToken`), so all of them are views of ONE
 ProjectId -> Balance table, and the outer account map only records which
 accounts exist. The ledger state below is written in those terms:
 `accounts` is the set of registered accounts and `projects` is the one
 table that all accounts share.
 */
module Ledger {

  /** Unsigned 128-bit integer (`u128`, near-sdk's `Balance`). */
  const U128_MAX: int := 0xffff_ffff_ffff_ffff_ffff_ffff_ffff_ffff
  newtype Balance = x: int | 0 <= x <= U128_MAX

  /** Unsigned 64-bit integers: `ProjectId` and `StorageUsage`. */
  const U64_MAX: int := 0xffff_ffff_ffff_ffff
  newtype ProjectId = x: int | 0 <= x <= U64_MAX
  newtype StorageUsage = x: int | 0 <= x <= U64_MAX

  /** An account identifier; the host validates it, the ledger treats it as opaque. */
  type AccountId = string

  /** The conditions on which the source panics, one constructor per panic message. */
  datatype Error =
    | AccountNotRegistered(account: AccountId)   // "The account {} is not registered"
    | ProjectNotRegistered(project: ProjectId)   // "The project {} is not registered"
    | AccountAlreadyRegistered                   // "The account is already registered"
    | BalanceOverflow                            // "Balance overflow"
    | TotalSupplyOverflow                        // "Total supply overflow"
    | AlreadyInitialized                         // "Already initialized"
    | NotInitialized                             // "The contract is not initialized"

  datatype Result<T> = Ok(value: T) | Err(error: Error)

  datatype Option<T> = None | Some(value: T)

  /** `u128::checked_add`: the sum, or nothing when it does not fit in 128 bits. */
  function CheckedAdd(a: Balance, b: Balance): (r: Option<Balance>)
    ensures r.Some? <==> a as int + b as int <= U128_MAX
    ensures r.Some? ==> r.value as int == a as int + b as int
  {
    if a as int + b as int <= U128_MAX then Some((a as int + b as int) as Balance) else None
  }

  /** The storage probe's synthetic entry: a 64-character account holding project 1. */
  const TmpAccountId: AccountId := "aaaaaaaaaaaaaaaaaaaaaaaaaaaaaaaaaaaaaaaaaaaaaaaaaaaaaaaaaaaaaaaa"  // "a" repeated 64 times
  const TmpProjectId: ProjectId := 1
  const TmpProjectBalance: Balance := 10000000

  /** What the ledger holds between calls. */
  datatype LedgerState = LedgerState(
    accounts: set<AccountId>,                 // keys of the outer map
    projects: map<ProjectId, Balance>,        // the one table every account's map views
    totalSupply: Balance,
    accountStorageUsage: StorageUsage)

  /**
   The ledger right after construction: the probe has registered and removed
   its temporary account, but the project entry it wrote went into the shared
   table and stays there.
   */
  function Fresh(usage: StorageUsage): (l: LedgerState)
    ensures l.accounts == {} && TmpAccountId !in l.accounts
    ensures l.totalSupply == 0
    ensures l.accountStorageUsage == usage
    ensures l.projects.Keys == {TmpProjectId} && l.projects[TmpProjectId] == TmpProjectBalance
  {
    LedgerState({}, map[TmpProjectId := TmpProjectBalance], 0, usage)
  }

  /**
   The read path: the account's map if it is registered, otherwise a fresh map
   on the same prefix. Both read the shared table, so the account does not
   matter; an absent entry reads as 0.
   */
  function BalanceOf(l: LedgerState, account: AccountId, project: ProjectId): (b: Balance)
    ensures project in l.projects ==> b == l.projects[project]
    ensures project !in l.projects ==> b == 0
  {
    if project in l.projects then l.projects[project] else 0
  }

  /**
   Registration: fails when the account exists; otherwise the account is
   recorded and the project's entry in the shared table is (re)set to 0.
   */
  function Register(l: LedgerState, account: AccountId, project: ProjectId): (r: Result<LedgerState>)
    ensures r.Err? <==> account in l.accounts
    ensures r.Err? ==> r.error == AccountAlreadyRegistered
    ensures r.Ok? ==> r.value.accounts == l.accounts + {account}
    ensures r.Ok? ==> r.value.projects.Keys == l.projects.Keys + {project} && r.value.projects[project] == 0
    ensures r.Ok? ==> forall q :: q in l.projects && q != project ==> r.value.projects[q] == l.projects[q]
    ensures r.Ok? ==> forall a :: BalanceOf(r.value, a, project) == 0
    ensures r.Ok? ==> forall a, q :: q != project ==> BalanceOf(r.value, a, q) == BalanceOf(l, a, q)
    ensures r.Ok? ==> r.value.totalSupply == l.totalSupply
    ensures r.Ok? ==> r.value.accountStorageUsage == l.accountStorageUsage
  {
    if account in l.accounts then Err(AccountAlreadyRegistered)
    else Ok(l.(accounts := l.accounts + {account}, projects := l.projects[project := 0]))
  }

  /**
   Deposit, computed before anything is committed. The checks come in the
   source's order: account, project entry, balance addition, supply addition.
   */
  function Deposit(l: LedgerState, account: AccountId, project: ProjectId, amount: Balance): (r: Result<LedgerState>)
    ensures r.Ok? <==>
      && account in l.accounts
      && project in l.projects
      && l.projects[project] as int + amount as int <= U128_MAX
      && l.totalSupply as int + amount as int <= U128_MAX
    ensures account !in l.accounts ==> r == Err(AccountNotRegistered(account))
    ensures account in l.accounts && project !in l.projects ==> r == Err(ProjectNotRegistered(project))
    ensures (account in l.accounts && project in l.projects
             && l.projects[project] as int + amount as int > U128_MAX) ==> r == Err(BalanceOverflow)
    ensures (account in l.accounts && project in l.projects
             && l.projects[project] as int + amount as int <= U128_MAX
             && l.totalSupply as int + amount as int > U128_MAX) ==> r == Err(TotalSupplyOverflow)
    ensures r.Ok? ==> forall a :: BalanceOf(r.value, a, project) as int == BalanceOf(l, a, project) as int + amount as int
    ensures r.Ok? ==> forall a, q :: q != project ==> BalanceOf(r.value, a, q) == BalanceOf(l, a, q)
    ensures r.Ok? ==> r.value.projects.Keys == l.projects.Keys
    ensures r.Ok? ==> r.value.totalSupply as int == l.totalSupply as int + amount as int
    ensures r.Ok? ==> r.value.accounts == l.accounts && r.value.accountStorageUsage == l.accountStorageUsage
  {
    if account !in l.accounts then Err(AccountNotRegistered(account))
    else if project !in l.projects then Err(ProjectNotRegistered(project))
    else match CheckedAdd(l.projects[project], amount)
      case None => Err(BalanceOverflow)
      case Some(newBalance) =>
        match CheckedAdd(l.totalSupply, amount)
        case None => Err(TotalSupplyOverflow)
        case Some(newSupply) => Ok(l.(projects := l.projects[project := newBalance], totalSupply := newSupply))
  }

  // ---------------------------------------------------------------------------
  // Properties relating several calls.

  /** A second registration of the same account always fails, whatever the project. */
  lemma RegisterTwiceFails(l: LedgerState, account: AccountId, p: ProjectId, q: ProjectId)
    requires Register(l, account, p).Ok?
    ensures Register(Register(l, account, p).value, account, q) == Err(AccountAlreadyRegistered)
  {
  }

  /**
   Registration creates the entry a deposit needs: right after it, a deposit
   to the same account and project succeeds whenever the supply has room.
   */
  lemma RegisterEnablesDeposit(l: LedgerState, account: AccountId, p: ProjectId, amount: Balance)
    requires Register(l, account, p).Ok?
    requires l.totalSupply as int + amount as int <= U128_MAX
    ensures Deposit(Register(l, account, p).value, account, p, amount).Ok?
    ensures BalanceOf(Deposit(Register(l, account, p).value, account, p, amount).value, account, p) == amount
  {
  }

  /**
   Because the table is shared, registering any account on a project resets
   that project's balance for every account, including ones registered earlier.
   */
  lemma RegisterResetsSharedEntry(l: LedgerState, owner: AccountId, other: AccountId, p: ProjectId)
    requires owner in l.accounts && BalanceOf(l, owner, p) > 0
    requires Register(l, other, p).Ok?
    ensures BalanceOf(Register(l, other, p).value, owner, p) == 0
    ensures BalanceOf(Register(l, other, p).value, owner, p) < BalanceOf(l, owner, p)
  {
  }

  /** Reading never fails and defaults to 0 where depositing onto the same pair fails. */
  lemma ReadDefaultWhereDepositFails(l: LedgerState, account: AccountId, p: ProjectId, amount: Balance)
    requires p !in l.projects
    ensures BalanceOf(l, account, p) == 0
    ensures Deposit(l, account, p, amount).Err?
  {
  }

  /**
   Depositing x and then y succeeds exactly when depositing x + y at once
   does, and then both leave the same ledger. (The errors may differ: x alone
   can fail on the supply while x + y already fails on the balance.)
   */
  lemma DepositAdditive(l: LedgerState, account: AccountId, p: ProjectId, x: Balance, y: Balance)
    requires x as int + y as int <= U128_MAX
    ensures var first := Deposit(l, account, p, x);
            var twice := if first.Ok? then Deposit(first.value, account, p, y) else first;
            var once := Deposit(l, account, p, (x as int + y as int) as Balance);
            && (twice.Ok? <==> once.Ok?)
            && (twice.Ok? ==> twice.value == once.value)
  {
  }

  // ---------------------------------------------------------------------------
  // The sum of a table's balances, and how the operations move it.

  ghost function SumValues(m: map<ProjectId, Balance>): int
    decreases |m|
  {
    if m.Keys == {} then 0
    else
      var k :| k in m.Keys;
      assert |m.Keys - {k}| == |m.Keys| - 1;
      m[k] as int + SumValues(m - {k})
  }

  /** Any entry can be taken out of the sum first, not only the one SumValues picks. */
  lemma {:induction false} SumValuesRemove(m: map<ProjectId, Balance>, k: ProjectId)
    requires k in m
    ensures SumValues(m) == m[k] as int + SumValues(m - {k})
    decreases |m|
  {
    var j :| j in m.Keys && SumValues(m) == m[j] as int + SumValues(m - {j});
    if j != k {
      assert |(m - {j}).Keys| < |m.Keys| by {
        assert (m - {j}).Keys == m.Keys - {j};
      }
      SumValuesRemove(m - {j}, k);
      assert (m - {j}) - {k} == (m - {k}) - {j};
      assert |(m - {k}).Keys| < |m.Keys| by {
        assert (m - {k}).Keys == m.Keys - {k};
      }
      SumValuesRemove(m - {k}, j);
    }
  }

  /** Writing v under k changes the sum by v minus what k held before. */
  lemma SumValuesUpdate(m: map<ProjectId, Balance>, k: ProjectId, v: Balance)
    ensures SumValues(m[k := v]) == SumValues(m) - (if k in m then m[k] as int else 0) + v as int
  {
    SumValuesRemove(m[k := v], k);
    assert m[k := v] - {k} == m - {k};
    if k in m {
      SumValuesRemove(m, k);
    } else {
      assert m - {k} == m;
    }
  }

  /** How far the counter is from the sum of the shared table. */
  ghost function SupplyGap(l: LedgerState): int
  {
    l.totalSupply as int - SumValues(l.projects)
  }

  /** A successful deposit moves the counter and the table by the same amount. */
  lemma DepositKeepsSupplyGap(l: LedgerState, account: AccountId, p: ProjectId, amount: Balance)
    requires Deposit(l, account, p, amount).Ok?
    ensures SupplyGap(Deposit(l, account, p, amount).value) == SupplyGap(l)
  {
    var l1 := Deposit(l, account, p, amount).value;
    assert l1.projects == l.projects[p := l1.projects[p]];
    SumValuesUpdate(l.projects, p, l1.projects[p]);
  }

  /**
   A successful registration zeroes one entry of the table, so the gap grows
   by what that entry held.
   */
  lemma RegisterSupplyGap(l: LedgerState, account: AccountId, p: ProjectId)
    requires Register(l, account, p).Ok?
    ensures SupplyGap(Register(l, account, p).value) == SupplyGap(l) + BalanceOf(l, account, p) as int
  {
    SumValuesUpdate(l.projects, p, 0);
  }

  /** The freshly constructed ledger already counts the probe's balance in its table. */
  lemma FreshSupplyGap(usage: StorageUsage)
    ensures SupplyGap(Fresh(usage)) == -(TmpProjectBalance as int)
  {
    var m := Fresh(usage).projects;
    SumValuesRemove(m, TmpProjectId);
    assert m - {TmpProjectId} == map[];
  }
}
