/**
 The `OCCToken` struct and its methods. Storage is write-through: each
 `LookupMap::insert` or `remove` changes the persisted state at once, and the
 methods below make their writes in the same order as the source, before the
 checks that may still fail. A failing call ends with `RollBack`, which stands
 for the host discarding every write of a call that panics; so a caller only
 ever sees the entry state or the reference result from module Ledger.
 */
module TokenImpl {
  import opened Ledger

  datatype Outcome = Pass | Fail(error: Error)

  class OCCToken {
    /** Keys of `accounts: LookupMap<AccountId, Projects>`. The stored `Projects`
        value is only the shared prefix, so the keys are all it records. */
    var accounts: set<AccountId>
    /** The ProjectId -> Balance table under prefix `TokenStorageKey::OccToken`,
        which every account's `Projects` map reads and writes. */
    var projects: map<ProjectId, Balance>
    var totalSupply: Balance
    var accountStorageUsage: StorageUsage

    /** The state as a value. */
    function Model(): LedgerState
      reads this
    {
      LedgerState(accounts, projects, totalSupply, accountStorageUsage)
    }

    /**
     `OCCToken::new`. `usage` stands for the host's `env::storage_usage()`
     delta that the probe records; its value is not modelled.
     */
    constructor (usage: StorageUsage)
      ensures Model() == Fresh(usage)
    {
      accounts := {};
      projects := map[];
      totalSupply := 0;
      accountStorageUsage := 0;
      new;
      MeasureAccountStorageUsage(usage);
    }

    /**
     The storage probe. The temporary project map shares the table's prefix,
     so its entry is written into the shared table and is not taken back;
     only the temporary account is removed.
     */
    method MeasureAccountStorageUsage(usage: StorageUsage)
      modifies this
      ensures accounts == old(accounts) - {TmpAccountId}
      ensures projects == old(projects)[TmpProjectId := TmpProjectBalance]
      ensures totalSupply == old(totalSupply)
      ensures accountStorageUsage == usage
    {
      projects := projects[TmpProjectId := TmpProjectBalance];
      accounts := accounts + {TmpAccountId};
      accountStorageUsage := usage;
      accounts := accounts - {TmpAccountId};
    }

    /**
     Not a function of the source: the NEAR host discards every write of a call
     that panics, so the state on entry comes back.
     */
    method RollBack(saved: LedgerState)
      modifies this
      ensures Model() == saved
    {
      accounts, projects := saved.accounts, saved.projects;
      totalSupply, accountStorageUsage := saved.totalSupply, saved.accountStorageUsage;
    }

    /** `internal_unwrap_balance`: the project's balance in the given map, or the
        "project not registered" panic. */
    static function UnwrapBalance(table: map<ProjectId, Balance>, projectId: ProjectId): (r: Result<Balance>)
      ensures r.Ok? <==> projectId in table
      ensures r.Ok? ==> r.value == table[projectId]
      ensures r.Err? ==> r.error == ProjectNotRegistered(projectId)
    {
      if projectId in table then Ok(table[projectId]) else Err(ProjectNotRegistered(projectId))
    }

    /** `internal_unwrap_projects_of`: the account's project map, which is a
        view of the shared table, or the "account not registered" panic. */
    function UnwrapProjectsOf(accountId: AccountId): (r: Result<map<ProjectId, Balance>>)
      reads this
      ensures r.Ok? <==> accountId in accounts
      ensures r.Ok? ==> r.value == projects
      ensures r.Err? ==> r.error == AccountNotRegistered(accountId)
    {
      if accountId in accounts then Ok(projects) else Err(AccountNotRegistered(accountId))
    }

    /**
     `internal_deposit`. The new balance is written before the supply is
     checked, as in the source; a supply overflow therefore needs the rollback.
     */
    method InternalDeposit(accountId: AccountId, projectId: ProjectId, amount: Balance) returns (r: Outcome)
      modifies this
      ensures var spec := Deposit(old(Model()), accountId, projectId, amount);
              && (spec.Ok? ==> r == Pass && Model() == spec.value)
              && (spec.Err? ==> r == Fail(spec.error) && Model() == old(Model()))
    {
      var saved := Model();
      var projectByAccount := UnwrapProjectsOf(accountId);
      if projectByAccount.Err? {
        return Fail(projectByAccount.error);
      }
      var oldBalance := UnwrapBalance(projectByAccount.value, projectId);
      if oldBalance.Err? {
        return Fail(oldBalance.error);
      }
      var newBalance := CheckedAdd(oldBalance.value, amount);
      if newBalance.Some? {
        projects := projects[projectId := newBalance.value];
        var newSupply := CheckedAdd(totalSupply, amount);
        if newSupply.None? {
          RollBack(saved);
          return Fail(TotalSupplyOverflow);
        }
        totalSupply := newSupply.value;
        r := Pass;
      } else {
        r := Fail(BalanceOverflow);
      }
    }

    /**
     `internal_register_account`. The fresh `Projects` map is on the shared
     prefix, so inserting `projectId -> 0` writes the shared table before the
     outer insert reports that the account already existed.
     */
    method InternalRegisterAccount(accountId: AccountId, projectId: ProjectId) returns (r: Outcome)
      modifies this
      ensures var spec := Register(old(Model()), accountId, projectId);
              && (spec.Ok? ==> r == Pass && Model() == spec.value)
              && (spec.Err? ==> r == Fail(spec.error) && Model() == old(Model()))
    {
      var saved := Model();
      projects := projects[projectId := 0];
      var previous := accountId in accounts;
      accounts := accounts + {accountId};
      if previous {
        RollBack(saved);
        return Fail(AccountAlreadyRegistered);
      }
      r := Pass;
    }

    /** `ft_total_supply`: the stored counter. */
    function FtTotalSupply(): (t: Balance)
      reads this
      ensures t == Model().totalSupply
    {
      totalSupply
    }

    /**
     `ft_balance_of_project`: a registered account's map, or else a fresh map on
     the same prefix; either one reads the shared table, so the result is the
     account-independent reference read.
     */
    function FtBalanceOfProject(accountId: AccountId, projectId: ProjectId): (b: Balance)
      reads this
      ensures b == BalanceOf(Model(), accountId, projectId)
      ensures forall other :: b == BalanceOf(Model(), other, projectId)
    {
      var table := match UnwrapProjectsOf(accountId)
        case Ok(registered) => registered
        case Err(_) => projects;
      if projectId in table then table[projectId] else 0
    }
  }
}
