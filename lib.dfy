/**
 The contract shell around the ledger: initialisation (`new`,
 `new_default_meta`) and the panic of `Default`. Once initialised, the only
 ledger calls that have ever run are one registration and one deposit, so
 the facts proved here are the ledger invariants that hold on that path.
 */
module Lib {
  import opened Ledger
  import opened TokenImpl

  /**
   The parts of `FungibleTokenMetadata` this model keeps. The standard's
   specification string, the icon, the reference fields and their validation
   belong to another library and are not part of this model.
   */
  datatype Metadata = Metadata(name: string, symbol: string, decimals: nat)

  /** The metadata `new_default_meta` supplies. */
  const DefaultMetadata: Metadata := Metadata("Example NEAR fungible token", "EXAMPLE", 24)

  /**
   The ledger that initialisation produces, or its error: the state check,
   then a fresh ledger, then registration and deposit of the whole supply to
   the owner's project.
   */
  function Init(stateExists: bool, owner: AccountId, project: ProjectId, supply: Balance, usage: StorageUsage): (r: Result<LedgerState>)
    ensures r.Err? <==> stateExists
    ensures r.Err? ==> r.error == AlreadyInitialized
    ensures r.Ok? ==> r.value.totalSupply == supply
    ensures r.Ok? ==> forall a :: BalanceOf(r.value, a, project) == supply
    ensures r.Ok? ==> r.value.accounts == {owner}
    ensures r.Ok? ==> r.value.accountStorageUsage == usage
    ensures r.Ok? ==> r.value.projects == (if project == TmpProjectId then map[project := supply]
                                           else map[TmpProjectId := TmpProjectBalance, project := supply])
  {
    if stateExists then Err(AlreadyInitialized)
    else match Register(Fresh(usage), owner, project)
      case Err(e) => Err(e)
      case Ok(registered) => Deposit(registered, owner, project, supply)
  }

  /**
   On the initialisation path the counter equals the one registered pair's
   balance, but the shared table also still holds the probe's entry unless
   the owner's project is the probe's project 1: only then does the counter
   equal the sum of the table.
   */
  lemma {:induction false} InitSupplyGap(owner: AccountId, project: ProjectId, supply: Balance, usage: StorageUsage)
    ensures Init(false, owner, project, supply, usage).Ok?
    ensures var l := Init(false, owner, project, supply, usage).value;
            && l.totalSupply == BalanceOf(l, owner, project)
            && SupplyGap(l) == (if project == TmpProjectId then 0 else -(TmpProjectBalance as int))
  {
    var initial := Fresh(usage);
    FreshSupplyGap(usage);
    var registered := Register(initial, owner, project).value;
    RegisterSupplyGap(initial, owner, project);
    DepositKeepsSupplyGap(registered, owner, project, supply);
  }

  class Contract {
    var token: OCCToken
    /** `LazyOption<FungibleTokenMetadata>`, always set after initialisation. */
    var metadata: Metadata

    constructor (token: OCCToken, metadata: Metadata)
      ensures this.token == token && this.metadata == metadata
    {
      this.token := token;
      this.metadata := metadata;
    }

    /**
     `Contract::new`. `stateExists` stands for the host's `env::state_exists()`
     and `usage` for the storage delta the probe measures. Neither
     registration nor deposit can fail on a fresh ledger, which the asserts
     below prove, so the only error is "Already initialized".
     */
    static method New(stateExists: bool, ownerId: AccountId, projectId: ProjectId, totalSupply: Balance,
                      metadata: Metadata, usage: StorageUsage) returns (r: Result<Contract>)
      ensures r.Err? <==> stateExists
      ensures r.Err? ==> r.error == AlreadyInitialized
      ensures r.Ok? ==> fresh(r.value) && fresh(r.value.token) && r.value.metadata == metadata
      ensures r.Ok? ==> Init(stateExists, ownerId, projectId, totalSupply, usage) == Ok(r.value.token.Model())
      ensures r.Ok? ==> r.value.token.FtTotalSupply() == totalSupply
      ensures r.Ok? ==> r.value.token.FtBalanceOfProject(ownerId, projectId) == totalSupply
    {
      if stateExists {
        return Err(AlreadyInitialized);
      }
      var token := new OCCToken(usage);
      var contract := new Contract(token, metadata);
      var registered := contract.token.InternalRegisterAccount(ownerId, projectId);
      assert registered == Pass;
      var deposited := contract.token.InternalDeposit(ownerId, projectId, totalSupply);
      assert deposited == Pass;
      r := Ok(contract);
    }

    /** `Contract::new_default_meta`: `new` with the default metadata. */
    static method NewDefaultMeta(stateExists: bool, ownerId: AccountId, projectId: ProjectId, totalSupply: Balance,
                                 usage: StorageUsage) returns (r: Result<Contract>)
      ensures r.Err? <==> stateExists
      ensures r.Err? ==> r.error == AlreadyInitialized
      ensures r.Ok? ==> fresh(r.value) && fresh(r.value.token) && r.value.metadata == DefaultMetadata
      ensures r.Ok? ==> Init(stateExists, ownerId, projectId, totalSupply, usage) == Ok(r.value.token.Model())
      ensures r.Ok? ==> r.value.token.FtTotalSupply() == totalSupply
      ensures r.Ok? ==> r.value.token.FtBalanceOfProject(ownerId, projectId) == totalSupply
    {
      r := New(stateExists, ownerId, projectId, totalSupply, DefaultMetadata, usage);
    }

    /** `PanicOnDefault`: default construction always panics. */
    static method Default() returns (r: Result<Contract>)
      ensures r == Err(NotInitialized)
    {
      r := Err(NotInitialized);
    }
  }
}
