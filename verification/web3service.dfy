/** The contract client (services/web3Service.ts): a process-wide singleton whose nullable fields are
    filled in by `initialize`, `loadContractAddresses` and `initializeContracts`; the pure pieces are the
    20% gas buffer, address resolution, the chain table and the `0x`+hex chain id.
    Wallet and contract round trips are inputs: an access request outcome, the wallet's signer, the
    manifest import, a gas estimate, the outcome of a wallet request. A contract method returns the
    invocation it would send, so an error result means that nothing was estimated or sent. */
module Web3 {
  import opened Outcomes
  import opened JsText

  // ---------------------------------------------------------------- handles and records

  /** The `ethers.BrowserProvider` built over the injected wallet. */
  datatype Provider = BrowserProvider

  /** The wallet's `JsonRpcSigner`, known by the account it signs for. */
  datatype Signer = Signer(address: string)

  datatype Abi = BankAbi | GovernanceAbi

  /** An `ethers.Contract`: an address, an ABI and the signer it sends with. */
  datatype ContractHandle = ContractHandle(target: string, abi: Abi, runner: Signer)

  datatype ContractAddresses = ContractAddresses(bank: string, governance: string, bankMock: Option<string>)

  /** `deployment.json` as far as it is read: the `contracts` object and, per entry, its `address`
      (`None` is an absent entry). */
  datatype ManifestContracts = ManifestContracts(bank: Option<string>, governance: Option<string>, bankMock: Option<string>)

  datatype Manifest = Manifest(contracts: Option<ManifestContracts>)

  /** `VITE_BANK_ADDRESS` and `VITE_GOVERNANCE_ADDRESS`. */
  datatype Env = Env(bankAddress: Option<string>, governanceAddress: Option<string>)

  /** A contract method call as the ABI names it. */
  datatype ContractCall =
    | Balances(who: string)
    | DepositCall(value: nat)
    | WithdrawCall(amount: nat)
    | TransferCall(to: string, amount: nat)
    | UserTransactions(who: string)
    | TopHolders
    | CreateProposalCall(title: string, description: string)
    | VoteCall(proposalId: int, support: bool)
    | ProposalRead(proposalId: int)
    | ProposalCount
    | HasVotedRead(proposalId: int, who: string)

  /** What a service method hands to ethers: the contract, the call and, for a write, its gas limit. */
  datatype Invocation = Invocation(contract: ContractHandle, call: ContractCall, gasLimit: Option<nat>)

  datatype NativeCurrency = NativeCurrency(name: string, symbol: string, decimals: nat)

  /** The `wallet_addEthereumChain` parameter. */
  datatype NetworkConfig = NetworkConfig(
    chainId: string,
    chainName: string,
    nativeCurrency: NativeCurrency,
    rpcUrls: seq<string>,
    blockExplorerUrls: seq<string>)

  datatype WalletRequest = SwitchChain(chainId: string) | AddChain(config: NetworkConfig)

  const DefaultBank := "0x5FbDB2315678afecb367f032d93F642f64180aa3"
  const DefaultGovernance := "0xe7f1725E7734CE288F8367e1Bb143E90bb3F0512"

  const NotInstalled := "MetaMask is not installed. Please install MetaMask to use this application."
  const SignerMissing := "Signer not initialized. Please connect your wallet first."
  const AddressesMissing := "Contract addresses not loaded. Please deploy contracts first: npm run deploy:local"
  const WalletMissing := "Wallet not connected. Please connect your MetaMask wallet."
  const ProviderMissing := "Provider not initialized"
  const BankMissing := "Bank contract not initialized"
  const GovernanceMissing := "Governance contract not initialized"
  const ContractsMissing := "Contracts not initialized"
  const BadRecipient := "Invalid recipient address"

  function Error(message: string): JsError {
    JsError(None, message)
  }

  // ---------------------------------------------------------------- pure rules

  /** `gasEstimate * 120n / 100n`: the estimate plus 20%, rounded down as bigint division does. */
  function GasLimit(estimate: nat): (limit: nat)
    ensures estimate <= limit
    ensures limit * 100 <= estimate * 120 < (limit + 1) * 100
  {
    estimate * 120 / 100
  }

  /** `envValue || fallback`: an unset or empty variable gives way to the default. */
  function EnvOr(v: Option<string>, fallback: string): (r: string)
    ensures v.Some? && v.value != "" ==> r == v.value
    ensures v.None? || v.value == "" ==> r == fallback
  {
    if v.Some? && v.value != "" then v.value else fallback
  }

  /** The addresses `loadContractAddresses` settles on for the cached manifest `info`. */
  function ResolveAddresses(info: Option<Manifest>, env: Env): (a: ContractAddresses)
    // a manifest with `contracts` and both entries is taken as it is; bankMock only when it lists one
    ensures info.Some? && info.value.contracts.Some?
            && info.value.contracts.value.bank.Some? && info.value.contracts.value.governance.Some?
            ==> a.bank == info.value.contracts.value.bank.value
                && a.governance == info.value.contracts.value.governance.value
                && a.bankMock == info.value.contracts.value.bankMock
    // without `contracts`: the environment, or the defaults where it is unset
    ensures (info.None? || info.value.contracts.None?)
            ==> a == ContractAddresses(EnvOr(env.bankAddress, DefaultBank), EnvOr(env.governanceAddress, DefaultGovernance), None)
    // reading a missing entry throws, and the catch installs the defaults, environment or not
    ensures info.Some? && info.value.contracts.Some?
            && (info.value.contracts.value.bank.None? || info.value.contracts.value.governance.None?)
            ==> a == ContractAddresses(DefaultBank, DefaultGovernance, None)
    ensures a.bankMock.Some? ==> info.Some? && info.value.contracts.Some?
  {
    match info
    case Some(Manifest(Some(c))) =>
      if c.bank.Some? && c.governance.Some? then ContractAddresses(c.bank.value, c.governance.value, c.bankMock)
      else ContractAddresses(DefaultBank, DefaultGovernance, None)
    case _ =>
      ContractAddresses(EnvOr(env.bankAddress, DefaultBank), EnvOr(env.governanceAddress, DefaultGovernance), None)
  }

  const Localhost := 31337
  const LocalhostAlt := 1337
  const Sepolia := 11155111

  /** `getNetworkConfig`: the two local development chains and Sepolia; any other id throws. */
  function GetNetworkConfig(chainId: nat): (r: Result<NetworkConfig, JsError>)
    ensures r.Success? <==> chainId in {Localhost, LocalhostAlt, Sepolia}
    ensures r.Success? ==> r.value.chainId == HexLiteral(chainId)
                           && r.value.nativeCurrency == NativeCurrency("ETH", "ETH", 18)
                           && (r.value.chainName == "Sepolia" <==> chainId == Sepolia)
                           && (r.value.chainName == "Localhost 8545" <==> chainId != Sepolia)
    ensures r.Failure? ==> r.error == Error("Unsupported chain ID: " + ToRadix(chainId, 10))
  {
    if chainId == Localhost || chainId == LocalhostAlt then
      Success(NetworkConfig(HexLiteral(chainId), "Localhost 8545", NativeCurrency("ETH", "ETH", 18),
                            ["http://127.0.0.1:8545"], []))
    else if chainId == Sepolia then
      Success(NetworkConfig(HexLiteral(chainId), "Sepolia", NativeCurrency("ETH", "ETH", 18),
                            ["https://rpc.sepolia.org"], ["https://sepolia.etherscan.io"]))
    else Failure(Error("Unsupported chain ID: " + ToRadix(chainId, 10)))
  }

  /** The table's three chain ids as the wallet receives them. */
  lemma KnownChainIds()
    ensures HexLiteral(Localhost) == "0x7a69"
    ensures HexLiteral(LocalhostAlt) == "0x539"
    ensures HexLiteral(Sepolia) == "0xaa36a7"
  {
    LocalhostDigits();
    LocalhostAltDigits();
    SepoliaDigits();
  }

  lemma LocalhostDigits()
    ensures ToRadix(Localhost, 16) == "7a69"
  {
  }

  lemma LocalhostAltDigits()
    ensures ToRadix(LocalhostAlt, 16) == "539"
  {
    assert ToRadix(5, 16) == "5";
    assert ToRadix(83, 16) == "53";
  }

  lemma SepoliaDigits()
    ensures ToRadix(Sepolia, 16) == "aa36a7"
  {
    assert ToRadix(10, 16) == "a";
    assert ToRadix(170, 16) == "aa";
    assert ToRadix(2723, 16) == "aa3";
    assert ToRadix(43574, 16) == "aa36";
    assert ToRadix(697194, 16) == "aa36a";
  }

  // ---------------------------------------------------------------- module state

  /** The module-level state of the service file: the cached manifest and the singleton instance. */
  class ServiceModule {
    var deploymentInfo: Option<Manifest>
    var instance: Web3Service?

    constructor ()
      ensures deploymentInfo == None && instance == null
    {
      deploymentInfo := None;
      instance := null;
    }

    /** `Web3Service.getInstance()`: creates the service on the first call and returns that same
        object on every later call. */
    method GetInstance() returns (s: Web3Service)
      modifies this
      ensures instance == s
      ensures old(instance) != null ==> s == old(instance)
      ensures old(instance) == null ==> fresh(s) && s.Empty()
      ensures deploymentInfo == old(deploymentInfo)
    {
      if instance == null {
        instance := new Web3Service();
      }
      s := instance;
    }
  }

  // ---------------------------------------------------------------- the service

  class Web3Service {
    var provider: Option<Provider>
    var signer: Option<Signer>
    var contractAddresses: Option<ContractAddresses>
    var bankContract: Option<ContractHandle>
    var governanceContract: Option<ContractHandle>

    /** Both contract handles are created together, each with its own ABI. */
    ghost predicate Valid()
      reads this
    {
      && (bankContract.Some? <==> governanceContract.Some?)
      && (bankContract.Some? ==> bankContract.value.abi == BankAbi && governanceContract.value.abi == GovernanceAbi)
    }

    predicate Empty()
      reads this
    {
      provider.None? && signer.None? && contractAddresses.None? && bankContract.None? && governanceContract.None?
    }

    constructor ()
      ensures Valid() && Empty()
    {
      provider, signer, contractAddresses := None, None, None;
      bankContract, governanceContract := None, None;
    }

    /** `initialize`: the provider is created, account access requested, the signer taken, the addresses
        loaded and both contracts bound. A refused access request leaves the provider set and the rest. */
    method Initialize(m: ServiceModule, installed: bool, accessRequest: Outcome<JsError>, wallet: Signer,
                      fetched: Option<Manifest>, env: Env) returns (r: Outcome<JsError>)
      requires Valid()
      modifies this, m
      ensures Valid()
      ensures !installed ==> r == Fail(Error(NotInstalled)) && unchanged(this) && unchanged(m)
      ensures installed && accessRequest.Fail? ==>
                && r == accessRequest && provider == Some(BrowserProvider)
                && signer == old(signer) && contractAddresses == old(contractAddresses)
                && bankContract == old(bankContract) && governanceContract == old(governanceContract)
                && unchanged(m)
      ensures installed && accessRequest.Pass? ==>
                && r == Pass && provider == Some(BrowserProvider) && signer == Some(wallet)
                && m.deploymentInfo == (if old(m.deploymentInfo).Some? then old(m.deploymentInfo) else fetched)
                && contractAddresses == Some(ResolveAddresses(m.deploymentInfo, env))
                && bankContract == Some(ContractHandle(contractAddresses.value.bank, BankAbi, wallet))
                && governanceContract == Some(ContractHandle(contractAddresses.value.governance, GovernanceAbi, wallet))
      ensures m.instance == old(m.instance)
    {
      if !installed {
        return Fail(Error(NotInstalled));
      }
      provider := Some(BrowserProvider);
      if accessRequest.Fail? {
        return accessRequest;
      }
      signer := Some(wallet);
      LoadContractAddresses(m, fetched, env);
      r := InitializeContracts();
    }

    /** `loadContractAddresses`: the manifest is imported only while none is cached (`fetched` is what
        the import yields, `None` when it fails), and the addresses are resolved from the cache. */
    method LoadContractAddresses(m: ServiceModule, fetched: Option<Manifest>, env: Env)
      modifies this`contractAddresses, m`deploymentInfo
      ensures old(m.deploymentInfo).Some? ==> m.deploymentInfo == old(m.deploymentInfo)
      ensures old(m.deploymentInfo).None? ==> m.deploymentInfo == fetched
      ensures contractAddresses == Some(ResolveAddresses(m.deploymentInfo, env))
    {
      if m.deploymentInfo.None? {
        m.deploymentInfo := fetched;
      }
      contractAddresses := Some(ResolveAddresses(m.deploymentInfo, env));
    }

    /** `initializeContracts`: needs a signer, then loaded addresses; binds both contracts to them. */
    method InitializeContracts() returns (r: Outcome<JsError>)
      modifies this`bankContract, this`governanceContract
      ensures signer.None? ==> r == Fail(Error(SignerMissing)) && unchanged(this)
      ensures signer.Some? && contractAddresses.None? ==> r == Fail(Error(AddressesMissing)) && unchanged(this)
      ensures signer.Some? && contractAddresses.Some? ==>
                && r == Pass
                && bankContract == Some(ContractHandle(contractAddresses.value.bank, BankAbi, signer.value))
                && governanceContract == Some(ContractHandle(contractAddresses.value.governance, GovernanceAbi, signer.value))
    {
      if signer.None? {
        return Fail(Error(SignerMissing));
      }
      if contractAddresses.None? {
        return Fail(Error(AddressesMissing));
      }
      bankContract := Some(ContractHandle(contractAddresses.value.bank, BankAbi, signer.value));
      governanceContract := Some(ContractHandle(contractAddresses.value.governance, GovernanceAbi, signer.value));
      r := Pass;
    }

    // -------------------------------------------------------------- reads

    /** `getAddress`: the signer's account. */
    method GetAddress() returns (r: Result<string, JsError>)
      ensures signer.None? <==> r.Failure?
      ensures r.Failure? ==> r.error == Error(WalletMissing)
      ensures r.Success? ==> r.value == signer.value.address
    {
      if signer.None? {
        return Failure(Error(WalletMissing));
      }
      r := Success(signer.value.address);
    }

    /** `getBalance`: the ether balance is read for the signer's account through the provider. */
    method GetBalance() returns (r: Result<string, JsError>)
      ensures (provider.None? || signer.None?) <==> r.Failure?
      ensures r.Failure? ==> r.error == Error(ProviderMissing)
      ensures r.Success? ==> r.value == signer.value.address
    {
      if provider.None? || signer.None? {
        return Failure(Error(ProviderMissing));
      }
      r := Success(signer.value.address);
    }

    /** The account a read is about: the given address, or the signer's when it is empty. */
    method UserAddress(address: string) returns (r: Result<string, JsError>)
      ensures address != "" ==> r == Success(address)
      ensures address == "" && signer.None? ==> r == Failure(Error(WalletMissing))
      ensures address == "" && signer.Some? ==> r == Success(signer.value.address)
    {
      if address != "" {
        return Success(address);
      }
      r := GetAddress();
    }

    /** `getBankBalance`: `balances(address)` on the bank contract. */
    method GetBankBalance(address: string) returns (r: Result<Invocation, JsError>)
      ensures bankContract.None? ==> r == Failure(Error(BankMissing))
      ensures bankContract.Some? && address != "" ==> r == Success(Invocation(bankContract.value, Balances(address), None))
      ensures bankContract.Some? && address == "" ==>
                r == if signer.None? then Failure(Error(WalletMissing))
                     else Success(Invocation(bankContract.value, Balances(signer.value.address), None))
    {
      if bankContract.None? {
        return Failure(Error(BankMissing));
      }
      var who := UserAddress(address);
      if who.Failure? {
        return Failure(who.error);
      }
      r := Success(Invocation(bankContract.value, Balances(who.value), None));
    }

    /** `getUserTransactions`: `getUserTransactions(address)` on the bank contract. */
    method GetUserTransactions(address: string) returns (r: Result<Invocation, JsError>)
      ensures bankContract.None? ==> r == Failure(Error(BankMissing))
      ensures bankContract.Some? && address != "" ==> r == Success(Invocation(bankContract.value, UserTransactions(address), None))
      ensures bankContract.Some? && address == "" ==>
                r == if signer.None? then Failure(Error(WalletMissing))
                     else Success(Invocation(bankContract.value, UserTransactions(signer.value.address), None))
    {
      if bankContract.None? {
        return Failure(Error(BankMissing));
      }
      var who := UserAddress(address);
      if who.Failure? {
        return Failure(who.error);
      }
      r := Success(Invocation(bankContract.value, UserTransactions(who.value), None));
    }

    /** `getTopHolders`. */
    method GetTopHolders() returns (r: Result<Invocation, JsError>)
      ensures bankContract.None? <==> r.Failure?
      ensures r.Failure? ==> r.error == Error(BankMissing)
      ensures r.Success? ==> r.value == Invocation(bankContract.value, TopHolders, None)
    {
      if bankContract.None? {
        return Failure(Error(BankMissing));
      }
      r := Success(Invocation(bankContract.value, TopHolders, None));
    }

    /** `getProposal`. */
    method GetProposal(proposalId: int) returns (r: Result<Invocation, JsError>)
      ensures governanceContract.None? <==> r.Failure?
      ensures r.Failure? ==> r.error == Error(GovernanceMissing)
      ensures r.Success? ==> r.value == Invocation(governanceContract.value, ProposalRead(proposalId), None)
    {
      if governanceContract.None? {
        return Failure(Error(GovernanceMissing));
      }
      r := Success(Invocation(governanceContract.value, ProposalRead(proposalId), None));
    }

    /** `getProposalCount`. */
    method GetProposalCount() returns (r: Result<Invocation, JsError>)
      ensures governanceContract.None? <==> r.Failure?
      ensures r.Failure? ==> r.error == Error(GovernanceMissing)
      ensures r.Success? ==> r.value == Invocation(governanceContract.value, ProposalCount, None)
    {
      if governanceContract.None? {
        return Failure(Error(GovernanceMissing));
      }
      r := Success(Invocation(governanceContract.value, ProposalCount, None));
    }

    /** `hasVoted`: the governance guard comes before the account lookup. */
    method HasVoted(proposalId: int, address: string) returns (r: Result<Invocation, JsError>)
      ensures governanceContract.None? ==> r == Failure(Error(GovernanceMissing))
      ensures governanceContract.Some? && address != "" ==>
                r == Success(Invocation(governanceContract.value, HasVotedRead(proposalId, address), None))
      ensures governanceContract.Some? && address == "" ==>
                r == if signer.None? then Failure(Error(WalletMissing))
                     else Success(Invocation(governanceContract.value, HasVotedRead(proposalId, signer.value.address), None))
    {
      if governanceContract.None? {
        return Failure(Error(GovernanceMissing));
      }
      var who := UserAddress(address);
      if who.Failure? {
        return Failure(who.error);
      }
      r := Success(Invocation(governanceContract.value, HasVotedRead(proposalId, who.value), None));
    }

    /** `getChainId` and `waitForTransaction` need the provider and nothing else. */
    method RequireProvider() returns (r: Outcome<JsError>)
      ensures provider.None? <==> r.Fail?
      ensures r.Fail? ==> r.error == Error(ProviderMissing)
    {
      if provider.None? {
        return Fail(Error(ProviderMissing));
      }
      r := Pass;
    }

    /** `getContractAddresses`. */
    method GetContractAddresses() returns (r: Result<ContractAddresses, JsError>)
      ensures contractAddresses.None? <==> r.Failure?
      ensures r.Failure? ==> r.error == Error(ContractsMissing)
      ensures r.Success? ==> r.value == contractAddresses.value
    {
      if contractAddresses.None? {
        return Failure(Error(ContractsMissing));
      }
      r := Success(contractAddresses.value);
    }

    /** `getBankContract`. */
    method GetBankContract() returns (r: Result<ContractHandle, JsError>)
      ensures bankContract.None? <==> r.Failure?
      ensures r.Failure? ==> r.error == Error(BankMissing)
      ensures r.Success? ==> r.value == bankContract.value
    {
      if bankContract.None? {
        return Failure(Error(BankMissing));
      }
      r := Success(bankContract.value);
    }

    /** `getGovernanceContract`. */
    method GetGovernanceContract() returns (r: Result<ContractHandle, JsError>)
      ensures governanceContract.None? <==> r.Failure?
      ensures r.Failure? ==> r.error == Error(GovernanceMissing)
      ensures r.Success? ==> r.value == governanceContract.value
    {
      if governanceContract.None? {
        return Failure(Error(GovernanceMissing));
      }
      r := Success(governanceContract.value);
    }

    // -------------------------------------------------------------- writes

    /** `deposit`: the wei `value` is sent with a gas limit 20% over `estimate` (the result of
        `estimateGas`, which may throw). */
    method Deposit(value: nat, estimate: Result<nat, JsError>) returns (r: Result<Invocation, JsError>)
      ensures bankContract.None? ==> r == Failure(Error(BankMissing))
      ensures bankContract.Some? && estimate.Failure? ==> r == Failure(estimate.error)
      ensures r.Success? ==> r.value == Invocation(bankContract.value, DepositCall(value), Some(GasLimit(estimate.value)))
      ensures r.Success? <==> bankContract.Some? && estimate.Success?
    {
      if bankContract.None? {
        return Failure(Error(BankMissing));
      }
      if estimate.Failure? {
        return Failure(estimate.error);
      }
      r := Success(Invocation(bankContract.value, DepositCall(value), Some(GasLimit(estimate.value))));
    }

    /** `withdraw`. */
    method Withdraw(amount: nat, estimate: Result<nat, JsError>) returns (r: Result<Invocation, JsError>)
      ensures bankContract.None? ==> r == Failure(Error(BankMissing))
      ensures bankContract.Some? && estimate.Failure? ==> r == Failure(estimate.error)
      ensures r.Success? ==> r.value == Invocation(bankContract.value, WithdrawCall(amount), Some(GasLimit(estimate.value)))
      ensures r.Success? <==> bankContract.Some? && estimate.Success?
    {
      if bankContract.None? {
        return Failure(Error(BankMissing));
      }
      if estimate.Failure? {
        return Failure(estimate.error);
      }
      r := Success(Invocation(bankContract.value, WithdrawCall(amount), Some(GasLimit(estimate.value))));
    }

    /** `transfer`: a recipient that `ethers.isAddress` rejects (`isAddress` is its verdict) fails
        before any estimate, whatever the estimate would have been. */
    method Transfer(to: string, amount: nat, isAddress: bool, estimate: Result<nat, JsError>)
      returns (r: Result<Invocation, JsError>)
      ensures bankContract.None? ==> r == Failure(Error(BankMissing))
      ensures bankContract.Some? && !isAddress ==> r == Failure(Error(BadRecipient))
      ensures bankContract.Some? && isAddress && estimate.Failure? ==> r == Failure(estimate.error)
      ensures r.Success? ==> r.value == Invocation(bankContract.value, TransferCall(to, amount), Some(GasLimit(estimate.value)))
      ensures r.Success? <==> bankContract.Some? && isAddress && estimate.Success?
    {
      if bankContract.None? {
        return Failure(Error(BankMissing));
      }
      if !isAddress {
        return Failure(Error(BadRecipient));
      }
      if estimate.Failure? {
        return Failure(estimate.error);
      }
      r := Success(Invocation(bankContract.value, TransferCall(to, amount), Some(GasLimit(estimate.value))));
    }

    /** `createProposal`. */
    method CreateProposal(title: string, description: string, estimate: Result<nat, JsError>)
      returns (r: Result<Invocation, JsError>)
      ensures governanceContract.None? ==> r == Failure(Error(GovernanceMissing))
      ensures governanceContract.Some? && estimate.Failure? ==> r == Failure(estimate.error)
      ensures r.Success? ==> r.value == Invocation(governanceContract.value, CreateProposalCall(title, description),
                                                   Some(GasLimit(estimate.value)))
      ensures r.Success? <==> governanceContract.Some? && estimate.Success?
    {
      if governanceContract.None? {
        return Failure(Error(GovernanceMissing));
      }
      if estimate.Failure? {
        return Failure(estimate.error);
      }
      r := Success(Invocation(governanceContract.value, CreateProposalCall(title, description), Some(GasLimit(estimate.value))));
    }

    /** `vote`. */
    method Vote(proposalId: int, support: bool, estimate: Result<nat, JsError>) returns (r: Result<Invocation, JsError>)
      ensures governanceContract.None? ==> r == Failure(Error(GovernanceMissing))
      ensures governanceContract.Some? && estimate.Failure? ==> r == Failure(estimate.error)
      ensures r.Success? ==> r.value == Invocation(governanceContract.value, VoteCall(proposalId, support),
                                                   Some(GasLimit(estimate.value)))
      ensures r.Success? <==> governanceContract.Some? && estimate.Success?
    {
      if governanceContract.None? {
        return Failure(Error(GovernanceMissing));
      }
      if estimate.Failure? {
        return Failure(estimate.error);
      }
      r := Success(Invocation(governanceContract.value, VoteCall(proposalId, support), Some(GasLimit(estimate.value))));
    }

    // -------------------------------------------------------------- network switch

    /** `switchNetwork`: a switch request first; only the wallet's "unknown chain" code 4902 leads on to
        an add-chain request (whose outcome is `addOutcome`), any other failure is rethrown as it is. */
    method SwitchNetwork(installed: bool, chainId: nat, switchOutcome: Outcome<JsError>, addOutcome: Outcome<JsError>)
      returns (requests: seq<WalletRequest>, r: Outcome<JsError>)
      ensures !installed ==> requests == [] && r == Fail(Error("MetaMask is not installed"))
      ensures installed ==> |requests| >= 1 && requests[0] == SwitchChain(HexLiteral(chainId))
      ensures installed && switchOutcome.Pass? ==> requests == [SwitchChain(HexLiteral(chainId))] && r == Pass
      ensures (exists i :: 0 <= i < |requests| && requests[i].AddChain?)
                <==> installed && switchOutcome.Fail? && switchOutcome.error.code == Some(4902)
                     && GetNetworkConfig(chainId).Success?
      ensures installed && switchOutcome.Fail? && switchOutcome.error.code != Some(4902) ==>
                requests == [SwitchChain(HexLiteral(chainId))] && r == switchOutcome
      ensures installed && switchOutcome.Fail? && switchOutcome.error.code == Some(4902) ==>
                match GetNetworkConfig(chainId)
                case Success(config) => requests == [SwitchChain(HexLiteral(chainId)), AddChain(config)] && r == addOutcome
                case Failure(e) => requests == [SwitchChain(HexLiteral(chainId))] && r == Fail(e)
    {
      if !installed {
        return [], Fail(Error("MetaMask is not installed"));
      }
      var chainIdHex := HexLiteral(chainId);
      requests := [SwitchChain(chainIdHex)];
      r := Pass;
      if switchOutcome.Fail? {
        if switchOutcome.error.code == Some(4902) {
          var config := GetNetworkConfig(chainId);
          if config.Failure? {
            return requests, Fail(config.error);
          }
          requests := requests + [AddChain(config.value)];
          assert requests[1].AddChain?;
          r := addOutcome;
        } else {
          r := switchOutcome;
        }
      }
    }
  }

  /** Every write method uses the same limit, and it never undercuts the estimate. */
  lemma GasLimitCoversEstimate(estimate: nat)
    ensures GasLimit(estimate) >= estimate
    ensures GasLimit(estimate) - estimate == estimate / 5
  {
  }
}
