/** The Ethos contract registry: which network an environment runs on, which
    deployment dataset it reads, the fixed table of ten contracts, and how a
    dataset entry resolves to the published (proxy-aware) contract address.

    Two things the registry reads from outside are parameters here:
    - the per-contract JSON deployment files, as a `Dataset` function;
    - viem's `getAddress` (EIP-55 checksumming), as an `AddressNormaliser`. */
module ContractRegistry {
  import opened Wrappers

  // ---------------------------------------------------------------------------
  // Environments and networks
  // ---------------------------------------------------------------------------

  datatype Environment = Local | Dev | Testnet | Prod

  datatype Network = BaseSepolia | BaseMainnet

  /** The string a `Network` stands for in the source. */
  function NetworkName(n: Network): string {
    match n
    case BaseSepolia => "base-sepolia"
    case BaseMainnet => "base-mainnet"
  }

  /** ETHOS_ENVIRONMENT_NETWORKS: a record over every environment. */
  const EthosEnvironmentNetworks: map<Environment, Network> :=
    map[Local := BaseSepolia, Dev := BaseSepolia, Testnet := BaseSepolia, Prod := BaseMainnet]

  /** The table is total over the environments, as a TypeScript `Record` is. */
  lemma EnvironmentNetworksTotal(e: Environment)
    ensures e in EthosEnvironmentNetworks
  {
    match e
    case Local =>
    case Dev =>
    case Testnet =>
    case Prod =>
  }

  function GetNetworkByEnvironment(e: Environment): (n: Network)
    ensures n == BaseMainnet <==> e == Prod
    ensures n == BaseSepolia <==> e in {Local, Dev, Testnet}
  {
    EnvironmentNetworksTotal(e);
    EthosEnvironmentNetworks[e]
  }

  /** Compares the network's name with the string 'base-mainnet', as the source does. */
  function IsMainnetEnvironment(e: Environment): (r: bool)
    ensures r == (GetNetworkByEnvironment(e) == BaseMainnet)
    ensures r <==> e == Prod
  {
    EnvironmentNetworksTotal(e);
    NetworkName(EthosEnvironmentNetworks[e]) == "base-mainnet"
  }

  // ---------------------------------------------------------------------------
  // Dataset keys
  // ---------------------------------------------------------------------------

  /** The keys of a deployment JSON file: every environment but `local`. */
  type DatasetKey = e: Environment | e != Local witness Dev

  /** Local development reuses the dev deployment. */
  function GetContractKeyByEnvironment(e: Environment): (k: DatasetKey)
    ensures k == e <==> e != Local
    ensures e == Local ==> k == Dev
  {
    if e == Local then Dev else e
  }

  // ---------------------------------------------------------------------------
  // Contract identifiers and the fixed contract table
  // ---------------------------------------------------------------------------

  datatype ContractId =
    | Attestation | ContractAddressManager | Discussion | InteractionControl | Profile
    | ReputationMarket | Review | SignatureVerifier | Vote | Vouch

  /** The identifier as it appears as an object key (`'attestation'`, ...). */
  function ContractIdName(c: ContractId): string {
    match c
    case Attestation => "attestation"
    case ContractAddressManager => "contractAddressManager"
    case Discussion => "discussion"
    case InteractionControl => "interactionControl"
    case Profile => "profile"
    case ReputationMarket => "reputationMarket"
    case Review => "review"
    case SignatureVerifier => "signatureVerifier"
    case Vote => "vote"
    case Vouch => "vouch"
  }

  /** Reads an object key back as a contract identifier. */
  function ParseContractId(s: string): Option<ContractId> {
    if s == "attestation" then Some(Attestation)
    else if s == "contractAddressManager" then Some(ContractAddressManager)
    else if s == "discussion" then Some(Discussion)
    else if s == "interactionControl" then Some(InteractionControl)
    else if s == "profile" then Some(Profile)
    else if s == "reputationMarket" then Some(ReputationMarket)
    else if s == "review" then Some(Review)
    else if s == "signatureVerifier" then Some(SignatureVerifier)
    else if s == "vote" then Some(Vote)
    else if s == "vouch" then Some(Vouch)
    else None
  }

  /** smartContractNames: the symbolic alias of each contract. */
  function SmartContractName(c: ContractId): string {
    match c
    case Attestation => "ETHOS_ATTESTATION"
    case ContractAddressManager => "ETHOS_CONTRACT_ADDRESS_MANAGER"
    case Discussion => "ETHOS_DISCUSSION"
    case InteractionControl => "ETHOS_INTERACTION_CONTROL"
    case Profile => "ETHOS_PROFILE"
    case ReputationMarket => "ETHOS_REPUTATION_MARKET"
    case Review => "ETHOS_REVIEW"
    case SignatureVerifier => "ETHOS_SIGNATURE_VERIFIER"
    case Vote => "ETHOS_VOTE"
    case Vouch => "ETHOS_VOUCH"
  }

  /** `contracts`: the keys of smartContractNames, in declaration order. */
  const Contracts: seq<ContractId> :=
    [Attestation, ContractAddressManager, Discussion, InteractionControl, Profile,
     ReputationMarket, Review, SignatureVerifier, Vote, Vouch]

  /** The order of the object literal built by getContractsMap, which is the
      order `Object.entries` visits it in (reputationMarket precedes profile). */
  const ContractsMapOrder: seq<ContractId> :=
    [Attestation, ContractAddressManager, Discussion, InteractionControl, ReputationMarket,
     Profile, Review, SignatureVerifier, Vote, Vouch]

  /** Position of a contract in ContractsMapOrder. */
  function MapPosition(c: ContractId): (i: nat)
    ensures i < |ContractsMapOrder| && ContractsMapOrder[i] == c
  {
    match c
    case Attestation => 0
    case ContractAddressManager => 1
    case Discussion => 2
    case InteractionControl => 3
    case ReputationMarket => 4
    case Profile => 5
    case Review => 6
    case SignatureVerifier => 7
    case Vote => 8
    case Vouch => 9
  }

  /** The part of each getContractsMap entry that does not come from the dataset. */
  datatype ContractSpec = ContractSpec(name: string, alias: Option<string>, isUpgradeable: bool)

  function SpecOf(c: ContractId): ContractSpec {
    match c
    case Attestation => ContractSpec("EthosAttestation", Some(SmartContractName(Attestation)), true)
    case ContractAddressManager => ContractSpec("ContractAddressManager", None, false)
    case Discussion => ContractSpec("EthosDiscussion", Some(SmartContractName(Discussion)), true)
    case InteractionControl =>
      ContractSpec("InteractionControl", Some(SmartContractName(InteractionControl)), false)
    case ReputationMarket =>
      ContractSpec("ReputationMarket", Some(SmartContractName(ReputationMarket)), true)
    case Profile => ContractSpec("EthosProfile", Some(SmartContractName(Profile)), true)
    case Review => ContractSpec("EthosReview", Some(SmartContractName(Review)), true)
    case SignatureVerifier => ContractSpec("SignatureVerifier", None, false)
    case Vote => ContractSpec("EthosVote", Some(SmartContractName(Vote)), true)
    case Vouch => ContractSpec("EthosVouch", Some(SmartContractName(Vouch)), true)
  }

  // ---------------------------------------------------------------------------
  // Target contracts
  // ---------------------------------------------------------------------------

  const AttestationContractName: string := "attestation"
  const ReviewContractName: string := "review"
  const VouchContractName: string := "vouch"
  const DiscussionContractName: string := "discussion"

  const ValidTargets: seq<string> :=
    [AttestationContractName, ReviewContractName, VouchContractName, DiscussionContractName]

  /** A JavaScript value of unknown type, as far as `typeof value === 'string'` can tell. */
  datatype JsValue = JsString(s: string) | JsNonString

  /** `xs.some((v) => v === s)`, scanning from the front. */
  function SomeEqual(xs: seq<string>, s: string): (r: bool)
    ensures r <==> s in xs
  {
    |xs| > 0 && (xs[0] == s || SomeEqual(xs[1..], s))
  }

  function IsTargetContract(value: JsValue): (r: bool)
    ensures r <==> value.JsString? && value.s in {"attestation", "review", "vouch", "discussion"}
  {
    value.JsString? && SomeEqual(ValidTargets, value.s)
  }

  // ---------------------------------------------------------------------------
  // Deployment data and address resolution
  // ---------------------------------------------------------------------------

  /** One environment's entry of a deployment JSON file; an absent or null
      `address` or `proxyAddress` is `None`. */
  datatype RawEntry = RawEntry(address: Option<string>, proxyAddress: Option<string>)

  /** The ten JSON files, indexed by contract and dataset key. */
  type Dataset = (ContractId, DatasetKey) -> RawEntry

  /** viem's getAddress: the argument `None` is a null or undefined JSON value;
      the result `None` means the call throws an invalid-address error. */
  type AddressNormaliser = Option<string> -> Option<string>

  /** The errors the registry throws. `MissingAddress(c)` stands for the
      `Error` whose message is `MissingAddressMessage(c)`. */
  datatype Error =
    | InvalidAddress(value: Option<string>)  // thrown by getAddress
    | MissingAddress(contract: ContractId)

  /** The prefix of the missing-address message; the contract key follows it. */
  const MissingAddressPrefix: string := "Missing contract address for "

  function MissingAddressMessage(c: ContractId): (m: string)
    ensures |MissingAddressPrefix| <= |m| && m[..|MissingAddressPrefix|] == MissingAddressPrefix
    ensures ParseContractId(m[|MissingAddressPrefix|..]) == Some(c)
  {
    var m := MissingAddressPrefix + ContractIdName(c);
    assert m[|MissingAddressPrefix|..] == ContractIdName(c);
    m
  }

  /** A source entry of getContractsMap: the two shapes
      UpgradeableContractParams and NonUpgradeableContractParams. */
  datatype ContractParams =
    | UpgradeableParams(name: string, alias: Option<string>, address: string, proxyAddress: string)
    | NonUpgradeableParams(name: string, alias: Option<string>, address: string)
  {
    predicate IsUpgradeable() {
      UpgradeableParams?
    }
  }

  predicate Normalises(getAddress: AddressNormaliser, v: Option<string>) {
    getAddress(v).Some?
  }

  function GetAddress(getAddress: AddressNormaliser, v: Option<string>): Result<string, Error> {
    match getAddress(v)
    case Some(a) => Success(a)
    case None => Failure(InvalidAddress(v))
  }

  /** One entry of getContractsMap: the direct address is normalised first,
      then, for an upgradeable contract, the proxy address. */
  function BuildParams(spec: ContractSpec, raw: RawEntry, getAddress: AddressNormaliser)
    : (r: Result<ContractParams, Error>)
    ensures r.Success? <==>
      Normalises(getAddress, raw.address)
      && (spec.isUpgradeable ==> Normalises(getAddress, raw.proxyAddress))
    ensures r.Success? ==>
      && r.value.name == spec.name
      && r.value.alias == spec.alias
      && r.value.IsUpgradeable() == spec.isUpgradeable
      && r.value.address == getAddress(raw.address).value
      && (spec.isUpgradeable ==> r.value.proxyAddress == getAddress(raw.proxyAddress).value)
    ensures r.Failure? ==>
      if !Normalises(getAddress, raw.address) then r.error == InvalidAddress(raw.address)
      else spec.isUpgradeable && r.error == InvalidAddress(raw.proxyAddress)
  {
    var address :- GetAddress(getAddress, raw.address);
    if spec.isUpgradeable then
      var proxyAddress :- GetAddress(getAddress, raw.proxyAddress);
      Success(UpgradeableParams(spec.name, spec.alias, address, proxyAddress))
    else
      Success(NonUpgradeableParams(spec.name, spec.alias, address))
  }

  /** The entry getContractsMap builds for contract `c` from dataset key `key`. */
  function ParamsAt(data: Dataset, getAddress: AddressNormaliser, key: DatasetKey, c: ContractId)
    : Result<ContractParams, Error>
  {
    BuildParams(SpecOf(c), data(c, key), getAddress)
  }

  /** Evaluates the object literal field by field; the first throw wins. */
  function BuildAll(data: Dataset, getAddress: AddressNormaliser, key: DatasetKey, order: seq<ContractId>)
    : Result<seq<(ContractId, ContractParams)>, Error>
  {
    if order == [] then Success([])
    else
      var params :- ParamsAt(data, getAddress, key, order[0]);
      var rest :- BuildAll(data, getAddress, key, order[1..]);
      Success([(order[0], params)] + rest)
  }

  /** getContractsMap, as the sequence `Object.entries` yields from it. */
  function GetContractsMap(data: Dataset, getAddress: AddressNormaliser, e: Environment)
    : Result<seq<(ContractId, ContractParams)>, Error>
  {
    BuildAll(data, getAddress, GetContractKeyByEnvironment(e), ContractsMapOrder)
  }

  /** An entry of ContractLookup; `alias` is `None` when the property is not set. */
  datatype LookupEntry = LookupEntry(
    name: string, address: string, isProxy: bool, isUpgradeable: bool, alias: Option<string>)

  /** The address a resolved entry publishes: the proxy for an upgradeable
      contract, the direct address otherwise. */
  function ChosenAddress(p: ContractParams): string {
    match p
    case UpgradeableParams(_, _, _, proxyAddress) => proxyAddress
    case NonUpgradeableParams(_, _, address) => address
  }

  /** The callback of `.map` in getContractsForEnvironment. A null or empty
      address is falsy and makes it throw. */
  function ResolveEntry(key: ContractId, value: ContractParams): (r: Result<LookupEntry, Error>)
    ensures r.Success? <==> ChosenAddress(value) != ""
    ensures r.Failure? ==> r.error == MissingAddress(key)
    ensures r.Success? ==>
      && r.value.address == ChosenAddress(value)
      && r.value.name == value.name
      && r.value.isProxy == r.value.isUpgradeable == value.IsUpgradeable()
      && r.value.alias == value.alias
  {
    var address := value.address;
    var proxyAddress: Option<string> := if !value.IsUpgradeable() then None else Some(value.proxyAddress);
    var contractAddress := if value.IsUpgradeable() then proxyAddress else Some(address);
    if contractAddress.None? || contractAddress.value == "" then
      Failure(MissingAddress(key))
    else
      Success(LookupEntry(value.name, contractAddress.value, value.IsUpgradeable(),
                          value.IsUpgradeable(), value.alias))
  }

  /** `.map(ResolveEntry)` over the entries; the first throw wins. */
  function ResolveAll(entries: seq<(ContractId, ContractParams)>)
    : Result<seq<(ContractId, LookupEntry)>, Error>
  {
    if entries == [] then Success([])
    else
      var data :- ResolveEntry(entries[0].0, entries[0].1);
      var rest :- ResolveAll(entries[1..]);
      Success([(entries[0].0, data)] + rest)
  }

  /** `Object.fromEntries`: a later entry overrides an earlier one with the same key. */
  function FromEntries<K, V>(entries: seq<(K, V)>): map<K, V> {
    if entries == [] then map[]
    else
      var last := entries[|entries| - 1];
      FromEntries(entries[..|entries| - 1])[last.0 := last.1]
  }

  function GetContractsForEnvironment(data: Dataset, getAddress: AddressNormaliser, e: Environment)
    : Result<map<ContractId, LookupEntry>, Error>
  {
    var contractsMap :- GetContractsMap(data, getAddress, e);
    var contractEntries :- ResolveAll(contractsMap);
    Success(FromEntries(contractEntries))
  }
}
