# Ethos contract registry: a Dafny model

This project models the contract registry of the Ethos `contracts` package
(`ethos/packages/contracts/src/index.ts`). The registry is a typed
configuration accessor with these parts:

- a fixed table that maps each of the four environments (`local`, `dev`,
  `testnet`, `prod`) to one of two Base networks;
- the rule that `local` reuses the `dev` deployment dataset;
- the fixed table of ten contracts, with their names, upgradeability flags and
  aliases (`smartContractNames`, `contracts`, the literal in `getContractsMap`);
- `getContractsForEnvironment`. It reads each contract's deployment entry for
  the environment's dataset key and normalises the addresses with viem's
  `getAddress`. It publishes the proxy address of an upgradeable contract and
  the direct address of any other, copies name and alias, and sets `isProxy`
  to `isUpgradeable`. It throws when an address is invalid or when the chosen
  address is missing;
- `isTargetContract`, a membership test over the four target contract names.

The model is pure: datatypes, functions and lemmas, as the source is.

Files:

- `wrappers.dfy`: `Option` and `Result`.
- `registry.dfy` (module `ContractRegistry`): the data model and every
  operation of the source file.
- `registry_tables.dfy` (module `RegistryTables`): properties of the fixed
  tables.
- `resolution.dfy` (module `Resolution`): what `getContractsForEnvironment`
  returns or throws, stated per contract.

Two things from outside the source file are **parameters** of the model:

- `Dataset = (ContractId, DatasetKey) -> RawEntry` stands for the ten
  per-contract JSON files. The JSON files are not part of this model.
- `AddressNormaliser = Option<string> -> Option<string>` stands for viem's
  `getAddress`. An argument of `None` is a null or undefined JSON value. A
  result of `None` means the call throws. EIP-55 checksumming is not
  modelled.

Every lemma holds for all datasets and all normalisers, unless its `requires`
says otherwise.

Exceptions are modelled as `Result`. `Error` has two cases:

- `InvalidAddress(value)`, thrown by `getAddress`;
- `MissingAddress(contract)`, the message `Missing contract address for <key>`.

Object insertion order matters in two places. The order of the
`getContractsMap` literal decides which error is thrown first, and it is also
the key order of the object that `getContractsForEnvironment` returns
(`Object.fromEntries` keeps the order of its entries). `ContractsMapOrder` is
that order, in which `reputationMarket` comes before `profile`. The model
states the first of these; the second is listed under "## Left out".
`Contracts` is the order of `smartContractNames`.

### How an absent address is reported

`getContractsMap` (index.ts:181-247) calls `getAddress` on every address it
reads, including every `proxyAddress` (index.ts:186, 198, 211, 218, 225, 237,
244). These calls all run before the `if (!contractAddress)` test in
`getContractsForEnvironment` (index.ts:132-134). The model keeps that order,
with these consequences:

- A `null` or absent address, direct or proxy, reaches `getAddress` first. A
  normaliser that rejects absent values, as viem's does, then throws the
  invalid-address error, not the error that names the contract
  (`AbsentChosenAddressFailsInGetAddress` for any contract,
  `AbsentAttestationProxyFailsInGetAddress` for the exact error of the first
  field).
- `Missing contract address for <key>` is thrown only when `getAddress`
  returns an empty (falsy) string. It cannot happen when `getAddress` returns
  only well-formed addresses (`WellFormedAddressesNeverMissing`).
- `MissingAddress(c)` stands for the error whose message is
  `MissingAddressMessage(c)`: the fixed prefix followed by the key of `c`.

## Model

| member | source | states |
|---|---|---|
| `ContractRegistry.EnvironmentNetworksTotal` | ethos/packages/contracts/src/index.ts:41-46 | ETHOS_ENVIRONMENT_NETWORKS has an entry for every environment |
| `ContractRegistry.GetNetworkByEnvironment` | ethos/packages/contracts/src/index.ts:115-117 | the network is base-mainnet iff the environment is prod; local, dev and testnet give base-sepolia |
| `ContractRegistry.IsMainnetEnvironment` | ethos/packages/contracts/src/index.ts:119-121 | true iff the environment's network is base-mainnet, which holds iff the environment is prod |
| `ContractRegistry.GetContractKeyByEnvironment` | ethos/packages/contracts/src/index.ts:169-174 | the dataset key differs from the environment exactly for local, which gives dev; its type excludes local |
| `RegistryTables.ContractKeyCollapsesLocal` | ethos/packages/contracts/src/index.ts:169-174 | local maps to dev, every other environment maps to itself, and the key is never local |
| `RegistryTables.ContractKeyIdempotent` | ethos/packages/contracts/src/index.ts:169-174 | read back as an environment, the key maps to itself |
| `RegistryTables.ContractKeySharedExactlyByLocalAndDev` | ethos/packages/contracts/src/index.ts:169-174 | two environments share a dataset iff they are equal or are exactly local and dev |
| `RegistryTables.NetworkFollowsDatasetKey` | ethos/packages/contracts/src/index.ts:41-46 | an environment and its dataset key run on the same network |
| `RegistryTables.ContractsEnumeratesEveryId` | ethos/packages/contracts/src/index.ts:61-76 | `contracts` has ten entries, all distinct, and contains every contract identifier |
| `RegistryTables.ContractsMapOrderIsPermutation` | ethos/packages/contracts/src/index.ts:181-247 | the getContractsMap literal lists the same ten contracts as `contracts`, each once |
| `RegistryTables.ContractIdNameRoundTrip` | ethos/packages/contracts/src/index.ts:61-76 | each contract's key string reads back as that contract, and only that string does |
| `RegistryTables.SmartContractNameInjective` | ethos/packages/contracts/src/index.ts:61-72 | distinct contracts have distinct smartContractNames aliases |
| `RegistryTables.AliasTable` | ethos/packages/contracts/src/index.ts:181-247 | only contractAddressManager and signatureVerifier lack an alias; every other alias is the contract's smartContractNames value |
| `RegistryTables.UpgradeableTable` | ethos/packages/contracts/src/index.ts:181-247 | exactly contractAddressManager, interactionControl and signatureVerifier are not upgradeable |
| `ContractRegistry.SomeEqual` | ethos/packages/contracts/src/index.ts:106 | `.some((v) => v === s)` is true iff `s` occurs in the list |
| `ContractRegistry.IsTargetContract` | ethos/packages/contracts/src/index.ts:105-113 | true iff the value is a string in {attestation, review, vouch, discussion} |
| `RegistryTables.TargetContractIds` | ethos/packages/contracts/src/index.ts:91-113 | a contract's key is a target iff the contract is attestation, review, vouch or discussion |
| `RegistryTables.TargetsAreContracts` | ethos/packages/contracts/src/index.ts:91-113 | every target name is the key of a contract |
| `RegistryTables.TargetContractExamples` | ethos/packages/contracts/src/index.ts:105-107 | "vote" is not a target, a non-string is not, "vouch" is, and matching is case-sensitive |
| `ContractRegistry.MissingAddressMessage` | ethos/packages/contracts/src/index.ts:132-134 | the message starts with the fixed prefix and the rest reads back as the offending contract |
| `ContractRegistry.BuildParams` | ethos/packages/contracts/src/index.ts:182-188 | an entry builds iff getAddress accepts its direct address and, if upgradeable, its proxy; it then copies name, alias and flag and holds the normalised addresses; otherwise the error carries the first rejected value |
| `ContractRegistry.ResolveEntry` | ethos/packages/contracts/src/index.ts:126-148 | resolving fails iff the chosen address (proxy if upgradeable, else direct) is empty, and then names the key; otherwise it publishes that address with the name, alias, and isProxy = isUpgradeable |
| `Resolution.ParamsAtMatchesSource` | ethos/packages/contracts/src/index.ts:181-247 | the entry built for a contract normalises exactly when its dataset entry does, and publishes the reference address |
| `Resolution.BuildAllSuccess` | ethos/packages/contracts/src/index.ts:181-247 | the literal evaluates iff every field does, and then holds one entry per field, in order |
| `Resolution.BuildAllFirstFailure` | ethos/packages/contracts/src/index.ts:181-247 | when the literal throws, the error is the one of the first field that throws |
| `Resolution.ResolveAllSuccess` | ethos/packages/contracts/src/index.ts:125-149 | the `.map` succeeds iff every callback does, and keeps keys and order |
| `Resolution.ResolveAllFirstFailure` | ethos/packages/contracts/src/index.ts:125-149 | when the `.map` throws, it throws the first failing callback's error |
| `Resolution.ResolveAllFailsOnlyForMissingAddress` | ethos/packages/contracts/src/index.ts:130-134 | the `.map` callback only throws the missing-address error |
| `Resolution.FromEntriesKeys` | ethos/packages/contracts/src/index.ts:151 | Object.fromEntries has exactly the entries' keys |
| `Resolution.FromEntriesValues` | ethos/packages/contracts/src/index.ts:151 | an entry whose key is not repeated later keeps its value in Object.fromEntries |
| `Resolution.ContractsMapPerContract` | ethos/packages/contracts/src/index.ts:176-248 | getContractsMap succeeds iff every stored address normalises, and then holds each contract at its literal position |
| `Resolution.ContractsForEnvironmentResolves` | ethos/packages/contracts/src/index.ts:123-152 | the lookup is returned iff every contract normalises and publishes a non-empty address; it then has exactly the ten keys of `contracts`, and each entry has the source name and alias, isProxy = isUpgradeable = the table flag, and the proxy address if upgradeable and the direct address otherwise |
| `Resolution.MissingAddressNamesFirstEmptyContract` | ethos/packages/contracts/src/index.ts:130-134 | the missing-address error names c iff every address normalises, c's chosen address is empty, and every contract before c publishes a non-empty address; no partial lookup is returned |
| `Resolution.InvalidAddressNamesFirstRejectedValue` | ethos/packages/contracts/src/index.ts:185-245 | the invalid-address error carries v iff v is the first value getAddress rejects, in the literal's field order |
| `Resolution.LocalResolvesLikeDev` | ethos/packages/contracts/src/index.ts:172-179 | local gives the same lookup or error as dev |
| `Resolution.BuildAllReadsOnlyKey` | ethos/packages/contracts/src/index.ts:179-185 | building the literal reads only the dataset entries under its key |
| `Resolution.ContractsForEnvironmentReadsOnlyItsKey` | ethos/packages/contracts/src/index.ts:176-181 | two datasets that agree on the environment's key give the same result |
| `Resolution.WellFormedAddressesNeverMissing` | ethos/packages/contracts/src/index.ts:130-134 | if getAddress only returns `0x` plus 40 hex digits, the missing-address error cannot occur and every published address has that shape |
| `Resolution.WellFormedAt` | ethos/packages/contracts/src/index.ts:130-134 | for any order listing each contract at its position: with a getAddress that returns only well-formed addresses, the lookup fails only with the invalid-address error and publishes only well-formed addresses |
| `Resolution.AbsentAttestationProxyFailsInGetAddress` | ethos/packages/contracts/src/index.ts:182-188 | an absent attestation proxy with an accepted direct address makes the call throw the invalid-address error, when getAddress rejects absent values |
| `ContractRegistry.EthosEnvironmentNetworks` | ethos/packages/contracts/src/index.ts:41-46 | the environment-to-network table; its contract is carried by `EnvironmentNetworksTotal` and `GetNetworkByEnvironment` |
| `ContractRegistry.SmartContractName` | ethos/packages/contracts/src/index.ts:61-72 | the alias of each contract; its contract is carried by `SmartContractNameInjective` and `AliasTable` |
| `ContractRegistry.Contracts` | ethos/packages/contracts/src/index.ts:74-76 | `Object.keys(smartContractNames)` in declaration order; its contract is carried by `ContractsEnumeratesEveryId` |
| `ContractRegistry.ValidTargets` | ethos/packages/contracts/src/index.ts:108-113 | the four target names; its contract is carried by `IsTargetContract` and `TargetContractIds` |
| `ContractRegistry.SpecOf` | ethos/packages/contracts/src/index.ts:181-247 | the fixed name, alias and upgradeable flag of each field of the literal; its contract is carried by `AliasTable` and `UpgradeableTable` |
| `ContractRegistry.ContractsMapOrder` | ethos/packages/contracts/src/index.ts:181-247 | the field order of the literal; its contract is carried by `ContractsMapOrderIsPermutation` |
| `ContractRegistry.ParamsAt` | ethos/packages/contracts/src/index.ts:182-246 | one field of the literal read from the dataset key; its contract is carried by `ParamsAtMatchesSource` |
| `ContractRegistry.BuildAll` | ethos/packages/contracts/src/index.ts:181-247 | the fields evaluated in order, stopping at the first throw; its contract is carried by `BuildAllSuccess` and `BuildAllFirstFailure` |
| `ContractRegistry.GetContractsMap` | ethos/packages/contracts/src/index.ts:176-248 | getContractsMap; its contract is carried by `ContractsMapPerContract` |
| `ContractRegistry.ResolveAll` | ethos/packages/contracts/src/index.ts:125-149 | the `.map` over the entries, stopping at the first throw; its contract is carried by `ResolveAllSuccess`, `ResolveAllFirstFailure` and `ResolveAllFailsOnlyForMissingAddress` |
| `ContractRegistry.FromEntries` | ethos/packages/contracts/src/index.ts:151 | `Object.fromEntries`, a later key overriding an earlier one; its contract is carried by `FromEntriesKeys` and `FromEntriesValues` |
| `ContractRegistry.GetContractsForEnvironment` | ethos/packages/contracts/src/index.ts:123-152 | getContractsForEnvironment; its contract is carried by `ContractsForEnvironmentResolves`, `MissingAddressNamesFirstEmptyContract` and `InvalidAddressNamesFirstRejectedValue` |
| `ContractRegistry.NetworkName` | ethos/packages/contracts/src/index.ts:39 | the two strings of the `Network` union; its contract is carried by `IsMainnetEnvironment` |
| `ContractRegistry.AttestationContractName` | ethos/packages/contracts/src/index.ts:94 | the exported constant "attestation"; its contract is carried by `IsTargetContract` and `TargetContractIds` |
| `ContractRegistry.ReviewContractName` | ethos/packages/contracts/src/index.ts:91 | the exported constant "review"; its contract is carried by `IsTargetContract` and `TargetContractIds` |
| `ContractRegistry.VouchContractName` | ethos/packages/contracts/src/index.ts:92 | the exported constant "vouch"; its contract is carried by `IsTargetContract` and `TargetContractIds` |
| `ContractRegistry.DiscussionContractName` | ethos/packages/contracts/src/index.ts:93 | the exported constant "discussion"; its contract is carried by `IsTargetContract` and `TargetContractIds` |
| `ContractRegistry.GetAddress` | ethos/packages/contracts/src/index.ts:185-244 | one throwing `getAddress(...)` call; its contract is carried by `BuildParams` |
| `ContractRegistry.ChosenAddress` | ethos/packages/contracts/src/index.ts:130 | `value.isUpgradeable ? proxyAddress : address`; its contract is carried by `ResolveEntry` |
| `Resolution.RawChosenAddress` | ethos/packages/contracts/src/index.ts:128-130 | the address a contract publishes, read from its dataset entry before normalisation; its contract is carried by `AbsentChosenAddressFailsInGetAddress` |
| `Resolution.AbsentChosenAt` | ethos/packages/contracts/src/index.ts:130-134 | for any order listing each contract at its position: when getAddress rejects absent values, a contract whose published address is absent from its entry makes the lookup fail with the invalid-address error |
| `Resolution.AbsentChosenAddressFailsInGetAddress` | ethos/packages/contracts/src/index.ts:182-246 | when getAddress rejects absent values, any contract whose chosen address (proxy if upgradeable, direct otherwise) is absent makes the call fail with the invalid-address error, never succeed and never report the missing-address error |

## Left out

- GetContractsForEnvironment: the key order of the returned lookup (the
  literal's order, kept by `Object.fromEntries`) is not modelled, because the
  result is a `map`. The order of the intermediate entries is modelled
  (`BuildAllSuccess`, `ResolveAllSuccess`).
- EIP-55 checksumming in viem's `getAddress` (Keccak-256 hashing). It is a
  foreign library call, so it is the `AddressNormaliser` parameter. Most
  lemmas hold for every normaliser. Three assumptions appear only as
  `requires`:
  - that it returns only well-formed addresses (`YieldsAddresses`), in
    `ExpectedAddressShaped`, `WellFormedAt` and
    `WellFormedAddressesNeverMissing`;
  - that it rejects an absent value (`getAddress(None).None?`), in
    `AbsentChosenAt`, `AbsentChosenAddressFailsInGetAddress` and
    `AbsentAttestationProxyFailsInGetAddress`;
  - that it accepts attestation's direct address, in
    `AbsentAttestationProxyFailsInGetAddress`.
- The contents of the ten deployment JSON files. They are data that is not
  part of this model, so they are the `Dataset` parameter.
- ABI re-exports (`discussionAbi`, `reviewAbi`, `voteAbi`) and the TypeChain
  type re-exports (index.ts:19-37). They are pass-through data with no
  behaviour.
- `ContractConfig` and `GetContractArguments` (index.ts:50-59). They are type
  declarations only.
- TypeScript type-level details: `Entries`, `as const`, and the
  `value is TargetContract` narrowing. Only the boolean that
  `isTargetContract` returns is modelled.
- JavaScript values of other types than string (numbers, objects, `null`).
  They are one case, `JsNonString`, because `isTargetContract` only asks
  `typeof value === 'string'`.
- The network strings are a `Network` datatype. `NetworkName` gives the
  string, and `IsMainnetEnvironment` compares that string with
  `'base-mainnet'`, as the source does.
- The `alias` property that is either set or absent is an `Option` field.
  Its absence is `None`.
- A deployment JSON file that lacks an environment's key. In the source this
  is a `TypeError` at the property access (for example index.ts:185).
  `Dataset` is a total function, so the model does not express it. A `null`
  or absent `address` or `proxyAddress` inside an entry is modelled (`None`).
