/** Properties of the registry's fixed tables: environments, dataset keys,
    contract identifiers, aliases and target contracts. */
module RegistryTables {
  import opened Wrappers
  import opened ContractRegistry

  // ---------------------------------------------------------------------------
  // Dataset-key collapse
  // ---------------------------------------------------------------------------

  /** `local` reads the dev dataset; every other environment reads its own. */
  lemma ContractKeyCollapsesLocal(e: Environment)
    ensures GetContractKeyByEnvironment(Local) == Dev
    ensures e != Local ==> GetContractKeyByEnvironment(e) == e
    ensures GetContractKeyByEnvironment(e) != Local
  {
  }

  /** Read back as an environment, a dataset key maps to itself. */
  lemma ContractKeyIdempotent(e: Environment)
    ensures GetContractKeyByEnvironment(GetContractKeyByEnvironment(e)) == GetContractKeyByEnvironment(e)
  {
  }

  /** Exactly `local` and `dev` share a dataset. */
  lemma ContractKeySharedExactlyByLocalAndDev(e1: Environment, e2: Environment)
    ensures GetContractKeyByEnvironment(e1) == GetContractKeyByEnvironment(e2)
            <==> e1 == e2 || {e1, e2} == {Local, Dev}
  {
    if {e1, e2} == {Local, Dev} {
      assert e1 in {Local, Dev} && e2 in {Local, Dev};
    }
  }

  /** The dataset key decides the network: local and dev share a network too. */
  lemma NetworkFollowsDatasetKey(e: Environment)
    ensures GetNetworkByEnvironment(GetContractKeyByEnvironment(e)) == GetNetworkByEnvironment(e)
  {
  }

  // ---------------------------------------------------------------------------
  // Contract identifiers
  // ---------------------------------------------------------------------------

  predicate Distinct<T(==)>(s: seq<T>) {
    forall i, j :: 0 <= i < j < |s| ==> s[i] != s[j]
  }

  /** `contracts` lists each of the ten identifiers once. */
  lemma ContractsEnumeratesEveryId(c: ContractId)
    ensures |Contracts| == 10
    ensures Distinct(Contracts)
    ensures c in Contracts
  {
    match c
    case Attestation =>
    case ContractAddressManager =>
    case Discussion =>
    case InteractionControl =>
    case Profile =>
    case ReputationMarket =>
    case Review =>
    case SignatureVerifier =>
    case Vote =>
    case Vouch =>
  }

  /** The positions of ContractsMapOrder and MapPosition are inverse. */
  lemma MapPositionOfIndex(i: nat)
    requires i < |ContractsMapOrder|
    ensures MapPosition(ContractsMapOrder[i]) == i
  {
    if i == 0 {} else if i == 1 {} else if i == 2 {} else if i == 3 {} else if i == 4 {}
    else if i == 5 {} else if i == 6 {} else if i == 7 {} else if i == 8 {} else {}
  }

  /** The literal of getContractsMap lists the same ten contracts as
      `contracts`, each once: it is a permutation of `contracts`. */
  lemma ContractsMapOrderIsPermutation()
    ensures Distinct(ContractsMapOrder)
    ensures |ContractsMapOrder| == |Contracts|
    ensures (set c | c in ContractsMapOrder) == set c | c in Contracts
  {
    forall i, j | 0 <= i < j < |ContractsMapOrder| ensures ContractsMapOrder[i] != ContractsMapOrder[j] {
      MapPositionOfIndex(i);
      MapPositionOfIndex(j);
    }
    forall c ensures c in ContractsMapOrder && c in Contracts {
      ContractsEnumeratesEveryId(c);
      assert ContractsMapOrder[MapPosition(c)] == c;
    }
  }

  /** Object keys written as strings identify contracts unambiguously. */
  lemma ContractIdNameRoundTrip(c: ContractId, s: string)
    ensures ParseContractId(ContractIdName(c)) == Some(c)
    ensures ParseContractId(s) == Some(c) ==> ContractIdName(c) == s
  {
    match c
    case Attestation =>
    case ContractAddressManager =>
    case Discussion =>
    case InteractionControl =>
    case Profile =>
    case ReputationMarket =>
    case Review =>
    case SignatureVerifier =>
    case Vote =>
    case Vouch =>
  }

  /** Distinct contracts have distinct aliases. */
  lemma SmartContractNameInjective(c: ContractId, d: ContractId)
    ensures SmartContractName(c) == SmartContractName(d) ==> c == d
  {
  }

  // ---------------------------------------------------------------------------
  // The fixed per-contract table of getContractsMap
  // ---------------------------------------------------------------------------

  /** Only the address manager and the signature verifier have no alias; every
      other alias is the contract's smartContractNames value. */
  lemma AliasTable(c: ContractId)
    ensures SpecOf(c).alias.None? <==> c in {ContractAddressManager, SignatureVerifier}
    ensures SpecOf(c).alias.Some? ==> SpecOf(c).alias.value == SmartContractName(c)
  {
  }

  /** Three contracts are deployed directly; the other seven sit behind a proxy. */
  lemma UpgradeableTable(c: ContractId)
    ensures !SpecOf(c).isUpgradeable <==> c in {ContractAddressManager, InteractionControl, SignatureVerifier}
  {
  }

  // ---------------------------------------------------------------------------
  // Target contracts
  // ---------------------------------------------------------------------------

  /** The four target contracts are the review, vouch, attestation and discussion contracts. */
  lemma TargetContractIds(c: ContractId)
    ensures IsTargetContract(JsString(ContractIdName(c))) <==> c in {Attestation, Review, Vouch, Discussion}
  {
  }

  /** Every target name is a contract key. */
  lemma TargetsAreContracts(s: string)
    ensures IsTargetContract(JsString(s)) ==> ParseContractId(s).Some?
  {
  }

  lemma TargetContractExamples()
    ensures !IsTargetContract(JsString("vote"))
    ensures !IsTargetContract(JsNonString)
    ensures IsTargetContract(JsString("vouch"))
    ensures !IsTargetContract(JsString("Vouch"))
  {
  }
}
