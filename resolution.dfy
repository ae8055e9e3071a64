/** What getContractsForEnvironment computes, stated per contract: when it
    succeeds, which address each entry publishes, and which error it throws. */
module Resolution {
  import opened Wrappers
  import opened ContractRegistry
  import opened RegistryTables

  // ---------------------------------------------------------------------------
  // Reference definitions, per contract
  // ---------------------------------------------------------------------------

  /** getAddress accepts every address the entry of `c` normalises: the direct
      address, and for an upgradeable contract also the proxy address. */
  ghost predicate SourceNormalises(data: Dataset, getAddress: AddressNormaliser, key: DatasetKey, c: ContractId) {
    && Normalises(getAddress, data(c, key).address)
    && (SpecOf(c).isUpgradeable ==> Normalises(getAddress, data(c, key).proxyAddress))
  }

  /** The normalised proxy address for an upgradeable contract, the normalised
      direct address otherwise. */
  ghost function ExpectedAddress(data: Dataset, getAddress: AddressNormaliser, key: DatasetKey, c: ContractId): string
    requires SourceNormalises(data, getAddress, key, c)
  {
    if SpecOf(c).isUpgradeable then getAddress(data(c, key).proxyAddress).value
    else getAddress(data(c, key).address).value
  }

  /** The first value of the entry of `c` that getAddress rejects. */
  ghost function FailingValue(data: Dataset, getAddress: AddressNormaliser, key: DatasetKey, c: ContractId): Option<string>
    requires !SourceNormalises(data, getAddress, key, c)
  {
    if !Normalises(getAddress, data(c, key).address) then data(c, key).address
    else data(c, key).proxyAddress
  }

  /** Every contract normalises and publishes a non-empty address. */
  ghost predicate Resolves(data: Dataset, getAddress: AddressNormaliser, key: DatasetKey) {
    forall c :: SourceNormalises(data, getAddress, key, c) && ExpectedAddress(data, getAddress, key, c) != ""
  }

  // ---------------------------------------------------------------------------
  // Field-by-field evaluation: BuildAll
  // ---------------------------------------------------------------------------

  lemma {:induction false} BuildAllSuccess(data: Dataset, getAddress: AddressNormaliser, key: DatasetKey, order: seq<ContractId>)
    ensures BuildAll(data, getAddress, key, order).Success? <==>
      forall i :: 0 <= i < |order| ==> ParamsAt(data, getAddress, key, order[i]).Success?
    ensures BuildAll(data, getAddress, key, order).Success? ==>
      && |BuildAll(data, getAddress, key, order).value| == |order|
      && forall i :: 0 <= i < |order| ==>
           BuildAll(data, getAddress, key, order).value[i] == (order[i], ParamsAt(data, getAddress, key, order[i]).value)
  {
    if order != [] {
      BuildAllSuccess(data, getAddress, key, order[1..]);
      assert forall i :: 1 <= i < |order| ==> order[1..][i - 1] == order[i];
    }
  }

  lemma {:induction false} BuildAllFirstFailure(data: Dataset, getAddress: AddressNormaliser, key: DatasetKey, order: seq<ContractId>)
    requires BuildAll(data, getAddress, key, order).Failure?
    ensures exists i :: 0 <= i < |order|
                     && ParamsAt(data, getAddress, key, order[i]) == Failure(BuildAll(data, getAddress, key, order).error)
                     && forall j :: 0 <= j < i ==> ParamsAt(data, getAddress, key, order[j]).Success?
  {
    if ParamsAt(data, getAddress, key, order[0]).Failure? {
      assert ParamsAt(data, getAddress, key, order[0]) == Failure(BuildAll(data, getAddress, key, order).error);
    } else {
      BuildAllFirstFailure(data, getAddress, key, order[1..]);
      var i :| 0 <= i < |order[1..]|
        && ParamsAt(data, getAddress, key, order[1..][i]) == Failure(BuildAll(data, getAddress, key, order[1..]).error)
        && forall j :: 0 <= j < i ==> ParamsAt(data, getAddress, key, order[1..][j]).Success?;
      assert forall j :: 1 <= j < i + 1 ==> order[1..][j - 1] == order[j];
      assert order[i + 1] == order[1..][i];
    }
  }

  // ---------------------------------------------------------------------------
  // The `.map` over the entries: ResolveAll
  // ---------------------------------------------------------------------------

  lemma {:induction false} ResolveAllSuccess(entries: seq<(ContractId, ContractParams)>)
    ensures ResolveAll(entries).Success? <==>
      forall i :: 0 <= i < |entries| ==> ResolveEntry(entries[i].0, entries[i].1).Success?
    ensures ResolveAll(entries).Success? ==>
      && |ResolveAll(entries).value| == |entries|
      && forall i :: 0 <= i < |entries| ==>
           ResolveAll(entries).value[i] == (entries[i].0, ResolveEntry(entries[i].0, entries[i].1).value)
  {
    if entries != [] {
      ResolveAllSuccess(entries[1..]);
      assert forall i :: 1 <= i < |entries| ==> entries[1..][i - 1] == entries[i];
    }
  }

  lemma {:induction false} ResolveAllFirstFailure(entries: seq<(ContractId, ContractParams)>)
    requires ResolveAll(entries).Failure?
    ensures exists i :: 0 <= i < |entries|
                     && ResolveEntry(entries[i].0, entries[i].1) == Failure(ResolveAll(entries).error)
                     && forall j :: 0 <= j < i ==> ResolveEntry(entries[j].0, entries[j].1).Success?
  {
    if ResolveEntry(entries[0].0, entries[0].1).Failure? {
      assert ResolveEntry(entries[0].0, entries[0].1) == Failure(ResolveAll(entries).error);
    } else {
      ResolveAllFirstFailure(entries[1..]);
      var i :| 0 <= i < |entries[1..]|
        && ResolveEntry(entries[1..][i].0, entries[1..][i].1) == Failure(ResolveAll(entries[1..]).error)
        && forall j :: 0 <= j < i ==> ResolveEntry(entries[1..][j].0, entries[1..][j].1).Success?;
      assert forall j :: 1 <= j < i + 1 ==> entries[1..][j - 1] == entries[j];
      assert entries[i + 1] == entries[1..][i];
    }
  }

  /** The `.map` callback only ever throws the missing-address error. */
  lemma ResolveAllFailsOnlyForMissingAddress(entries: seq<(ContractId, ContractParams)>)
    requires ResolveAll(entries).Failure?
    ensures ResolveAll(entries).error.MissingAddress?
  {
    ResolveAllFirstFailure(entries);
  }

  // ---------------------------------------------------------------------------
  // Object.fromEntries
  // ---------------------------------------------------------------------------

  lemma {:induction false} FromEntriesKeys<K, V>(entries: seq<(K, V)>)
    ensures FromEntries(entries).Keys == set i | 0 <= i < |entries| :: entries[i].0
  {
    if entries != [] {
      var init := entries[..|entries| - 1];
      FromEntriesKeys(init);
      assert forall i :: 0 <= i < |init| ==> init[i] == entries[i];
    }
  }

  lemma {:induction false} FromEntriesValues<K, V>(entries: seq<(K, V)>, i: nat)
    requires i < |entries|
    requires forall j :: i < j < |entries| ==> entries[j].0 != entries[i].0
    ensures entries[i].0 in FromEntries(entries) && FromEntries(entries)[entries[i].0] == entries[i].1
  {
    if i < |entries| - 1 {
      var init := entries[..|entries| - 1];
      assert forall j :: 0 <= j < |init| ==> init[j] == entries[j];
      FromEntriesValues(init, i);
    }
  }

  // ---------------------------------------------------------------------------
  // getContractsMap, per contract
  // ---------------------------------------------------------------------------

  /** One entry of getContractsMap, stated against the reference definitions. */
  lemma ParamsAtMatchesSource(data: Dataset, getAddress: AddressNormaliser, key: DatasetKey, c: ContractId)
    ensures ParamsAt(data, getAddress, key, c).Success? <==> SourceNormalises(data, getAddress, key, c)
    ensures ParamsAt(data, getAddress, key, c).Success? ==>
      && ChosenAddress(ParamsAt(data, getAddress, key, c).value) == ExpectedAddress(data, getAddress, key, c)
      && ParamsAt(data, getAddress, key, c).value.name == SpecOf(c).name
      && ParamsAt(data, getAddress, key, c).value.alias == SpecOf(c).alias
      && ParamsAt(data, getAddress, key, c).value.IsUpgradeable() == SpecOf(c).isUpgradeable
    ensures ParamsAt(data, getAddress, key, c).Failure? ==>
      ParamsAt(data, getAddress, key, c).error == InvalidAddress(FailingValue(data, getAddress, key, c))
  {
  }

  /** getContractsMap succeeds exactly when getAddress accepts every address it
      normalises, and then holds one entry per contract, in literal order. */
  lemma ContractsMapPerContract(data: Dataset, getAddress: AddressNormaliser, e: Environment)
    ensures var key := GetContractKeyByEnvironment(e);
      GetContractsMap(data, getAddress, e).Success? <==> forall c :: SourceNormalises(data, getAddress, key, c)
    ensures var key := GetContractKeyByEnvironment(e); var m := GetContractsMap(data, getAddress, e);
      m.Success? ==>
        && |m.value| == |ContractsMapOrder|
        && forall c :: m.value[MapPosition(c)].0 == c
                       && ParamsAt(data, getAddress, key, c) == Success(m.value[MapPosition(c)].1)
  {
    var key := GetContractKeyByEnvironment(e);
    var order := ContractsMapOrder;
    var m := BuildAll(data, getAddress, key, order);
    BuildAllSuccess(data, getAddress, key, order);
    if forall c :: SourceNormalises(data, getAddress, key, c) {
      assert m.Success? by {
        forall i | 0 <= i < |order| ensures ParamsAt(data, getAddress, key, order[i]).Success? {
          ParamsAtMatchesSource(data, getAddress, key, order[i]);
        }
      }
    }
    if m.Success? {
      forall c ensures SourceNormalises(data, getAddress, key, c)
        && m.value[MapPosition(c)].0 == c
        && ParamsAt(data, getAddress, key, c) == Success(m.value[MapPosition(c)].1)
      {
        ParamsAtMatchesSource(data, getAddress, key, c);
        assert order[MapPosition(c)] == c;
      }
    }
  }

  // ---------------------------------------------------------------------------
  // getContractsForEnvironment over an arbitrary field order
  // ---------------------------------------------------------------------------

  /** getContractsForEnvironment with the fields of the literal visited in `order`. */
  ghost function LookupAt(data: Dataset, getAddress: AddressNormaliser, key: DatasetKey, order: seq<ContractId>)
    : Result<map<ContractId, LookupEntry>, Error>
  {
    var contractsMap :- BuildAll(data, getAddress, key, order);
    var contractEntries :- ResolveAll(contractsMap);
    Success(FromEntries(contractEntries))
  }

  lemma LookupAtContractsMapOrder(data: Dataset, getAddress: AddressNormaliser, e: Environment)
    ensures GetContractsForEnvironment(data, getAddress, e)
            == LookupAt(data, getAddress, GetContractKeyByEnvironment(e), ContractsMapOrder)
  {
  }

  /** Contract `c` builds and publishes a non-empty address. */
  ghost predicate Publishes(data: Dataset, getAddress: AddressNormaliser, key: DatasetKey, c: ContractId) {
    ParamsAt(data, getAddress, key, c).Success? && ChosenAddress(ParamsAt(data, getAddress, key, c).value) != ""
  }

  lemma LookupAtSucceeds(data: Dataset, getAddress: AddressNormaliser, key: DatasetKey, order: seq<ContractId>)
    ensures LookupAt(data, getAddress, key, order).Success? <==>
      forall i :: 0 <= i < |order| ==> Publishes(data, getAddress, key, order[i])
  {
    var m := BuildAll(data, getAddress, key, order);
    BuildAllSuccess(data, getAddress, key, order);
    if m.Success? {
      ResolveAllSuccess(m.value);
    }
  }

  /** A returned lookup is `Object.fromEntries` of one resolved entry per field, in order. */
  lemma LookupAtEntries(data: Dataset, getAddress: AddressNormaliser, key: DatasetKey, order: seq<ContractId>)
      returns (resolved: seq<(ContractId, LookupEntry)>)
    requires LookupAt(data, getAddress, key, order).Success?
    ensures LookupAt(data, getAddress, key, order).value == FromEntries(resolved)
    ensures |resolved| == |order|
    ensures forall j :: 0 <= j < |order| ==>
      && resolved[j].0 == order[j]
      && ParamsAt(data, getAddress, key, order[j]).Success?
      && Success(resolved[j].1) == ResolveEntry(order[j], ParamsAt(data, getAddress, key, order[j]).value)
  {
    var entries := BuildAll(data, getAddress, key, order).value;
    BuildAllSuccess(data, getAddress, key, order);
    resolved := ResolveAll(entries).value;
    ResolveAllSuccess(entries);
  }

  lemma LookupAtContents(data: Dataset, getAddress: AddressNormaliser, key: DatasetKey, order: seq<ContractId>, i: nat)
    requires Distinct(order)
    requires LookupAt(data, getAddress, key, order).Success?
    requires i < |order|
    ensures LookupAt(data, getAddress, key, order).value.Keys == set c | c in order
    ensures && order[i] in LookupAt(data, getAddress, key, order).value
            && ParamsAt(data, getAddress, key, order[i]).Success?
            && Success(LookupAt(data, getAddress, key, order).value[order[i]])
               == ResolveEntry(order[i], ParamsAt(data, getAddress, key, order[i]).value)
  {
    var resolved := LookupAtEntries(data, getAddress, key, order);
    FromEntriesKeys(resolved);
    assert (set j | 0 <= j < |resolved| :: resolved[j].0) == set c | c in order by {
      forall c | c in order ensures exists j :: 0 <= j < |resolved| && resolved[j].0 == c {
        var j :| 0 <= j < |order| && order[j] == c;
        assert resolved[j].0 == c;
      }
    }
    FromEntriesValues(resolved, i);
  }

  /** When every field builds but the `.map` throws, it throws at the first
      field whose chosen address is empty. */
  lemma LookupAtFirstMissing(data: Dataset, getAddress: AddressNormaliser, key: DatasetKey, order: seq<ContractId>)
      returns (k: nat)
    requires BuildAll(data, getAddress, key, order).Success?
    requires ResolveAll(BuildAll(data, getAddress, key, order).value).Failure?
    ensures k < |order|
    ensures LookupAt(data, getAddress, key, order) == Failure(MissingAddress(order[k]))
    ensures ParamsAt(data, getAddress, key, order[k]).Success?
    ensures !Publishes(data, getAddress, key, order[k])
    ensures forall j :: 0 <= j < k ==> Publishes(data, getAddress, key, order[j])
  {
    var entries := BuildAll(data, getAddress, key, order).value;
    BuildAllSuccess(data, getAddress, key, order);
    ResolveAllFirstFailure(entries);
    k :| 0 <= k < |entries|
      && ResolveEntry(entries[k].0, entries[k].1) == Failure(ResolveAll(entries).error)
      && forall j :: 0 <= j < k ==> ResolveEntry(entries[j].0, entries[j].1).Success?;
  }

  /** The missing-address case of LookupAtMissing: the `.map` throws at `order[k]`. */
  lemma LookupAtMissingWhenResolveFails(data: Dataset, getAddress: AddressNormaliser, key: DatasetKey,
                                        order: seq<ContractId>, i: nat)
    requires Distinct(order)
    requires i < |order|
    requires BuildAll(data, getAddress, key, order).Success?
    requires ResolveAll(BuildAll(data, getAddress, key, order).value).Failure?
    ensures LookupAt(data, getAddress, key, order) == Failure(MissingAddress(order[i])) <==>
      && !Publishes(data, getAddress, key, order[i])
      && forall j :: 0 <= j < i ==> Publishes(data, getAddress, key, order[j])
  {
    var k := LookupAtFirstMissing(data, getAddress, key, order);
    if !Publishes(data, getAddress, key, order[i]) && forall j :: 0 <= j < i ==> Publishes(data, getAddress, key, order[j]) {
      assert !(i < k) && !(k < i);
    } else if i != k {
      assert order[i] != order[k];
    }
  }

  lemma LookupAtMissing(data: Dataset, getAddress: AddressNormaliser, key: DatasetKey, order: seq<ContractId>, i: nat)
    requires Distinct(order)
    requires i < |order|
    ensures LookupAt(data, getAddress, key, order) == Failure(MissingAddress(order[i])) <==>
      && (forall j :: 0 <= j < |order| ==> ParamsAt(data, getAddress, key, order[j]).Success?)
      && !Publishes(data, getAddress, key, order[i])
      && forall j :: 0 <= j < i ==> Publishes(data, getAddress, key, order[j])
  {
    var m := BuildAll(data, getAddress, key, order);
    BuildAllSuccess(data, getAddress, key, order);
    if m.Failure? {
      BuildAllFirstFailure(data, getAddress, key, order);
    } else if ResolveAll(m.value).Failure? {
      LookupAtMissingWhenResolveFails(data, getAddress, key, order, i);
    } else {
      LookupAtSucceeds(data, getAddress, key, order);
    }
  }

  lemma LookupAtInvalid(data: Dataset, getAddress: AddressNormaliser, key: DatasetKey, order: seq<ContractId>, v: Option<string>)
    ensures LookupAt(data, getAddress, key, order) == Failure(InvalidAddress(v)) <==>
      exists i :: && 0 <= i < |order|
                  && ParamsAt(data, getAddress, key, order[i]) == Failure(InvalidAddress(v))
                  && forall j :: 0 <= j < i ==> ParamsAt(data, getAddress, key, order[j]).Success?
  {
    var m := BuildAll(data, getAddress, key, order);
    BuildAllSuccess(data, getAddress, key, order);
    if m.Failure? {
      BuildAllFirstFailure(data, getAddress, key, order);
      var k :| 0 <= k < |order|
        && ParamsAt(data, getAddress, key, order[k]) == Failure(m.error)
        && forall j :: 0 <= j < k ==> ParamsAt(data, getAddress, key, order[j]).Success?;
      forall i | 0 <= i < |order|
          && ParamsAt(data, getAddress, key, order[i]) == Failure(InvalidAddress(v))
          && forall j :: 0 <= j < i ==> ParamsAt(data, getAddress, key, order[j]).Success?
        ensures i == k
      {
        assert ParamsAt(data, getAddress, key, order[i]).Failure?;
        assert ParamsAt(data, getAddress, key, order[k]).Failure?;
      }
    } else {
      var r := ResolveAll(m.value);
      if r.Failure? {
        ResolveAllFailsOnlyForMissingAddress(m.value);
      }
    }
  }

  // ---------------------------------------------------------------------------
  // getContractsForEnvironment, per contract
  // ---------------------------------------------------------------------------

  lemma PublishesMatchesSource(data: Dataset, getAddress: AddressNormaliser, key: DatasetKey, c: ContractId)
    ensures Publishes(data, getAddress, key, c) <==>
      SourceNormalises(data, getAddress, key, c) && ExpectedAddress(data, getAddress, key, c) != ""
  {
    ParamsAtMatchesSource(data, getAddress, key, c);
  }

  /** `order` lists each contract once, at its MapPosition. */
  ghost predicate IndexedByPosition(order: seq<ContractId>) {
    && (forall c :: MapPosition(c) < |order| && order[MapPosition(c)] == c)
    && (forall i :: 0 <= i < |order| ==> MapPosition(order[i]) == i)
  }

  lemma ContractsMapOrderIndexed()
    ensures IndexedByPosition(ContractsMapOrder)
  {
    forall i | 0 <= i < |ContractsMapOrder| ensures MapPosition(ContractsMapOrder[i]) == i {
      MapPositionOfIndex(i);
    }
  }

  lemma ResolvesAt(data: Dataset, getAddress: AddressNormaliser, key: DatasetKey, order: seq<ContractId>)
    requires IndexedByPosition(order)
    ensures LookupAt(data, getAddress, key, order).Success? <==> Resolves(data, getAddress, key)
    ensures LookupAt(data, getAddress, key, order).Success? ==>
      LookupAt(data, getAddress, key, order).value.Keys == set c | c in order
    ensures LookupAt(data, getAddress, key, order).Success? ==>
      forall c :: && c in LookupAt(data, getAddress, key, order).value
                  && ParamsAt(data, getAddress, key, c).Success?
                  && Success(LookupAt(data, getAddress, key, order).value[c])
                     == ResolveEntry(c, ParamsAt(data, getAddress, key, c).value)
  {
    var r := LookupAt(data, getAddress, key, order);
    LookupAtSucceeds(data, getAddress, key, order);
    if Resolves(data, getAddress, key) {
      forall i | 0 <= i < |order| ensures Publishes(data, getAddress, key, order[i]) {
        PublishesMatchesSource(data, getAddress, key, order[i]);
      }
    }
    if r.Success? {
      assert Distinct(order) by {
        forall i, j | 0 <= i < j < |order| ensures order[i] != order[j] {
          assert MapPosition(order[i]) != MapPosition(order[j]);
        }
      }
      forall c
        ensures SourceNormalises(data, getAddress, key, c) && ExpectedAddress(data, getAddress, key, c) != ""
        ensures c in r.value && ParamsAt(data, getAddress, key, c).Success?
        ensures Success(r.value[c]) == ResolveEntry(c, ParamsAt(data, getAddress, key, c).value)
      {
        LookupAtContents(data, getAddress, key, order, MapPosition(c));
        PublishesMatchesSource(data, getAddress, key, c);
      }
      LookupAtContents(data, getAddress, key, order, MapPosition(Attestation));
    }
  }

  /** The lookup is returned exactly when every contract normalises and
      publishes a non-empty address; it then holds all ten identifiers, and
      each entry copies name and alias, sets isProxy to isUpgradeable, and
      publishes the proxy address of an upgradeable contract and the direct
      address of any other. */
  lemma ContractsForEnvironmentResolves(data: Dataset, getAddress: AddressNormaliser, e: Environment)
    ensures var key := GetContractKeyByEnvironment(e);
      GetContractsForEnvironment(data, getAddress, e).Success? <==> Resolves(data, getAddress, key)
    ensures var r := GetContractsForEnvironment(data, getAddress, e);
      r.Success? ==> r.value.Keys == set c | c in Contracts
    ensures var key := GetContractKeyByEnvironment(e); var r := GetContractsForEnvironment(data, getAddress, e);
      r.Success? ==>
        forall c :: && c in r.value && SourceNormalises(data, getAddress, key, c)
                    && r.value[c].name == SpecOf(c).name
                    && r.value[c].isUpgradeable == SpecOf(c).isUpgradeable
                    && r.value[c].isProxy == SpecOf(c).isUpgradeable
                    && r.value[c].alias == SpecOf(c).alias
                    && r.value[c].address == (if SpecOf(c).isUpgradeable then getAddress(data(c, key).proxyAddress).value
                                              else getAddress(data(c, key).address).value)
  {
    var key := GetContractKeyByEnvironment(e);
    var r := GetContractsForEnvironment(data, getAddress, e);
    LookupAtContractsMapOrder(data, getAddress, e);
    ContractsMapOrderIndexed();
    ResolvesAt(data, getAddress, key, ContractsMapOrder);
    if r.Success? {
      ContractsMapOrderIsPermutation();
      forall c ensures SourceNormalises(data, getAddress, key, c) {
        ParamsAtMatchesSource(data, getAddress, key, c);
      }
    }
  }

  lemma MissingAt(data: Dataset, getAddress: AddressNormaliser, key: DatasetKey, order: seq<ContractId>, c: ContractId)
    requires IndexedByPosition(order)
    ensures LookupAt(data, getAddress, key, order) == Failure(MissingAddress(c)) <==>
      && (forall d :: SourceNormalises(data, getAddress, key, d))
      && ExpectedAddress(data, getAddress, key, c) == ""
      && forall d :: MapPosition(d) < MapPosition(c) ==> ExpectedAddress(data, getAddress, key, d) != ""
  {
    var i := MapPosition(c);
    assert Distinct(order) by {
      forall i, j | 0 <= i < j < |order| ensures order[i] != order[j] {
        assert MapPosition(order[i]) != MapPosition(order[j]);
      }
    }
    LookupAtMissing(data, getAddress, key, order, i);
    if forall j :: 0 <= j < |order| ==> ParamsAt(data, getAddress, key, order[j]).Success? {
      forall d ensures SourceNormalises(data, getAddress, key, d) {
        ParamsAtMatchesSource(data, getAddress, key, d);
        assert order[MapPosition(d)] == d;
      }
    }
    if forall d :: SourceNormalises(data, getAddress, key, d) {
      forall j | 0 <= j < |order| ensures ParamsAt(data, getAddress, key, order[j]).Success? {
        ParamsAtMatchesSource(data, getAddress, key, order[j]);
      }
      PublishesMatchesSource(data, getAddress, key, c);
      if forall j :: 0 <= j < i ==> Publishes(data, getAddress, key, order[j]) {
        forall d | MapPosition(d) < MapPosition(c) ensures ExpectedAddress(data, getAddress, key, d) != "" {
          PublishesMatchesSource(data, getAddress, key, d);
          assert order[MapPosition(d)] == d;
        }
      }
      if forall d :: MapPosition(d) < MapPosition(c) ==> ExpectedAddress(data, getAddress, key, d) != "" {
        forall j | 0 <= j < i ensures Publishes(data, getAddress, key, order[j]) {
          PublishesMatchesSource(data, getAddress, key, order[j]);
        }
      }
    }
  }

  /** The missing-address error names `c` exactly when every address
      normalises, `c` publishes an empty address, and every contract before `c`
      in the literal publishes a non-empty one. */
  lemma MissingAddressNamesFirstEmptyContract(data: Dataset, getAddress: AddressNormaliser, e: Environment, c: ContractId)
    ensures var key := GetContractKeyByEnvironment(e);
      GetContractsForEnvironment(data, getAddress, e) == Failure(MissingAddress(c)) <==>
        && (forall d :: SourceNormalises(data, getAddress, key, d))
        && ExpectedAddress(data, getAddress, key, c) == ""
        && forall d :: MapPosition(d) < MapPosition(c) ==> ExpectedAddress(data, getAddress, key, d) != ""
  {
    LookupAtContractsMapOrder(data, getAddress, e);
    ContractsMapOrderIndexed();
    MissingAt(data, getAddress, GetContractKeyByEnvironment(e), ContractsMapOrder, c);
  }

  lemma InvalidAt(data: Dataset, getAddress: AddressNormaliser, key: DatasetKey, order: seq<ContractId>, v: Option<string>)
    requires IndexedByPosition(order)
    ensures LookupAt(data, getAddress, key, order) == Failure(InvalidAddress(v)) <==>
      exists c :: && !SourceNormalises(data, getAddress, key, c)
                  && v == FailingValue(data, getAddress, key, c)
                  && forall d :: MapPosition(d) < MapPosition(c) ==> SourceNormalises(data, getAddress, key, d)
  {
    LookupAtInvalid(data, getAddress, key, order, v);
    if LookupAt(data, getAddress, key, order) == Failure(InvalidAddress(v)) {
      var i :| && 0 <= i < |order|
               && ParamsAt(data, getAddress, key, order[i]) == Failure(InvalidAddress(v))
               && forall j :: 0 <= j < i ==> ParamsAt(data, getAddress, key, order[j]).Success?;
      var c := order[i];
      ParamsAtMatchesSource(data, getAddress, key, c);
      forall d | MapPosition(d) < MapPosition(c) ensures SourceNormalises(data, getAddress, key, d) {
        ParamsAtMatchesSource(data, getAddress, key, d);
        assert order[MapPosition(d)] == d;
      }
    }
    if exists c :: && !SourceNormalises(data, getAddress, key, c)
                   && v == FailingValue(data, getAddress, key, c)
                   && forall d :: MapPosition(d) < MapPosition(c) ==> SourceNormalises(data, getAddress, key, d)
    {
      var c :| && !SourceNormalises(data, getAddress, key, c)
               && v == FailingValue(data, getAddress, key, c)
               && forall d :: MapPosition(d) < MapPosition(c) ==> SourceNormalises(data, getAddress, key, d);
      var i := MapPosition(c);
      ParamsAtMatchesSource(data, getAddress, key, c);
      forall j | 0 <= j < i ensures ParamsAt(data, getAddress, key, order[j]).Success? {
        ParamsAtMatchesSource(data, getAddress, key, order[j]);
      }
    }
  }

  /** The invalid-address error carries `v` exactly when `v` is the first value
      getAddress rejects, in the field order of the getContractsMap literal. */
  lemma InvalidAddressNamesFirstRejectedValue(data: Dataset, getAddress: AddressNormaliser, e: Environment, v: Option<string>)
    ensures var key := GetContractKeyByEnvironment(e);
      GetContractsForEnvironment(data, getAddress, e) == Failure(InvalidAddress(v)) <==>
        exists c :: && !SourceNormalises(data, getAddress, key, c)
                    && v == FailingValue(data, getAddress, key, c)
                    && forall d :: MapPosition(d) < MapPosition(c) ==> SourceNormalises(data, getAddress, key, d)
  {
    LookupAtContractsMapOrder(data, getAddress, e);
    ContractsMapOrderIndexed();
    InvalidAt(data, getAddress, GetContractKeyByEnvironment(e), ContractsMapOrder, v);
  }

  // ---------------------------------------------------------------------------
  // Corollaries
  // ---------------------------------------------------------------------------

  /** `local` uses the same address set as `dev`. */
  lemma LocalResolvesLikeDev(data: Dataset, getAddress: AddressNormaliser)
    ensures GetContractsForEnvironment(data, getAddress, Local) == GetContractsForEnvironment(data, getAddress, Dev)
  {
  }

  lemma {:induction false} BuildAllReadsOnlyKey(data1: Dataset, data2: Dataset, getAddress: AddressNormaliser,
                                                key: DatasetKey, order: seq<ContractId>)
    requires forall c :: data1(c, key) == data2(c, key)
    ensures BuildAll(data1, getAddress, key, order) == BuildAll(data2, getAddress, key, order)
  {
    if order != [] {
      BuildAllReadsOnlyKey(data1, data2, getAddress, key, order[1..]);
      assert ParamsAt(data1, getAddress, key, order[0]) == ParamsAt(data2, getAddress, key, order[0]);
    }
  }

  /** The lookup reads only the entries stored under the environment's dataset key. */
  lemma ContractsForEnvironmentReadsOnlyItsKey(data1: Dataset, data2: Dataset, getAddress: AddressNormaliser, e: Environment)
    requires forall c :: data1(c, GetContractKeyByEnvironment(e)) == data2(c, GetContractKeyByEnvironment(e))
    ensures GetContractsForEnvironment(data1, getAddress, e) == GetContractsForEnvironment(data2, getAddress, e)
  {
    BuildAllReadsOnlyKey(data1, data2, getAddress, GetContractKeyByEnvironment(e), ContractsMapOrder);
  }

  /** A well-formed address: `0x` followed by 40 hexadecimal digits. */
  predicate IsHexDigit(ch: char) {
    '0' <= ch <= '9' || 'a' <= ch <= 'f' || 'A' <= ch <= 'F'
  }

  predicate IsAddressShaped(a: string) {
    |a| == 42 && a[0] == '0' && a[1] == 'x' && forall i :: 2 <= i < 42 ==> IsHexDigit(a[i])
  }

  /** getAddress only ever returns well-formed addresses. */
  ghost predicate YieldsAddresses(getAddress: AddressNormaliser) {
    forall v :: getAddress(v).Some? ==> IsAddressShaped(getAddress(v).value)
  }

  /** With a getAddress that returns only well-formed addresses, the
      missing-address error cannot occur and every published address is
      well-formed. */
  lemma WellFormedAddressesNeverMissing(data: Dataset, getAddress: AddressNormaliser, e: Environment)
    requires YieldsAddresses(getAddress)
    ensures var r := GetContractsForEnvironment(data, getAddress, e);
      r.Failure? ==> r.error.InvalidAddress?
    ensures var r := GetContractsForEnvironment(data, getAddress, e);
      r.Success? ==> forall c :: c in r.value ==> IsAddressShaped(r.value[c].address)
  {
    LookupAtContractsMapOrder(data, getAddress, e);
    ContractsMapOrderIndexed();
    WellFormedAt(data, getAddress, GetContractKeyByEnvironment(e), ContractsMapOrder);
  }

  /** A normalised address is well-formed, hence never empty. */
  lemma ExpectedAddressShaped(data: Dataset, getAddress: AddressNormaliser, key: DatasetKey, c: ContractId)
    requires YieldsAddresses(getAddress)
    requires SourceNormalises(data, getAddress, key, c)
    ensures IsAddressShaped(ExpectedAddress(data, getAddress, key, c))
  {
    if SpecOf(c).isUpgradeable {
      assert getAddress(data(c, key).proxyAddress).Some?;
    } else {
      assert getAddress(data(c, key).address).Some?;
    }
  }

  lemma WellFormedAt(data: Dataset, getAddress: AddressNormaliser, key: DatasetKey, order: seq<ContractId>)
    requires YieldsAddresses(getAddress)
    requires IndexedByPosition(order)
    ensures var r := LookupAt(data, getAddress, key, order);
      r.Failure? ==> r.error.InvalidAddress?
    ensures var r := LookupAt(data, getAddress, key, order);
      r.Success? ==> forall c :: c in r.value ==> IsAddressShaped(r.value[c].address)
  {
    var r := LookupAt(data, getAddress, key, order);
    if r.Success? {
      ResolvesAt(data, getAddress, key, order);
      forall c | c in r.value ensures IsAddressShaped(r.value[c].address) {
        ParamsAtMatchesSource(data, getAddress, key, c);
        ExpectedAddressShaped(data, getAddress, key, c);
      }
    } else if r.error.MissingAddress? {
      var c := r.error.contract;
      MissingAt(data, getAddress, key, order, c);
      ExpectedAddressShaped(data, getAddress, key, c);
      assert false;
    }
  }

  /** The address a contract publishes, as read from the dataset: the proxy
      address if upgradeable, the direct address otherwise. */
  function RawChosenAddress(data: Dataset, key: DatasetKey, c: ContractId): Option<string> {
    if SpecOf(c).isUpgradeable then data(c, key).proxyAddress else data(c, key).address
  }

  lemma AbsentChosenAt(data: Dataset, getAddress: AddressNormaliser, key: DatasetKey, order: seq<ContractId>, c: ContractId)
    requires IndexedByPosition(order)
    requires getAddress(None).None?
    requires RawChosenAddress(data, key, c).None?
    ensures var r := LookupAt(data, getAddress, key, order);
      r.Failure? && r.error.InvalidAddress?
  {
    var r := LookupAt(data, getAddress, key, order);
    assert !SourceNormalises(data, getAddress, key, c);
    ResolvesAt(data, getAddress, key, order);
    if r.Failure? && r.error.MissingAddress? {
      MissingAt(data, getAddress, key, order, r.error.contract);
      assert false;
    }
  }

  /** With a getAddress that rejects absent values as viem's does, a contract
      whose published address is absent from the dataset (the proxy of an
      upgradeable contract, the direct address of any other) makes the call
      throw the invalid-address error: it neither succeeds nor reports the
      missing-address error. */
  lemma AbsentChosenAddressFailsInGetAddress(data: Dataset, getAddress: AddressNormaliser, e: Environment, c: ContractId)
    requires getAddress(None).None?
    requires RawChosenAddress(data, GetContractKeyByEnvironment(e), c).None?
    ensures var r := GetContractsForEnvironment(data, getAddress, e);
      r.Failure? && r.error.InvalidAddress?
  {
    LookupAtContractsMapOrder(data, getAddress, e);
    ContractsMapOrderIndexed();
    AbsentChosenAt(data, getAddress, GetContractKeyByEnvironment(e), ContractsMapOrder, c);
  }

  /** The first field of the literal: an absent attestation proxy, with an
      accepted direct address, gives exactly the invalid-address error for the
      absent value. */
  lemma AbsentAttestationProxyFailsInGetAddress(data: Dataset, getAddress: AddressNormaliser, e: Environment)
    requires getAddress(None).None?
    requires data(Attestation, GetContractKeyByEnvironment(e)).proxyAddress.None?
    requires Normalises(getAddress, data(Attestation, GetContractKeyByEnvironment(e)).address)
    ensures GetContractsForEnvironment(data, getAddress, e) == Failure(InvalidAddress(None))
  {
  }
}
