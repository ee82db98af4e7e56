/**
 * The rest of the driver: the given supply and availability tables split off the supply scenario,
 * the all-zero brownfield tables, and the script that derives every table and assembles the model
 * in "With" storage mode.
 */
module RunnerScript {
  import opened Common
  import opened ConstructionRules
  import opened RuleProperties
  import opened MathProg
  import opened RunnerTopology
  import opened RunnerCosts

  /** A key of the supply scenario table: (product, location, period). */
  type ScenarioKey = (Label, Location, Period)

  // ---------------------------------------------------------------- given supply and availability

  /** The Gas rows of the scenario. */
  function GasRows(scenario: map<ScenarioKey, real>): map<ScenarioKey, real>
  {
    map k | k in scenario && k.0 == Gas :: scenario[k]
  }

  /** The Solar and Wind rows of the scenario, used as availability factors. */
  function ExternalFactors(scenario: map<ScenarioKey, real>): map<ScenarioKey, real>
  {
    map k | k in scenario && (k.0 == Solar || k.0 == Wind) :: scenario[k]
  }

  /** given keeps every Gas row of the scenario and has Electricity and Heat at 0 wherever Gas has a row. */
  ghost predicate AmountGivenFrom(given: map<ScenarioKey, real>, scenario: map<ScenarioKey, real>)
  {
    && (forall k :: k in given <==>
          ((k.0 == Gas && k in scenario) || ((k.0 == Electricity || k.0 == Heat) && (Gas, k.1, k.2) in scenario)))
    && forall k | k in given :: given[k] == if k.0 == Gas then scenario[k] else 0.0
  }

  /** Builds the given supply table entry by entry from the Gas rows. */
  method BuildAmountGiven(scenario: map<ScenarioKey, real>) returns (given: map<ScenarioKey, real>)
    ensures AmountGivenFrom(given, scenario)
  {
    var gasOnly := GasRows(scenario);
    given := map[];
    var todo := gasOnly.Keys;
    while todo != {}
      invariant todo <= gasOnly.Keys
      invariant forall k :: k in given <==>
        ((k.0 == Gas && k in gasOnly.Keys - todo) || ((k.0 == Electricity || k.0 == Heat) && (Gas, k.1, k.2) in gasOnly.Keys - todo))
      invariant forall k | k in given :: given[k] == if k.0 == Gas then scenario[k] else 0.0
      decreases |todo|
    {
      var x :| x in todo;
      given := given[x := gasOnly[x]];
      given := given[(Electricity, x.1, x.2) := 0.0];
      given := given[(Heat, x.1, x.2) := 0.0];
      todo := todo - {x};
    }
  }

  /**
   * What the Gas supply rule reads is the scenario's Gas value, Electricity and Heat read 0, and
   * no availability key is a given-supply key.
   */
  lemma GivenSupplySplit(given: map<ScenarioKey, real>, scenario: map<ScenarioKey, real>, l: Location, t: Period)
    requires AmountGivenFrom(given, scenario)
    ensures (Gas, l, t) in given <==> (Gas, l, t) in scenario
    ensures Get(given, (Gas, l, t)) == Get(scenario, (Gas, l, t))
    ensures (Electricity, l, t) in given <==> (Gas, l, t) in scenario
    ensures Get(given, (Electricity, l, t)) == 0.0 && Get(given, (Heat, l, t)) == 0.0
    ensures forall k | k in ExternalFactors(scenario) :: k !in given && ExternalFactors(scenario)[k] == scenario[k]
  {
    assert (Electricity, l, t) in given ==> given[(Electricity, l, t)] == 0.0;
    assert (Heat, l, t) in given ==> given[(Heat, l, t)] == 0.0;
  }

  // ---------------------------------------------------------------- brownfield tables

  /** Every entry is 0. */
  predicate ZeroTable<K>(m: map<K, real>)
  {
    forall k | k in m :: m[k] == 0.0
  }

  /** Earlier line investments: 0 for every carrier and ordered location pair. */
  method BuildEarlierLineInvestments(locations: seq<Location>) returns (earlier: map<NetworkKey, real>)
    ensures forall k :: k in earlier <==> k.0 in NetworkCarriers && k.1 in locations && k.2 in locations
    ensures ZeroTable(earlier)
  {
    earlier := map[];
    for j := 0 to |locations|
      invariant forall k :: k in earlier <==> k.0 in NetworkCarriers && k.1 in locations[..j] && k.2 in locations
      invariant ZeroTable(earlier)
    {
      var location1 := locations[j];
      assert forall a :: a in locations[..j + 1] <==> a in locations[..j] || a == location1 by {
        assert locations[..j + 1] == locations[..j] + [location1];
      }
      for m := 0 to |locations|
        invariant forall k :: k in earlier <==>
          k.0 in NetworkCarriers && ((k.1 in locations[..j] && k.2 in locations) || (k.1 == location1 && k.2 in locations[..m]))
        invariant ZeroTable(earlier)
      {
        var location2 := locations[m];
        assert forall b :: b in locations[..m + 1] <==> b in locations[..m] || b == location2 by {
          assert locations[..m + 1] == locations[..m] + [location2];
        }
        earlier := earlier[(Electricity, location1, location2) := 0.0];
        earlier := earlier[(Gas, location1, location2) := 0.0];
        earlier := earlier[(Heat, location1, location2) := 0.0];
      }
      assert locations[..|locations|] == locations;
    }
    assert locations[..|locations|] == locations;
  }

  /** Earlier supply, converter and storage investments: 0 for every category and location. */
  method BuildEarlierByLocation(locations: seq<Location>)
    returns (supply: map<(Label, Location), real>, converter: map<(Label, Location), real>, storage: map<(Label, Location), real>)
    ensures forall k :: k in supply <==> (k.0 == Solar || k.0 == Wind) && k.1 in locations
    ensures forall k :: k in converter <==> (k.0 == CHP || k.0 == P2G || k.0 == HP) && k.1 in locations
    ensures forall k :: k in storage <==> k.0 in NetworkCarriers && k.1 in locations
    ensures ZeroTable(supply) && ZeroTable(converter) && ZeroTable(storage)
  {
    supply, converter, storage := map[], map[], map[];
    for j := 0 to |locations|
      invariant forall k :: k in supply <==> (k.0 == Solar || k.0 == Wind) && k.1 in locations[..j]
      invariant forall k :: k in converter <==> (k.0 == CHP || k.0 == P2G || k.0 == HP) && k.1 in locations[..j]
      invariant forall k :: k in storage <==> k.0 in NetworkCarriers && k.1 in locations[..j]
      invariant ZeroTable(supply) && ZeroTable(converter) && ZeroTable(storage)
    {
      var location := locations[j];
      assert forall a :: a in locations[..j + 1] <==> a in locations[..j] || a == location by {
        assert locations[..j + 1] == locations[..j] + [location];
      }
      supply := supply[(Solar, location) := 0.0];
      supply := supply[(Wind, location) := 0.0];
      converter := converter[(CHP, location) := 0.0];
      converter := converter[(P2G, location) := 0.0];
      converter := converter[(HP, location) := 0.0];
      storage := storage[(Electricity, location) := 0.0];
      storage := storage[(Gas, location) := 0.0];
      storage := storage[(Heat, location) := 0.0];
    }
    assert locations[..|locations|] == locations;
  }

  /** An all-zero table reads like the literal 0 the script passes instead, at every index. */
  lemma ZeroTableMatchesLiteralZero<K>(m: map<K, real>, k: K)
    requires ZeroTable(m)
    ensures EarlierAt(Table(m), k) == EarlierAt(Uniform(0.0), k)
  {
    if k in m {
      assert m[k] == 0.0;
    }
  }

  // ---------------------------------------------------------------- the script

  const ScriptConverters: seq<Label> := [CHP, HP, P2G]
  const ScriptSupplyTypes: seq<Label> := [Solar, Wind]

  /** Why assembling the model stopped. */
  datatype ScriptError =
    | MissingNetworkCost(key: NetworkKey)
    | UndefinedObjectiveEntry
    | UndefinedConstraintEntry

  /** The index sets the script installs. */
  function ScriptSets(locations: seq<Location>, periods: seq<Period>, networkKeys: seq<NetworkKey>): Sets
  {
    var edges := ElectricityEdges(networkKeys);
    Sets(locations, NetworkCarriers, ScriptConverters, ScriptSupplyTypes, edges, ArcsOf(edges), periods)
  }

  /** Whether the network step can run: it reads no base cost when there are no periods. */
  predicate NetworkDataComplete(locations: seq<Location>, timePeriods: seq<Period>, networkBase: map<NetworkKey, real>)
  {
    |timePeriods| == 0 || NetworkBaseComplete(locations, networkBase)
  }

  /** The parameter tables the script derives from its base data and hands to the model. */
  ghost predicate ScriptTables(
    p: Params, locations: seq<Location>, timePeriods: seq<Period>, networkBase: map<NetworkKey, real>,
    maxFlowLine: map<Label, real>, lossFactor: map<Label, real>,
    supplyBase: map<Label, real>, maxEnergySupplied: map<(Label, Label), real>,
    converterBase: map<Label, real>, maxConverted: map<(Label, Label), real>,
    conversionEfficiencies: map<(Label, Label, Label), real>,
    storageBase: map<Label, real>, storageLosses: map<Label, real>, maxStored: map<Label, real>,
    demand: map<ScenarioKey, real>, scenario: map<ScenarioKey, real>)
  {
    && (forall k :: k in p.networkCosts <==> DenseNetworkKey(locations, timePeriods, k))
    && NetworkCostsDiscounted(p.networkCosts, networkBase)
    && CostTable(p.supplyInvestmentCosts, supplyBase, timePeriods, SupplyRate)
    && CostTable(p.converterInvestmentCosts, converterBase, timePeriods, ConverterRate)
    && CostTable(p.storageCosts, storageBase, timePeriods, StorageRate)
    && AmountGivenFrom(p.amountGiven, scenario)
    && p.supplyExternalFactor == ExternalFactors(scenario)
    && p.maxFlowLine == maxFlowLine && p.lossFactor == lossFactor
    && p.maxEnergySupplied == maxEnergySupplied && p.maxConverted == maxConverted
    && p.conversionEfficiencies == conversionEfficiencies
    && p.storageLosses == storageLosses && p.maxStorage == maxStored && p.demand == demand
    && p.earlierLineInvestmentMade == Uniform(0.0) && p.earlierSupplyInvestmentMade == Uniform(0.0)
    && p.earlierConverterInvestmentMade == Uniform(0.0) && p.earlierStorageInvestmentMade == Uniform(0.0)
  }

  /**
   * Derives every table from the base data and assembles the model in "With" storage mode, with
   * literal 0 for the four brownfield parameters. A missing network base cost, or a missing entry
   * read by the objective or a constraint, stops the script; otherwise it returns the model. The
   * ghost result p is the parameter record handed to the model.
   */
  method RunScript(
    locations: seq<Location>, timePeriods: seq<Period>,
    networkKeys: seq<NetworkKey>, networkBase: map<NetworkKey, real>,
    maxFlowLine: map<Label, real>, lossFactor: map<Label, real>,
    supplyBase: map<Label, real>, maxEnergySupplied: map<(Label, Label), real>,
    converterBase: map<Label, real>, maxConverted: map<(Label, Label), real>,
    conversionEfficiencies: map<(Label, Label, Label), real>,
    storageBase: map<Label, real>, storageLosses: map<Label, real>, maxStored: map<Label, real>,
    demand: map<ScenarioKey, real>, scenario: map<ScenarioKey, real>)
    returns (r: Result<Model, ScriptError>, ghost p: Params)
    requires forall k :: k in networkBase <==> k in networkKeys
    ensures NetworkDataComplete(locations, timePeriods, networkBase) ==>
      ScriptTables(p, locations, timePeriods, networkBase, maxFlowLine, lossFactor, supplyBase, maxEnergySupplied,
                   converterBase, maxConverted, conversionEfficiencies, storageBase, storageLosses, maxStored,
                   demand, scenario)
    ensures (r.Failure? && r.error.MissingNetworkCost?) <==> !NetworkDataComplete(locations, timePeriods, networkBase)
    ensures r.Failure? && r.error.MissingNetworkCost? ==>
      r.error.key !in networkBase && r.error.key.0 in NetworkCarriers && r.error.key.1 in locations && r.error.key.2 in locations
    ensures (r.Failure? && r.error.UndefinedObjectiveEntry?) <==>
      && NetworkDataComplete(locations, timePeriods, networkBase)
      && !ObjectiveReadable(ScriptSets(locations, timePeriods, networkKeys), p)
    ensures (r.Failure? && r.error.UndefinedConstraintEntry?) <==>
      && NetworkDataComplete(locations, timePeriods, networkBase)
      && ObjectiveReadable(ScriptSets(locations, timePeriods, networkKeys), p)
      && exists f | f in InstalledFamilies(WithStorageMode) :: !Constructible(f, ScriptSets(locations, timePeriods, networkKeys), p)
    ensures r.Success? <==>
      && NetworkDataComplete(locations, timePeriods, networkBase)
      && ObjectiveReadable(ScriptSets(locations, timePeriods, networkKeys), p)
      && forall f | f in InstalledFamilies(WithStorageMode) :: Constructible(f, ScriptSets(locations, timePeriods, networkKeys), p)
    ensures r.Success? ==> fresh(r.value)
    ensures r.Success? ==> r.value.sets == Some(ScriptSets(locations, timePeriods, networkKeys)) && r.value.params == Some(p)
    ensures r.Success? ==> r.value.variablesDeclared && r.value.objectiveDeclared
    ensures r.Success? ==> r.value.constraints == InstalledFamilies(WithStorageMode)
    ensures r.Success? ==> forall x :: r.value.IsFeasible(x) <==>
      Feasible(ScriptSets(locations, timePeriods, networkKeys), p, InstalledFamilies(WithStorageMode), x)
  {
    var edges, arcs := BuildEdgesAndArcs(networkKeys);
    var networkCosts := DeriveNetworkCosts(timePeriods, locations, networkBase);
    if networkCosts.Failure? {
      p := Params(map[], maxFlowLine, map[], map[], maxEnergySupplied, map[], maxConverted, conversionEfficiencies,
                  map[], storageLosses, maxStored, lossFactor, demand, map[],
                  Uniform(0.0), Uniform(0.0), Uniform(0.0), Uniform(0.0));
      return Failure(MissingNetworkCost(networkCosts.error)), p;
    }
    var supplyCosts := DeriveSupplyCosts(timePeriods, supplyBase);
    var converterCosts := DeriveConverterCosts(timePeriods, converterBase);
    var storageCosts := DeriveStorageCosts(timePeriods, storageBase);
    var amountGiven := BuildAmountGiven(scenario);
    var externalFactor := ExternalFactors(scenario);
    // These tables are built but not passed on: the script passes literal 0 instead.
    var earlierLine := BuildEarlierLineInvestments(locations);
    var earlierSupply, earlierConverter, earlierStorage := BuildEarlierByLocation(locations);

    var model := new Model();
    model.InitializeSets(locations, NetworkCarriers, ScriptConverters, ScriptSupplyTypes, edges, arcs, timePeriods);
    model.CreateParametersFromDictionaries(
      networkCosts.value, maxFlowLine, supplyCosts, externalFactor, maxEnergySupplied,
      converterCosts, maxConverted, conversionEfficiencies, storageCosts, storageLosses, maxStored,
      lossFactor, demand, amountGiven, Uniform(0.0), Uniform(0.0), Uniform(0.0), Uniform(0.0));
    p := model.params.value;
    model.InitializeVariables();
    var objectiveOk := model.InitializeObjective();
    if !objectiveOk {
      return Failure(UndefinedObjectiveEntry), p;
    }
    var constraintsOk := model.InitializeConstraints(WithStorageMode);
    if !constraintsOk {
      return Failure(UndefinedConstraintEntry), p;
    }
    return Success(model), p;
  }

  // ---------------------------------------------------------------- end-to-end properties

  /**
   * In the assembled model, lines of every carrier can only be bought along Electricity rows of the
   * network table, and flow only runs along such a row in either direction.
   */
  lemma ScriptTopology(locations: seq<Location>, timePeriods: seq<Period>, networkKeys: seq<NetworkKey>,
                       p: Params, x: Assignment, c: Label, a: Location, b: Location, t: Period)
    requires Feasible(ScriptSets(locations, timePeriods, networkKeys), p, InstalledFamilies(WithStorageMode), x)
    requires c in NetworkCarriers && a in locations && b in locations && t in timePeriods
    ensures (Electricity, a, b) !in networkKeys ==> LineInvestment(x, c, a, b, t) == 0
    ensures (Electricity, a, b) !in networkKeys && (Electricity, b, a) !in networkKeys ==> Flow(x, c, a, b, t) == 0.0
  {
    var s := ScriptSets(locations, timePeriods, networkKeys);
    TopologyMasking(s, p, WithStorageMode, x, c, a, b, t);
    ElectricityEdgesMembership(networkKeys, a, b);
    TableArcs(networkKeys, a, b);
  }

  /** In the assembled model, Gas supply never exceeds the scenario's Gas row and Heat is never supplied. */
  lemma ScriptGivenSupply(locations: seq<Location>, timePeriods: seq<Period>, networkKeys: seq<NetworkKey>,
                          p: Params, scenario: map<ScenarioKey, real>, x: Assignment, l: Location, t: Period)
    requires Feasible(ScriptSets(locations, timePeriods, networkKeys), p, InstalledFamilies(WithStorageMode), x)
    requires AmountGivenFrom(p.amountGiven, scenario)
    requires l in locations && t in timePeriods
    ensures Supplied(x, Gas, l, t) <= Get(scenario, (Gas, l, t))
    ensures Supplied(x, Heat, l, t) == 0.0
  {
    var s := ScriptSets(locations, timePeriods, networkKeys);
    SupplyPolicy(s, p, WithStorageMode, x, Gas, l, t);
    SupplyPolicy(s, p, WithStorageMode, x, Heat, l, t);
    GivenSupplySplit(p.amountGiven, scenario, l, t);
  }

  /** The assembled model installs the storage bounds, so storage flows need storage investment. */
  lemma ScriptStorageNeedsInvestment(locations: seq<Location>, timePeriods: seq<Period>, networkKeys: seq<NetworkKey>,
                                     p: Params, x: Assignment, c: Label, l: Location)
    requires Feasible(ScriptSets(locations, timePeriods, networkKeys), p, InstalledFamilies(WithStorageMode), x)
    requires c in NetworkCarriers && l in locations
    requires forall t | t in timePeriods :: StorageInvestment(x, c, l, t) == 0
    ensures forall t | t in timePeriods :: StoredIn(x, c, l, t) == 0.0 && StoredOut(x, c, l, t) == 0.0
  {
    ZeroStorageInvestmentNoStorageFlows(ScriptSets(locations, timePeriods, networkKeys), p, x, c, l);
  }
}
