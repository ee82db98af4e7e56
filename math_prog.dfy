/**
 * The model object: a container that the driver fills step by step with the index sets, the
 * parameter tables, the decision variables, the objective and the constraint components.
 */
module MathProg {
  import opened Common
  import opened ConstructionRules
  import opened RuleProperties

  class Model {
    var sets: Option<Sets>
    var params: Option<Params>
    var variablesDeclared: bool
    var objectiveDeclared: bool
    /** The constraint components attached so far, in attachment order. */
    var constraints: seq<Family>

    /** An empty model. */
    constructor()
      ensures sets == None && params == None
      ensures !variablesDeclared && !objectiveDeclared && constraints == []
    {
      sets := None;
      params := None;
      variablesDeclared := false;
      objectiveDeclared := false;
      constraints := [];
    }

    /** Attaches the seven index sets. */
    method InitializeSets(locations: seq<Location>, carriers: seq<Label>, converters: seq<Label>,
                          supplyTypes: seq<Label>, edges: seq<Pair>, arcs: seq<Pair>, periods: seq<Period>)
      modifies this
      ensures sets == Some(Sets(locations, carriers, converters, supplyTypes, edges, arcs, periods))
      ensures params == old(params) && constraints == old(constraints)
      ensures variablesDeclared == old(variablesDeclared) && objectiveDeclared == old(objectiveDeclared)
    {
      sets := Some(Sets(locations, carriers, converters, supplyTypes, edges, arcs, periods));
    }

    /** Attaches the parameter tables; the earlier-investment tables default to 0. */
    method CreateParametersFromDictionaries(
      networkCosts: map<(Label, Location, Location, Period), real>,
      maxFlowLine: map<Label, real>,
      supplyInvestmentCosts: map<(Label, Period), real>,
      supplyExternalFactor: map<(Label, Location, Period), real>,
      maxEnergySupplied: map<(Label, Label), real>,
      converterInvestmentCosts: map<(Label, Period), real>,
      maxConverted: map<(Label, Label), real>,
      conversionEfficiencies: map<(Label, Label, Label), real>,
      storageCosts: map<(Label, Period), real>,
      storageLosses: map<Label, real>,
      maxStored: map<Label, real>,
      lossFactor: map<Label, real>,
      demand: map<(Label, Location, Period), real>,
      amountGiven: map<(Label, Location, Period), real>,
      earlierLineInvestmentMade: Brownfield<(Label, Location, Location)>,
      earlierSupplyInvestmentMade: Brownfield<(Label, Location)>,
      earlierConverterInvestmentMade: Brownfield<(Label, Location)>,
      earlierStorageInvestmentMade: Brownfield<(Label, Location)>)
      requires sets.Some?
      modifies this
      ensures params == Some(Params(networkCosts, maxFlowLine, supplyInvestmentCosts, supplyExternalFactor,
                                    maxEnergySupplied, converterInvestmentCosts, maxConverted,
                                    conversionEfficiencies, storageCosts, storageLosses, maxStored,
                                    lossFactor, demand, amountGiven, earlierLineInvestmentMade,
                                    earlierSupplyInvestmentMade, earlierConverterInvestmentMade,
                                    earlierStorageInvestmentMade))
      ensures sets == old(sets) && constraints == old(constraints)
      ensures variablesDeclared == old(variablesDeclared) && objectiveDeclared == old(objectiveDeclared)
    {
      params := Some(Params(networkCosts, maxFlowLine, supplyInvestmentCosts, supplyExternalFactor,
                            maxEnergySupplied, converterInvestmentCosts, maxConverted,
                            conversionEfficiencies, storageCosts, storageLosses, maxStored,
                            lossFactor, demand, amountGiven, earlierLineInvestmentMade,
                            earlierSupplyInvestmentMade, earlierConverterInvestmentMade,
                            earlierStorageInvestmentMade));
    }

    /** Declares the nine variable families over the attached sets. */
    method InitializeVariables()
      requires sets.Some?
      modifies this
      ensures variablesDeclared
      ensures sets == old(sets) && params == old(params) && constraints == old(constraints)
      ensures objectiveDeclared == old(objectiveDeclared)
    {
      variablesDeclared := true;
    }

    /** Attaches the cost objective; building it fails when a cost entry it reads is undefined. */
    method InitializeObjective() returns (ok: bool)
      requires sets.Some? && params.Some? && variablesDeclared
      modifies this
      ensures sets == old(sets) && params == old(params) && constraints == old(constraints)
      ensures ok == ObjectiveReadable(sets.value, params.value)
      ensures objectiveDeclared == ok
      ensures variablesDeclared
    {
      ok := ObjectiveReadable(sets.value, params.value);
      objectiveDeclared := ok;
    }

    /**
     * Attaches the components of the mode, in order. Building a component whose rows read an
     * undefined parameter entry fails, and the components attached before it remain.
     */
    method InitializeConstraints(mode: string) returns (ok: bool)
      requires sets.Some? && params.Some? && variablesDeclared
      modifies this
      ensures sets == old(sets) && params == old(params)
      ensures ok <==> forall f | f in InstalledFamilies(mode) :: Constructible(f, sets.value, params.value)
      ensures ok ==> constraints == old(constraints) + InstalledFamilies(mode)
      ensures !ok ==> exists k | 0 <= k < |InstalledFamilies(mode)| ::
                && constraints == old(constraints) + InstalledFamilies(mode)[..k]
                && !Constructible(InstalledFamilies(mode)[k], sets.value, params.value)
      ensures variablesDeclared == old(variablesDeclared) && objectiveDeclared == old(objectiveDeclared)
    {
      var families := InstalledFamilies(mode);
      var i := 0;
      while i < |families|
        invariant 0 <= i <= |families|
        invariant sets == old(sets) && params == old(params)
        invariant variablesDeclared == old(variablesDeclared) && objectiveDeclared == old(objectiveDeclared)
        invariant constraints == old(constraints) + families[..i]
        invariant forall j | 0 <= j < i :: Constructible(families[j], sets.value, params.value)
      {
        if !Constructible(families[i], sets.value, params.value) {
          return false;
        }
        constraints := constraints + [families[i]];
        i := i + 1;
      }
      assert families[..i] == families;
      return true;
    }

    /** The objective value of a candidate assignment. */
    function Cost(x: Assignment): (r: real)
      reads this
      requires objectiveDeclared && sets.Some? && params.Some?
      ensures NonNegativeCosts(sets.value, params.value) ==> r >= 0.0
    {
      if NonNegativeCosts(sets.value, params.value) then ObjectiveNonNegative(sets.value, params.value, x); TotalCosts(sets.value, params.value, x)
      else TotalCosts(sets.value, params.value, x)
    }

    /** Whether a candidate assignment satisfies every attached component. */
    predicate IsFeasible(x: Assignment)
      reads this
      requires sets.Some? && params.Some?
    {
      Feasible(sets.value, params.value, constraints, x)
    }
  }
}
