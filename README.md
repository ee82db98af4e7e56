# IMES multi-energy network planning model, in Dafny

This project models the IMES investment-planning formulation. IMES chooses integer investments in
energy lines, supply units (Solar, Wind), converters (CHP, HP, P2G) and storage at network nodes
over a sequence of periods. The choices must keep demand for Electricity, Gas and Heat met through
supply, lossy flows, conversion and storage. The objective is the discounted investment cost.

The model has two parts.

**The formulation** (`math_prog_imes.py`).
- `ConstructionRules` holds one predicate per constraint rule, written over a candidate assignment. An
  assignment maps index tuples to `nat` investment counts and to `real` operation amounts; an absent
  entry reads as 0.
- Sums over the index sets, cumulative sums over periods `t2 <= t` and `t2 < t`, and the
  storage convolution with `Pow(losses, t - t2)` are written out. The exponent is the raw
  difference of period labels.
- `Family` names the constraint components. `InstalledFamilies(mode)` lists what
  `InitializeConstraints` attaches for a mode, in the order it attaches them. `Feasible` says that an
  assignment satisfies every row of a list of components, and `TotalCosts` evaluates the objective.
- `Constructible` and `ObjectiveReadable` say whether every parameter entry that a component or the
  objective reads is defined. Building one that reads an undefined entry fails.
- `MathProg.Model` is the model object. Its methods attach sets, parameters, variables, the objective
  and the constraint components, in the driver's order.

**The driver** (`Runner_imes.py`, between data loading and the solve call).
- It builds the edge and arc lists from the Electricity rows of the network cost table.
- It builds the dense network cost table. It builds the supply, converter and storage cost tables,
  discounted by `(1 + 0.045 + development rate)^(t - 2018)`.
- It builds the given-supply and availability tables from the supply scenario, and the all-zero
  brownfield tables.
- It assembles the model in "With" storage mode. The four brownfield arguments are the literal 0.

Spreadsheet rows come in as maps and sequences. Key order is kept only where the source depends on
it, which is the edge list.

The network-cost loop reads the base cost of every carrier and ordered location pair. It stops with
the missing key when a row is absent, and when there are no periods nothing is read.

The storage cost loop keeps the source's two consecutive `if` statements. The `else` branch of
the Heat test rewrites the Electricity entry. So Electricity storage ends up discounted at the
discount rate alone. `StorageElectricityOverwritten` proves that after 2018 this cost is strictly
higher than with the declared Electricity development rate.

In any mode other than "With", only `AmountStored_In` is fixed at 0. `AmountStored_Out` has no upper
bound, so a point stays feasible when it is raised (`WithoutStorageOutflowUnbounded`).

## Model

| member | source | states |
|---|---|---|
| RuleProperties.ModeSelection | math_prog_imes.py:140-194 | "With" installs both storage bounds and the storage investment cap but not NoStorage (12 components); any other string installs NoStorage and none of those three (10 components); every other component is installed in both modes; no component is installed twice |
| RuleProperties.NoFlowInvestmentRuleMeaning | math_prog_imes.py:356-360 | the line-investment mask holds exactly when the pair is an edge or nothing is bought on it |
| RuleProperties.NoAmountFlowRuleMeaning | math_prog_imes.py:363-367 | for non-negative flows, the flow mask holds exactly when the pair is an arc or nothing flows on it |
| RuleProperties.TopologyMasking | math_prog_imes.py:154-167 | in either mode a feasible point buys no line off the edge list and sends no flow off the arc list |
| RuleProperties.BalanceIgnoresFlowsOffArcs | math_prog_imes.py:228-232 | inflow and outflow in the balance only read flows on arcs: two points that agree on the arcs have equal inflow and outflow |
| RuleProperties.BalanceAllowsOverSupply | math_prog_imes.py:224-237 | the balance is an inequality: adding any non-negative extra supply to a balanced row keeps it balanced |
| RuleProperties.SupplyPolicy | math_prog_imes.py:242-258 | a feasible point only has Electricity, Gas and Heat as carriers; Heat supply is 0, Gas supply is at most the given amount, Electricity supply is at most the availability-scaled new capacity plus the unscaled brownfield capacity |
| RuleProperties.UnknownCarrierInfeasible | math_prog_imes.py:242-258 | a carrier outside the three has no supply rule, so no point is feasible once locations and periods are non-empty |
| RuleProperties.AvailabilityLowersElectricityBound | math_prog_imes.py:244-252 | with availability factors in [0, 1] and non-negative unit capacities, the Electricity supply bound is at most the installed capacity through t plus brownfield |
| RuleProperties.ElectricitySupplyWithinCapacity | math_prog_imes.py:242-252 | under those conditions feasible Electricity supply never exceeds the installed capacity |
| RuleProperties.SupplyInvestmentCaps | math_prog_imes.py:307-331 | a feasible point has no Wind at Node_1/5/6, Wind in 2018 at most 4, Solar in 2018 at most 6, Wind in 2020 at most 5, Solar in 2020 at most 7, other Wind at most 5, anything at most 8 |
| RuleProperties.InvestmentCaps | math_prog_imes.py:334-352 | line investments on edges and converter investments are at most 5 in both modes; storage investments are at most 5 in "With" mode |
| RuleProperties.LineInvestmentBounded | math_prog_imes.py:334-360 | every line investment of a feasible point, on or off the edge list, is at most 5 |
| RuleProperties.CumulativeMonotone | math_prog_imes.py:261-285 | a cumulative sum over periods t2 <= t of non-negative terms does not decrease as t grows |
| RuleProperties.LineCapacityMonotone | math_prog_imes.py:261-265 | with a non-negative maximum flow, the corridor capacity (cumulative investment plus brownfield, times maximum flow) does not decrease in t |
| RuleProperties.ConverterCapacityMonotone | math_prog_imes.py:268-276 | with a non-negative maximum conversion, the converter capacity does not decrease in t |
| RuleProperties.StorageCapacityMonotone | math_prog_imes.py:280-285 | with a non-negative maximum storage level, the installed storage capacity does not decrease in t |
| RuleProperties.WithoutStorageNoStoredIn | math_prog_imes.py:370-371 | in any mode other than "With", a feasible point has storage inflow 0 everywhere |
| RuleProperties.WithoutStorageOutflowUnbounded | math_prog_imes.py:174-194 | in any mode other than "With", raising a storage outflow by any non-negative amount keeps a feasible point feasible |
| RuleProperties.NoStorageFlowsFrom | math_prog_imes.py:280-303 | with no storage investment at (c, l) and the two storage bounds at every period, storage inflow and outflow at (c, l) are 0 at every period; proved by induction over periods |
| RuleProperties.ZeroStorageInvestmentNoStorageFlows | math_prog_imes.py:280-303 | in "With" mode, a feasible point with no storage investment at (c, l) has storage inflow and outflow 0 there in every period |
| RuleProperties.StoredOutWithinStock | math_prog_imes.py:280-303 | in "With" mode, a feasible point never takes out of storage in period t more than the decayed inflow of earlier periods, and its inflow plus outflow in period t never exceeds the storage capacity installed through t |
| RuleProperties.ObjectiveReadsOnlyEdgeInvestments | math_prog_imes.py:203-220 | the objective depends only on the investments, and for lines only on the edge list: two points that agree there cost the same |
| RuleProperties.ObjectiveNonNegative | math_prog_imes.py:203-220 | with non-negative cost entries, every point costs at least 0 |
| MathProg.Model.constructor | math_prog_imes.py:17-18 | a new model holds no sets, parameters, variables, objective or components |
| MathProg.Model.InitializeSets | math_prog_imes.py:21-37 | attaches the seven index sets and changes nothing else |
| MathProg.Model.CreateParametersFromDictionaries | math_prog_imes.py:41-103 | attaches the parameter tables, with the earlier-investment tables given as a table or a single number; needs the sets first |
| MathProg.Model.InitializeVariables | math_prog_imes.py:106-130 | declares the variables over the attached sets |
| MathProg.Model.InitializeObjective | math_prog_imes.py:135-137 | attaching the objective succeeds exactly when every cost entry it reads is defined |
| MathProg.Model.InitializeConstraints | math_prog_imes.py:140-194 | succeeds exactly when every component of the mode can be built, and then attaches them all in order; otherwise the components before the first failing one stay attached |
| MathProg.Model.Cost | math_prog_imes.py:203-220 | the objective value of a point, at least 0 when the cost entries are non-negative |
| RunnerTopology.BuildEdgesAndArcs | Runner_imes.py:60-75 | the edges are the (from, to) pairs of the Electricity keys in key order, and the arcs list each edge forward then backward |
| RunnerTopology.ElectricityEdgesMembership | Runner_imes.py:68-71 | (a, b) is an edge exactly when (Electricity, a, b) is a key of the network table |
| RunnerTopology.ArcsLayout | Runner_imes.py:72-75 | there are exactly twice as many arcs as edges; arc 2i is edge i and arc 2i+1 is edge i reversed |
| RunnerTopology.ArcsMembership | Runner_imes.py:72-75 | a pair is an arc exactly when it or its reverse is an edge |
| RunnerTopology.TableArcs | Runner_imes.py:68-75 | a pair is an arc exactly when the network table has an Electricity row for it in either direction |
| RunnerCosts.FillNetworkRow | Runner_imes.py:102-111 | writes every carrier's discounted cost from one location to each location in one period, or stops with a missing base key from that row |
| RunnerCosts.FillNetworkPeriod | Runner_imes.py:101-111 | writes every carrier's discounted cost for every location pair in one period, or stops with a missing base key |
| RunnerCosts.DeriveNetworkCosts | Runner_imes.py:99-111 | succeeds exactly when there are no periods or every carrier and location pair has a base cost; the table is then dense over carriers, pairs and periods, with base / 1.045^(t-2018); a failure names a missing key |
| RunnerCosts.NetworkCostAt | Runner_imes.py:98-111 | every carrier, pair and period has a network cost discounted at 0.045, which equals the base cost in 2018 |
| RunnerCosts.SupplyRate | Runner_imes.py:132-141 | Solar's rate is 0.045 + 0.05 and every other supply type's is 0.045 + 0.022; all exceed the discount rate |
| RunnerCosts.ConverterRate | Runner_imes.py:154-167 | a converter's rate is the discount rate exactly when it is neither P2G nor HP |
| RunnerCosts.StorageRate | Runner_imes.py:184-197 | a storage category's final rate is the discount rate exactly when it is not Heat |
| RunnerCosts.DeriveSupplyCosts | Runner_imes.py:131-141 | the supply cost table holds every (supply type, period) pair, the base cost discounted at the type's rate |
| RunnerCosts.DeriveConverterCosts | Runner_imes.py:153-167 | the converter cost table holds every (converter, period) pair, the base cost discounted at the converter's rate |
| RunnerCosts.DeriveStorageCosts | Runner_imes.py:183-197 | the storage cost table holds every (carrier, period) pair, the base cost discounted at the final rate after the Electricity entry is rewritten |
| RunnerCosts.DerivedCostAtStart | Runner_imes.py:132-197 | in 2018 every derived cost equals its base cost |
| RunnerCosts.DerivedCostNonIncreasing | Runner_imes.py:131-197 | from 2018 on, a non-negative derived cost never rises in a later period |
| RunnerCosts.StorageElectricityOverwritten | Runner_imes.py:186-197 | the Electricity storage cost is the discount-only value, and after 2018 it is strictly above the value with the Electricity development rate |
| RunnerCosts.NonSolarSupplyUsesWindRate | Runner_imes.py:134-141 | every supply type other than Solar is discounted at the wind rate, so with equal base costs it costs the same as Wind |
| Discounting.DiscountedAtStart | Runner_imes.py:98-105 | at period 2018 the discounted cost is the base cost |
| Discounting.DiscountedRoundTrip | Runner_imes.py:103-105 | from 2018 on, multiplying a discounted cost by (1 + rate)^(t-2018) gives back the base cost |
| Discounting.DiscountedNonIncreasing | Runner_imes.py:103-105 | from 2018 on, a non-negative cost with a non-negative rate never rises in later periods |
| Discounting.DiscountedStrictInRate | Runner_imes.py:136-141 | after 2018 a positive cost discounted at a strictly higher rate is strictly lower |
| RunnerScript.BuildAmountGiven | Runner_imes.py:226-232 | the given-supply table keeps every Gas row of the scenario and has Electricity and Heat at 0 exactly where Gas has a row |
| RunnerScript.GivenSupplySplit | Runner_imes.py:226-236 | the Gas rule reads the scenario's Gas value, Electricity and Heat read 0, and no availability key is a given-supply key |
| RunnerScript.BuildEarlierLineInvestments | Runner_imes.py:114-119 | the earlier line table has 0 for every carrier and ordered location pair, and nothing else |
| RunnerScript.BuildEarlierByLocation | Runner_imes.py:240-251 | the earlier supply, converter and storage tables have 0 for each of their categories at every location, and nothing else |
| RunnerScript.ZeroTableMatchesLiteralZero | Runner_imes.py:240-269 | an all-zero earlier table reads like the literal 0 passed instead, at every index |
| RunnerScript.RunScript | Runner_imes.py:56-272 | fails with a missing network key exactly when there are periods and a base row is missing; otherwise fails on the objective exactly when an objective entry is undefined, then on the constraints exactly when some "With" component reads an undefined entry, and succeeds otherwise; on success the model has the script's sets, every derived table, literal 0 brownfield, the objective and the twelve "With" components, so its feasible points are exactly those of the "With" formulation over these tables |
| RunnerScript.ScriptTopology | Runner_imes.py:68-75 | in the assembled model, lines of any carrier are bought only along Electricity rows of the network table, and flow runs only along such a row in either direction |
| RunnerScript.ScriptGivenSupply | Runner_imes.py:226-232 | in the assembled model, Gas supply is at most the scenario's Gas value and Heat supply is 0 |
| RunnerScript.ScriptStorageNeedsInvestment | Runner_imes.py:258-272 | in the assembled model, storage flows at a node need storage investment there |

## Left out

- Reading the spreadsheet, the report written after solving, and the solver call with its limits
  are file I/O and calls into a solver. The model gives feasibility and the objective value of a
  given assignment instead of an optimum.
- The index sets are sequences. The set objects of the modelling library, which ignore repeated
  elements and reject parameter keys outside the index sets, are not modelled: a repeated element
  would be summed twice here.
- Lookups of variables and parameters read an absent entry as 0. Whether a component or the
  objective can be built is a separate check (`Constructible`, `ObjectiveReadable`). It covers only
  the entries each rule reads; the earlier-investment tables default to 0.
- Real numbers are exact here. The floating-point rounding of the source's `**` and `/` is not
  modelled.
- A period before 2018 has a negative exponent. It is modelled as multiplication by the positive
  power, which is the value that `**` with a negative exponent has in exact arithmetic.
- The minimum storage level parameter is declared and filled but never read by any rule, so it is
  not part of `Params`. Commented-out constraints and variables are not modelled.
- `MathProg.Model.CreateParametersFromDictionaries` and `InitializeVariables` need the sets to be
  attached first, because the source reads them; `InitializeSets` needs nothing. None of the
  methods models the library's behaviour when a component is attached twice.
- RunnerTopology.BuildEdgesAndArcs: it takes the network table's keys as a sequence in dictionary
  order. Building that dictionary from the spreadsheet rows is not modelled.
- RunnerCosts.DeriveNetworkCosts: a failure names some missing key of the table. It does not say
  that this is the first missing key in loop order.
- RunnerScript.RunScript: a missing entry read by the objective or a constraint is reported as one
  error per kind. It does not name the key.
