/**
 * The MILP formulation: index sets, parameter tables, a candidate assignment of the decision
 * variables, one predicate per constraint rule, the constraint families each mode installs,
 * feasibility of an assignment, and the objective value of an assignment.
 */
module ConstructionRules {
  import opened Common
  import opened Sums
  import opened Discounting

  /** The index domains of the model. */
  datatype Sets = Sets(
    locations: seq<Location>,
    carriers: seq<Label>,
    converters: seq<Label>,
    supplyTypes: seq<Label>,
    edges: seq<Pair>,     // investable corridors
    arcs: seq<Pair>,      // directed flow channels
    periods: seq<Period>)

  /**
   * Pre-existing ("earlier") investments. The tables have default 0, and the caller may pass a
   * single number instead of a table, which then applies to every index.
   */
  datatype Brownfield<K> = Uniform(value: real) | Table(entries: map<K, real>)

  function EarlierAt<K>(b: Brownfield<K>, k: K): real
  {
    match b
    case Uniform(v) => v
    case Table(m) => Get(m, k)
  }

  /** The parameter tables, keyed by label tuples. */
  datatype Params = Params(
    networkCosts: map<(Label, Location, Location, Period), real>,
    maxFlowLine: map<Label, real>,
    supplyInvestmentCosts: map<(Label, Period), real>,
    supplyExternalFactor: map<(Label, Location, Period), real>,
    maxEnergySupplied: map<(Label, Label), real>,
    converterInvestmentCosts: map<(Label, Period), real>,
    maxConverted: map<(Label, Label), real>,
    conversionEfficiencies: map<(Label, Label, Label), real>,
    storageCosts: map<(Label, Period), real>,
    storageLosses: map<Label, real>,
    maxStorage: map<Label, real>,
    lossFactor: map<Label, real>,
    demand: map<(Label, Location, Period), real>,
    amountGiven: map<(Label, Location, Period), real>,
    earlierLineInvestmentMade: Brownfield<(Label, Location, Location)>,
    earlierSupplyInvestmentMade: Brownfield<(Label, Location)>,
    earlierConverterInvestmentMade: Brownfield<(Label, Location)>,
    earlierStorageInvestmentMade: Brownfield<(Label, Location)>)

  /**
   * A candidate value for every decision variable. Investment counts are non-negative integers;
   * operation amounts are reals. An index absent from a table has value 0.
   */
  datatype Assignment = Assignment(
    lineInvestmentMade: map<(Label, Location, Location, Period), nat>,
    supplyInvestmentMade: map<(Label, Location, Period), nat>,
    converterInvestmentMade: map<(Label, Location, Period), nat>,
    storageInvestmentMade: map<(Label, Location, Period), nat>,
    amountSupplied: map<(Label, Location, Period), real>,
    amountFlow: map<(Label, Location, Location, Period), real>,
    amountConverted: map<(Label, Label, Location, Period), real>,
    amountStoredIn: map<(Label, Location, Period), real>,
    amountStoredOut: map<(Label, Location, Period), real>)

  /** The continuous variables are declared non-negative. */
  predicate NonNegative(x: Assignment)
  {
    && (forall k | k in x.amountSupplied :: x.amountSupplied[k] >= 0.0)
    && (forall k | k in x.amountFlow :: x.amountFlow[k] >= 0.0)
    && (forall k | k in x.amountConverted :: x.amountConverted[k] >= 0.0)
    && (forall k | k in x.amountStoredIn :: x.amountStoredIn[k] >= 0.0)
    && (forall k | k in x.amountStoredOut :: x.amountStoredOut[k] >= 0.0)
  }

  // ---------------------------------------------------------------- variable values

  function LineInvestment(x: Assignment, c: Label, a: Location, b: Location, t: Period): nat
  {
    GetNat(x.lineInvestmentMade, (c, a, b, t))
  }

  function SupplyInvestment(x: Assignment, st: Label, l: Location, t: Period): nat
  {
    GetNat(x.supplyInvestmentMade, (st, l, t))
  }

  function ConverterInvestment(x: Assignment, v: Label, l: Location, t: Period): nat
  {
    GetNat(x.converterInvestmentMade, (v, l, t))
  }

  function StorageInvestment(x: Assignment, c: Label, l: Location, t: Period): nat
  {
    GetNat(x.storageInvestmentMade, (c, l, t))
  }

  function Supplied(x: Assignment, c: Label, l: Location, t: Period): (r: real)
    ensures NonNegative(x) ==> r >= 0.0
  {
    Get(x.amountSupplied, (c, l, t))
  }

  function Flow(x: Assignment, c: Label, a: Location, b: Location, t: Period): (r: real)
    ensures NonNegative(x) ==> r >= 0.0
  {
    Get(x.amountFlow, (c, a, b, t))
  }

  function Converted(x: Assignment, c: Label, v: Label, l: Location, t: Period): (r: real)
    ensures NonNegative(x) ==> r >= 0.0
  {
    Get(x.amountConverted, (c, v, l, t))
  }

  function StoredIn(x: Assignment, c: Label, l: Location, t: Period): (r: real)
    ensures NonNegative(x) ==> r >= 0.0
  {
    Get(x.amountStoredIn, (c, l, t))
  }

  function StoredOut(x: Assignment, c: Label, l: Location, t: Period): (r: real)
    ensures NonNegative(x) ==> r >= 0.0
  {
    Get(x.amountStoredOut, (c, l, t))
  }

  // ---------------------------------------------------------------- sums over periods

  /** The terms of f at periods t2 <= t. */
  function UpTo(t: Period, f: Period -> real): Period -> real
  {
    t2 => if t2 <= t then f(t2) else 0.0
  }

  /** The terms of f at periods t2 < t. */
  function Before(t: Period, f: Period -> real): Period -> real
  {
    t2 => if t2 < t then f(t2) else 0.0
  }

  /** The sum of f over the periods up to and including t. */
  function Cumulative(periods: seq<Period>, t: Period, f: Period -> real): real
  {
    Sum(periods, UpTo(t, f))
  }

  /** The sum of f over the periods strictly before t. */
  function History(periods: seq<Period>, t: Period, f: Period -> real): real
  {
    Sum(periods, Before(t, f))
  }

  function LineSeries(inv: map<(Label, Location, Location, Period), nat>, c: Label, a: Location, b: Location): Period -> real
  {
    t2 => GetNat(inv, (c, a, b, t2)) as real
  }

  function ConverterSeries(inv: map<(Label, Location, Period), nat>, v: Label, l: Location): Period -> real
  {
    t2 => GetNat(inv, (v, l, t2)) as real
  }

  function StorageCapacitySeries(p: Params, inv: map<(Label, Location, Period), nat>, c: Label, l: Location): Period -> real
  {
    t2 => GetNat(inv, (c, l, t2)) as real * Get(p.maxStorage, c)
  }

  function StoredOutSeries(out: map<(Label, Location, Period), real>, c: Label, l: Location): Period -> real
  {
    t2 => Get(out, (c, l, t2))
  }

  /** Stored inflow of period t2 < t, decayed by the storage loss factor to the power t - t2. */
  function DecayedInflowTerm(p: Params, stored: map<(Label, Location, Period), real>, c: Label, l: Location, t: Period): Period -> real
  {
    t2 => if t2 < t then Get(stored, (c, l, t2)) * Pow(Get(p.storageLosses, c), t - t2) else 0.0
  }

  /** Electricity supply capacity of one supply type bought at t2, under the availability of period t. */
  function SupplyTypeCapacity(p: Params, inv: map<(Label, Location, Period), nat>, l: Location, t: Period, t2: Period): Label -> real
  {
    st => GetNat(inv, (st, l, t2)) as real
          * Get(p.maxEnergySupplied, (Electricity, st))
          * Get(p.supplyExternalFactor, (st, l, t))
  }

  function NewSupplySeries(s: Sets, p: Params, inv: map<(Label, Location, Period), nat>, l: Location, t: Period): Period -> real
  {
    t2 => Sum(s.supplyTypes, SupplyTypeCapacity(p, inv, l, t, t2))
  }

  /** Brownfield electricity supply capacity of one supply type; not scaled by availability. */
  function BrownfieldSupplyTerm(p: Params, l: Location): Label -> real
  {
    st => EarlierAt(p.earlierSupplyInvestmentMade, (st, l)) * Get(p.maxEnergySupplied, (Electricity, st))
  }

  function InflowTerm(s: Sets, flow: map<(Label, Location, Location, Period), real>, c: Label, l: Location, t: Period): Location -> real
  {
    lf => if (lf, l) in s.arcs then Get(flow, (c, lf, l, t)) else 0.0
  }

  function OutflowTerm(s: Sets, flow: map<(Label, Location, Location, Period), real>, c: Label, l: Location, t: Period): Location -> real
  {
    lt => if (l, lt) in s.arcs then Get(flow, (c, l, lt, t)) else 0.0
  }

  function ConverterTerm(p: Params, conv: map<(Label, Label, Location, Period), real>, c: Label, c2: Label, l: Location, t: Period): Label -> real
  {
    v => Get(conv, (c2, v, l, t)) * Get(p.conversionEfficiencies, (c, c2, v))
  }

  function ConversionTerm(s: Sets, p: Params, conv: map<(Label, Label, Location, Period), real>, c: Label, l: Location, t: Period): Label -> real
  {
    c2 => Sum(s.converters, ConverterTerm(p, conv, c, c2, l, t))
  }

  // ---------------------------------------------------------------- right-hand sides

  /** Flow of carrier c into l over the arcs (from, l). */
  function Inflow(s: Sets, x: Assignment, c: Label, l: Location, t: Period): real
  {
    Sum(s.locations, InflowTerm(s, x.amountFlow, c, l, t))
  }

  /** Flow of carrier c out of l over the arcs (l, to). */
  function Outflow(s: Sets, x: Assignment, c: Label, l: Location, t: Period): real
  {
    Sum(s.locations, OutflowTerm(s, x.amountFlow, c, l, t))
  }

  /** Carrier c produced at l by converting every carrier on every converter. */
  function ConvertedInto(s: Sets, p: Params, x: Assignment, c: Label, l: Location, t: Period): real
  {
    Sum(s.carriers, ConversionTerm(s, p, x.amountConverted, c, l, t))
  }

  /** The electricity supply bound: availability-scaled new capacity plus unscaled brownfield capacity. */
  function ElectricitySupplyBound(s: Sets, p: Params, x: Assignment, l: Location, t: Period): real
  {
    Cumulative(s.periods, t, NewSupplySeries(s, p, x.supplyInvestmentMade, l, t)) + Sum(s.supplyTypes, BrownfieldSupplyTerm(p, l))
  }

  /** Capacity of the corridor (a, b) for carrier c in period t. */
  function LineCapacity(s: Sets, p: Params, x: Assignment, c: Label, a: Location, b: Location, t: Period): real
  {
    (Cumulative(s.periods, t, LineSeries(x.lineInvestmentMade, c, a, b)) + EarlierAt(p.earlierLineInvestmentMade, (c, a, b)))
    * Get(p.maxFlowLine, c)
  }

  /** Capacity of converter v at l for producing carrier c in period t. */
  function ConverterCapacity(s: Sets, p: Params, x: Assignment, c: Label, l: Location, v: Label, t: Period): real
  {
    (Cumulative(s.periods, t, ConverterSeries(x.converterInvestmentMade, v, l)) + EarlierAt(p.earlierConverterInvestmentMade, (v, l)))
    * Get(p.maxConverted, (c, v))
  }

  /** Storage capacity installed through period t (there is no brownfield storage term). */
  function StorageCapacity(s: Sets, p: Params, x: Assignment, c: Label, l: Location, t: Period): real
  {
    Cumulative(s.periods, t, StorageCapacitySeries(p, x.storageInvestmentMade, c, l))
  }

  /** Earlier inflows, each decayed over the label difference to t. */
  function DecayedStoredIn(s: Sets, p: Params, x: Assignment, c: Label, l: Location, t: Period): real
  {
    Sum(s.periods, DecayedInflowTerm(p, x.amountStoredIn, c, l, t))
  }

  /** Earlier outflows, undecayed. */
  function PriorStoredOut(s: Sets, x: Assignment, c: Label, l: Location, t: Period): real
  {
    History(s.periods, t, StoredOutSeries(x.amountStoredOut, c, l))
  }

  // ---------------------------------------------------------------- the rules

  /** Demand is a lower bound on what reaches l: supply, lossy inflow, outflow, conversion, storage. */
  predicate BalanceRule(s: Sets, p: Params, x: Assignment, c: Label, l: Location, t: Period)
  {
    Get(p.demand, (c, l, t))
      <= Supplied(x, c, l, t)
         + (1.0 - Get(p.lossFactor, c)) * Inflow(s, x, c, l, t)
         - Outflow(s, x, c, l, t)
         + ConvertedInto(s, p, x, c, l, t)
         - StoredIn(x, c, l, t)
         + StoredOut(x, c, l, t)
  }

  predicate KnownCarrier(c: Label)
  {
    c == Electricity || c == Gas || c == Heat
  }

  /** The carrier-specific supply policy; a carrier outside the three has no rule (None). */
  function MaxSupplyRule(s: Sets, p: Params, x: Assignment, c: Label, l: Location, t: Period): Option<bool>
  {
    if c == Electricity then Some(Supplied(x, c, l, t) <= ElectricitySupplyBound(s, p, x, l, t))
    else if c == Gas then Some(Supplied(x, c, l, t) <= Get(p.amountGiven, (c, l, t)))
    else if c == Heat then Some(Supplied(x, c, l, t) == 0.0)
    else None
  }

  /** Flow in both directions of a corridor is bounded by its capacity. */
  predicate MaxFlowRule(s: Sets, p: Params, x: Assignment, c: Label, a: Location, b: Location, t: Period)
  {
    Flow(x, c, a, b, t) + Flow(x, c, b, a, t) <= LineCapacity(s, p, x, c, a, b, t)
  }

  predicate MaxConvertedRule(s: Sets, p: Params, x: Assignment, c: Label, l: Location, v: Label, t: Period)
  {
    ConverterCapacity(s, p, x, c, l, v, t) >= Converted(x, c, v, l, t)
  }

  /** Inflow is bounded by the capacity headroom left by the decayed net stock. */
  predicate MaxAmountStoredInRule(s: Sets, p: Params, x: Assignment, c: Label, l: Location, t: Period)
  {
    StoredIn(x, c, l, t)
      <= StorageCapacity(s, p, x, c, l, t) - DecayedStoredIn(s, p, x, c, l, t) + PriorStoredOut(s, x, c, l, t)
  }

  /** Outflow is bounded by the decayed net stock. */
  predicate MaxAmountStoredOutRule(s: Sets, p: Params, x: Assignment, c: Label, l: Location, t: Period)
  {
    StoredOut(x, c, l, t) <= DecayedStoredIn(s, p, x, c, l, t) - PriorStoredOut(s, x, c, l, t)
  }

  predicate NoStorageRule(x: Assignment, c: Label, l: Location, t: Period)
  {
    StoredIn(x, c, l, t) == 0.0
  }

  /** A line investment off the edge list is forced to 0; on an edge only non-negativity is stated. */
  predicate NoFlowInvestmentRule(s: Sets, x: Assignment, c: Label, a: Location, b: Location, t: Period)
  {
    if (a, b) in s.edges then LineInvestment(x, c, a, b, t) >= 0 else LineInvestment(x, c, a, b, t) == 0
  }

  /** A flow off the arc list is forced to 0; on an arc only non-negativity is stated. */
  predicate NoAmountFlowRule(s: Sets, x: Assignment, c: Label, a: Location, b: Location, t: Period)
  {
    if (a, b) in s.arcs then Flow(x, c, a, b, t) >= 0.0 else Flow(x, c, a, b, t) == 0.0
  }

  // ---------------------------------------------------------------- investment caps

  /** A per-period cap on new investment blocks. */
  datatype InvestmentBound = ExactlyZero | AtMost(limit: nat)

  predicate Within(n: nat, b: InvestmentBound)
  {
    match b
    case ExactlyZero => n == 0
    case AtMost(k) => n <= k
  }

  /** The policy table for supply investments; the first matching row wins. */
  function SupplyInvestmentBound(st: Label, l: Location, t: Period): InvestmentBound
  {
    if st == Wind && (l == "Node_1" || l == "Node_5" || l == "Node_6") then ExactlyZero
    else if st == Wind && t == 2018 then AtMost(4)
    else if st == Solar && t == 2018 then AtMost(6)
    else if st == Wind && t == 2020 then AtMost(5)
    else if st == Solar && t == 2020 then AtMost(7)
    else if st == Wind then AtMost(5)
    else AtMost(8)
  }

  /** Line, converter and storage investments share one cap for every key. */
  const LineInvestmentCap: nat := 5
  const ConverterInvestmentCap: nat := 5
  const StorageInvestmentCap: nat := 5

  predicate MaxSupplyInvestmentRule(x: Assignment, st: Label, l: Location, t: Period)
  {
    Within(SupplyInvestment(x, st, l, t), SupplyInvestmentBound(st, l, t))
  }

  predicate MaxFlowInvestmentRule(x: Assignment, c: Label, a: Location, b: Location, t: Period)
  {
    LineInvestment(x, c, a, b, t) <= LineInvestmentCap
  }

  predicate MaxConverterInvestmentRule(x: Assignment, v: Label, l: Location, t: Period)
  {
    ConverterInvestment(x, v, l, t) <= ConverterInvestmentCap
  }

  predicate MaxStorageInvestmentRule(x: Assignment, c: Label, l: Location, t: Period)
  {
    StorageInvestment(x, c, l, t) <= StorageInvestmentCap
  }

  // ---------------------------------------------------------------- constraint families

  /** The constraint components, each one rule over its index domain. */
  datatype Family =
    | MassBalanceConstraint
    | MaxFlowConstraint
    | MaxConvertedConstraint
    | MaxSupplyConstraint
    | MaxFlowInvestmentMade
    | MaxSupplyInvestmentMade
    | MaxStorageInvestmentMade
    | MaxConverterInvestmentMade
    | NoFlowInvestmentMade
    | NoAmountFlow
    | MaxAmountStoredOut
    | MaxAmountStoredIn
    | NoStorage

  const WithStorageMode: string := "With"

  /** The components a mode installs, in installation order. */
  function InstalledFamilies(mode: string): seq<Family>
  {
    if mode == WithStorageMode then
      [MassBalanceConstraint, MaxFlowConstraint, MaxConvertedConstraint, MaxSupplyConstraint,
       MaxFlowInvestmentMade, MaxSupplyInvestmentMade, MaxStorageInvestmentMade,
       MaxConverterInvestmentMade, NoFlowInvestmentMade, NoAmountFlow,
       MaxAmountStoredOut, MaxAmountStoredIn]
    else
      [MassBalanceConstraint, MaxFlowConstraint, MaxConvertedConstraint, MaxSupplyConstraint,
       MaxFlowInvestmentMade, MaxSupplyInvestmentMade, MaxConverterInvestmentMade,
       NoFlowInvestmentMade, NoAmountFlow, NoStorage]
  }

  /** Every row of family f holds for x. */
  predicate FamilyHolds(f: Family, s: Sets, p: Params, x: Assignment)
  {
    match f
    case MassBalanceConstraint =>
      forall c, l, t | c in s.carriers && l in s.locations && t in s.periods :: BalanceRule(s, p, x, c, l, t)
    case MaxFlowConstraint =>
      forall c, e, t | c in s.carriers && e in s.edges && t in s.periods :: MaxFlowRule(s, p, x, c, e.0, e.1, t)
    case MaxConvertedConstraint =>
      forall c, l, v, t | c in s.carriers && l in s.locations && v in s.converters && t in s.periods ::
        MaxConvertedRule(s, p, x, c, l, v, t)
    case MaxSupplyConstraint =>
      forall c, l, t | c in s.carriers && l in s.locations && t in s.periods :: MaxSupplyRule(s, p, x, c, l, t) == Some(true)
    case MaxFlowInvestmentMade =>
      forall c, e, t | c in s.carriers && e in s.edges && t in s.periods :: MaxFlowInvestmentRule(x, c, e.0, e.1, t)
    case MaxSupplyInvestmentMade =>
      forall st, l, t | st in s.supplyTypes && l in s.locations && t in s.periods :: MaxSupplyInvestmentRule(x, st, l, t)
    case MaxStorageInvestmentMade =>
      forall c, l, t | c in s.carriers && l in s.locations && t in s.periods :: MaxStorageInvestmentRule(x, c, l, t)
    case MaxConverterInvestmentMade =>
      forall v, l, t | v in s.converters && l in s.locations && t in s.periods :: MaxConverterInvestmentRule(x, v, l, t)
    case NoFlowInvestmentMade =>
      forall c, a, b, t | c in s.carriers && a in s.locations && b in s.locations && t in s.periods ::
        NoFlowInvestmentRule(s, x, c, a, b, t)
    case NoAmountFlow =>
      forall c, a, b, t | c in s.carriers && a in s.locations && b in s.locations && t in s.periods ::
        NoAmountFlowRule(s, x, c, a, b, t)
    case MaxAmountStoredOut =>
      forall c, l, t | c in s.carriers && l in s.locations && t in s.periods :: MaxAmountStoredOutRule(s, p, x, c, l, t)
    case MaxAmountStoredIn =>
      forall c, l, t | c in s.carriers && l in s.locations && t in s.periods :: MaxAmountStoredInRule(s, p, x, c, l, t)
    case NoStorage =>
      forall c, l, t | c in s.carriers && l in s.locations && t in s.periods :: NoStorageRule(x, c, l, t)
  }

  /** x is a feasible point of the model made of the given families. */
  predicate Feasible(s: Sets, p: Params, families: seq<Family>, x: Assignment)
  {
    NonNegative(x) && forall f | f in families :: FamilyHolds(f, s, p, x)
  }

  /**
   * Whether every parameter entry the rows of family f read is defined, so that building the
   * family does not fail. Variables are always defined; the earlier-investment tables default to 0.
   */
  predicate Constructible(f: Family, s: Sets, p: Params)
  {
    match f
    case MassBalanceConstraint =>
      forall c, l, t | c in s.carriers && l in s.locations && t in s.periods ::
        && (c, l, t) in p.demand
        && c in p.lossFactor
        && forall c2, v | c2 in s.carriers && v in s.converters :: (c, c2, v) in p.conversionEfficiencies
    case MaxFlowConstraint =>
      |s.edges| > 0 && |s.periods| > 0 ==> forall c | c in s.carriers :: c in p.maxFlowLine
    case MaxConvertedConstraint =>
      |s.locations| > 0 && |s.periods| > 0 ==>
        forall c, v | c in s.carriers && v in s.converters :: (c, v) in p.maxConverted
    case MaxSupplyConstraint =>
      forall c, l, t | c in s.carriers && l in s.locations && t in s.periods ::
        && KnownCarrier(c)
        && (c == Electricity ==>
              forall st | st in s.supplyTypes :: (Electricity, st) in p.maxEnergySupplied && (st, l, t) in p.supplyExternalFactor)
        && (c == Gas ==> (Gas, l, t) in p.amountGiven)
    case MaxAmountStoredOut =>
      forall c, t, t2 | c in s.carriers && t in s.periods && t2 in s.periods && t2 < t ::
        |s.locations| > 0 ==> c in p.storageLosses
    case MaxAmountStoredIn =>
      && (forall c | c in s.carriers :: |s.locations| > 0 && |s.periods| > 0 ==> c in p.maxStorage)
      && (forall c, t, t2 | c in s.carriers && t in s.periods && t2 in s.periods && t2 < t ::
            |s.locations| > 0 ==> c in p.storageLosses)
    case _ => true
  }

  // ---------------------------------------------------------------- the objective

  /** Discounted cost of the line investments on edge e for carrier c in period t. */
  function NetworkEdgeTerm(p: Params, inv: map<(Label, Location, Location, Period), nat>, t: Period, c: Label): Pair -> real
  {
    (e: Pair) => Get(p.networkCosts, (c, e.0, e.1, t)) * GetNat(inv, (c, e.0, e.1, t)) as real
  }

  function NetworkCarrierTerm(s: Sets, p: Params, inv: map<(Label, Location, Location, Period), nat>, t: Period): Label -> real
  {
    c => Sum(s.edges, NetworkEdgeTerm(p, inv, t, c))
  }

  function NetworkPeriodTerm(s: Sets, p: Params, inv: map<(Label, Location, Location, Period), nat>): Period -> real
  {
    t => Sum(s.carriers, NetworkCarrierTerm(s, p, inv, t))
  }

  function SupplyTypeTerm(p: Params, inv: map<(Label, Location, Period), nat>, t: Period, l: Location): Label -> real
  {
    st => Get(p.supplyInvestmentCosts, (st, t)) * GetNat(inv, (st, l, t)) as real
  }

  function SupplyLocationTerm(s: Sets, p: Params, inv: map<(Label, Location, Period), nat>, t: Period): Location -> real
  {
    l => Sum(s.supplyTypes, SupplyTypeTerm(p, inv, t, l))
  }

  function SupplyPeriodTerm(s: Sets, p: Params, inv: map<(Label, Location, Period), nat>): Period -> real
  {
    t => Sum(s.locations, SupplyLocationTerm(s, p, inv, t))
  }

  function ConverterLocationTerm(p: Params, inv: map<(Label, Location, Period), nat>, t: Period, v: Label): Location -> real
  {
    l => Get(p.converterInvestmentCosts, (v, t)) * GetNat(inv, (v, l, t)) as real
  }

  function ConverterKindTerm(s: Sets, p: Params, inv: map<(Label, Location, Period), nat>, t: Period): Label -> real
  {
    v => Sum(s.locations, ConverterLocationTerm(p, inv, t, v))
  }

  function ConverterPeriodTerm(s: Sets, p: Params, inv: map<(Label, Location, Period), nat>): Period -> real
  {
    t => Sum(s.converters, ConverterKindTerm(s, p, inv, t))
  }

  function StorageCarrierTerm(p: Params, inv: map<(Label, Location, Period), nat>, t: Period, l: Location): Label -> real
  {
    c => GetNat(inv, (c, l, t)) as real * Get(p.storageCosts, (c, t))
  }

  function StorageLocationTerm(s: Sets, p: Params, inv: map<(Label, Location, Period), nat>, t: Period): Location -> real
  {
    l => Sum(s.carriers, StorageCarrierTerm(p, inv, t, l))
  }

  function StoragePeriodTerm(s: Sets, p: Params, inv: map<(Label, Location, Period), nat>): Period -> real
  {
    t => Sum(s.locations, StorageLocationTerm(s, p, inv, t))
  }

  /** Discounted line investment cost, summed over the edge list only. */
  function NetworkCosts(s: Sets, p: Params, x: Assignment): real
  {
    Sum(s.periods, NetworkPeriodTerm(s, p, x.lineInvestmentMade))
  }

  /** Discounted investment cost of x: lines on the edge list, supply, converters and storage. */
  function TotalCosts(s: Sets, p: Params, x: Assignment): real
  {
    NetworkCosts(s, p, x)
    + Sum(s.periods, SupplyPeriodTerm(s, p, x.supplyInvestmentMade))
    + Sum(s.periods, ConverterPeriodTerm(s, p, x.converterInvestmentMade))
    + Sum(s.periods, StoragePeriodTerm(s, p, x.storageInvestmentMade))
  }

  /** Every cost entry the objective reads is defined. */
  predicate ObjectiveReadable(s: Sets, p: Params)
  {
    && (forall c, e, t | c in s.carriers && e in s.edges && t in s.periods :: (c, e.0, e.1, t) in p.networkCosts)
    && (forall st, t | st in s.supplyTypes && t in s.periods :: |s.locations| > 0 ==> (st, t) in p.supplyInvestmentCosts)
    && (forall v, t | v in s.converters && t in s.periods :: |s.locations| > 0 ==> (v, t) in p.converterInvestmentCosts)
    && (forall c, t | c in s.carriers && t in s.periods :: |s.locations| > 0 ==> (c, t) in p.storageCosts)
  }
}
