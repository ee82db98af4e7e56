/**
 * Properties of the formulation: which families each mode installs, what the topology masks
 * force, the carrier supply policy, the investment caps, monotonicity of the capacities over
 * periods, the storage recursion, and what the objective depends on.
 */
module RuleProperties {
  import opened Common
  import opened Sums
  import opened Discounting
  import opened ConstructionRules

  // ---------------------------------------------------------------- mode selection

  /** The families that bound storage, or forbid it. */
  predicate StorageFamily(f: Family)
  {
    f == MaxStorageInvestmentMade || f == MaxAmountStoredOut || f == MaxAmountStoredIn || f == NoStorage
  }

  /**
   * "With" installs the storage bounds and the storage investment cap but not NoStorage; any other
   * mode string installs NoStorage and none of the three. Both install the same other families.
   */
  lemma ModeSelection(mode: string)
    ensures mode == WithStorageMode ==>
      && MaxAmountStoredIn in InstalledFamilies(mode)
      && MaxAmountStoredOut in InstalledFamilies(mode)
      && MaxStorageInvestmentMade in InstalledFamilies(mode)
      && NoStorage !in InstalledFamilies(mode)
      && |InstalledFamilies(mode)| == 12
    ensures mode != WithStorageMode ==>
      && NoStorage in InstalledFamilies(mode)
      && MaxAmountStoredIn !in InstalledFamilies(mode)
      && MaxAmountStoredOut !in InstalledFamilies(mode)
      && MaxStorageInvestmentMade !in InstalledFamilies(mode)
      && |InstalledFamilies(mode)| == 10
    ensures forall f: Family | !StorageFamily(f) ::
      f in InstalledFamilies(mode) <==> f in InstalledFamilies(WithStorageMode)
    ensures Distinct(InstalledFamilies(mode))
  {
  }

  // ---------------------------------------------------------------- topology masks

  /** The edge mask only speaks off the edge list: it holds exactly when the pair is an edge or nothing is bought. */
  lemma NoFlowInvestmentRuleMeaning(s: Sets, x: Assignment, c: Label, a: Location, b: Location, t: Period)
    ensures NoFlowInvestmentRule(s, x, c, a, b, t) <==> ((a, b) in s.edges || LineInvestment(x, c, a, b, t) == 0)
  {
  }

  /** The arc mask holds exactly when the pair is an arc or nothing flows, given non-negative flows. */
  lemma NoAmountFlowRuleMeaning(s: Sets, x: Assignment, c: Label, a: Location, b: Location, t: Period)
    requires NonNegative(x)
    ensures NoAmountFlowRule(s, x, c, a, b, t) <==> ((a, b) in s.arcs || Flow(x, c, a, b, t) == 0.0)
  {
  }

  /** In either mode, a feasible point buys no line off the edge list and sends no flow off the arc list. */
  lemma TopologyMasking(s: Sets, p: Params, mode: string, x: Assignment, c: Label, a: Location, b: Location, t: Period)
    requires Feasible(s, p, InstalledFamilies(mode), x)
    requires c in s.carriers && a in s.locations && b in s.locations && t in s.periods
    ensures (a, b) !in s.edges ==> LineInvestment(x, c, a, b, t) == 0
    ensures (a, b) !in s.arcs ==> Flow(x, c, a, b, t) == 0.0
  {
    assert NoFlowInvestmentMade in InstalledFamilies(mode);
    assert NoAmountFlow in InstalledFamilies(mode);
    assert FamilyHolds(NoFlowInvestmentMade, s, p, x);
    assert FamilyHolds(NoAmountFlow, s, p, x);
    assert NoFlowInvestmentRule(s, x, c, a, b, t);
    assert NoAmountFlowRule(s, x, c, a, b, t);
  }

  // ---------------------------------------------------------------- mass balance

  /** Only flows on arcs enter the balance: two flow tables that agree on the arcs give the same inflow and outflow. */
  lemma BalanceIgnoresFlowsOffArcs(s: Sets, x: Assignment, y: Assignment, c: Label, l: Location, t: Period)
    requires forall a, b | (a, b) in s.arcs :: Flow(x, c, a, b, t) == Flow(y, c, a, b, t)
    ensures Inflow(s, x, c, l, t) == Inflow(s, y, c, l, t)
    ensures Outflow(s, x, c, l, t) == Outflow(s, y, c, l, t)
  {
    SumCongruent(s.locations, InflowTerm(s, x.amountFlow, c, l, t), InflowTerm(s, y.amountFlow, c, l, t));
    SumCongruent(s.locations, OutflowTerm(s, x.amountFlow, c, l, t), OutflowTerm(s, y.amountFlow, c, l, t));
  }

  /** The balance is an inequality: supplying more than a feasible amount stays balanced. */
  lemma BalanceAllowsOverSupply(s: Sets, p: Params, x: Assignment, c: Label, l: Location, t: Period, extra: real)
    requires BalanceRule(s, p, x, c, l, t) && extra >= 0.0
    ensures BalanceRule(s, p, x.(amountSupplied := x.amountSupplied[(c, l, t) := Supplied(x, c, l, t) + extra]), c, l, t)
  {
  }

  // ---------------------------------------------------------------- supply policy

  /**
   * A feasible point only uses the three known carriers; Heat is never supplied, Gas supply stays
   * within the given amount, and Electricity supply within the installed bound.
   */
  lemma SupplyPolicy(s: Sets, p: Params, mode: string, x: Assignment, c: Label, l: Location, t: Period)
    requires Feasible(s, p, InstalledFamilies(mode), x)
    requires c in s.carriers && l in s.locations && t in s.periods
    ensures KnownCarrier(c)
    ensures c == Heat ==> Supplied(x, c, l, t) == 0.0
    ensures c == Gas ==> Supplied(x, c, l, t) <= Get(p.amountGiven, (Gas, l, t))
    ensures c == Electricity ==> Supplied(x, c, l, t) <= ElectricitySupplyBound(s, p, x, l, t)
  {
    assert MaxSupplyConstraint in InstalledFamilies(mode);
    assert FamilyHolds(MaxSupplyConstraint, s, p, x);
    assert MaxSupplyRule(s, p, x, c, l, t) == Some(true);
  }

  /** A carrier outside Electricity, Gas and Heat has no supply rule, so no point is feasible with it. */
  lemma UnknownCarrierInfeasible(s: Sets, p: Params, mode: string, x: Assignment, c: Label)
    requires c in s.carriers && |s.locations| > 0 && |s.periods| > 0 && !KnownCarrier(c)
    ensures !Feasible(s, p, InstalledFamilies(mode), x)
  {
    var l, t := s.locations[0], s.periods[0];
    assert MaxSupplyRule(s, p, x, c, l, t) == None;
    assert MaxSupplyConstraint in InstalledFamilies(mode);
  }

  /** Electricity capacity bought at t2 for supply type st, without the availability factor. */
  function InstalledTypeCapacity(p: Params, inv: map<(Label, Location, Period), nat>, l: Location, t2: Period): Label -> real
  {
    st => GetNat(inv, (st, l, t2)) as real * Get(p.maxEnergySupplied, (Electricity, st))
  }

  function InstalledSupplySeries(s: Sets, p: Params, inv: map<(Label, Location, Period), nat>, l: Location): Period -> real
  {
    t2 => Sum(s.supplyTypes, InstalledTypeCapacity(p, inv, l, t2))
  }

  /** Electricity capacity installed at l through period t, plus the brownfield capacity. */
  function InstalledSupplyCapacity(s: Sets, p: Params, x: Assignment, l: Location, t: Period): real
  {
    Cumulative(s.periods, t, InstalledSupplySeries(s, p, x.supplyInvestmentMade, l)) + Sum(s.supplyTypes, BrownfieldSupplyTerm(p, l))
  }

  /** Availability factors in [0, 1] can only lower the Electricity bound below the installed capacity. */
  lemma AvailabilityLowersElectricityBound(s: Sets, p: Params, x: Assignment, l: Location, t: Period)
    requires forall st | st in s.supplyTypes ::
      && 0.0 <= Get(p.supplyExternalFactor, (st, l, t)) <= 1.0
      && Get(p.maxEnergySupplied, (Electricity, st)) >= 0.0
    ensures ElectricitySupplyBound(s, p, x, l, t) <= InstalledSupplyCapacity(s, p, x, l, t)
  {
    var inv := x.supplyInvestmentMade;
    forall t2 | t2 in s.periods
      ensures UpTo(t, NewSupplySeries(s, p, inv, l, t))(t2) <= UpTo(t, InstalledSupplySeries(s, p, inv, l))(t2)
    {
      forall st | st in s.supplyTypes
        ensures SupplyTypeCapacity(p, inv, l, t, t2)(st) <= InstalledTypeCapacity(p, inv, l, t2)(st)
      {
        var a := GetNat(inv, (st, l, t2)) as real * Get(p.maxEnergySupplied, (Electricity, st));
        MulMonotone(GetNat(inv, (st, l, t2)) as real, 0.0, Get(p.maxEnergySupplied, (Electricity, st)));
        MulMonotone(a, Get(p.supplyExternalFactor, (st, l, t)), 1.0);
        assert SupplyTypeCapacity(p, inv, l, t, t2)(st) == a * Get(p.supplyExternalFactor, (st, l, t));
        assert InstalledTypeCapacity(p, inv, l, t2)(st) == a * 1.0;
      }
      SumMonotone(s.supplyTypes, SupplyTypeCapacity(p, inv, l, t, t2), InstalledTypeCapacity(p, inv, l, t2));
    }
    SumMonotone(s.periods, UpTo(t, NewSupplySeries(s, p, inv, l, t)), UpTo(t, InstalledSupplySeries(s, p, inv, l)));
  }

  /** Under availability factors in [0, 1], feasible Electricity supply never exceeds the installed capacity. */
  lemma ElectricitySupplyWithinCapacity(s: Sets, p: Params, mode: string, x: Assignment, l: Location, t: Period)
    requires Feasible(s, p, InstalledFamilies(mode), x)
    requires Electricity in s.carriers && l in s.locations && t in s.periods
    requires forall st | st in s.supplyTypes ::
      && 0.0 <= Get(p.supplyExternalFactor, (st, l, t)) <= 1.0
      && Get(p.maxEnergySupplied, (Electricity, st)) >= 0.0
    ensures Supplied(x, Electricity, l, t) <= InstalledSupplyCapacity(s, p, x, l, t)
  {
    SupplyPolicy(s, p, mode, x, Electricity, l, t);
    AvailabilityLowersElectricityBound(s, p, x, l, t);
  }

  // ---------------------------------------------------------------- investment caps

  /** The supply investment caps of a feasible point, row by row of the policy table. */
  lemma SupplyInvestmentCaps(s: Sets, p: Params, mode: string, x: Assignment, st: Label, l: Location, t: Period)
    requires Feasible(s, p, InstalledFamilies(mode), x)
    requires st in s.supplyTypes && l in s.locations && t in s.periods
    ensures st == Wind && (l == "Node_1" || l == "Node_5" || l == "Node_6") ==> SupplyInvestment(x, st, l, t) == 0
    ensures st == Wind && t == 2018 ==> SupplyInvestment(x, st, l, t) <= 4
    ensures st == Solar && t == 2018 ==> SupplyInvestment(x, st, l, t) <= 6
    ensures st == Wind && t == 2020 ==> SupplyInvestment(x, st, l, t) <= 5
    ensures st == Solar && t == 2020 ==> SupplyInvestment(x, st, l, t) <= 7
    ensures st == Wind ==> SupplyInvestment(x, st, l, t) <= 5
    ensures SupplyInvestment(x, st, l, t) <= 8
  {
    assert MaxSupplyInvestmentMade in InstalledFamilies(mode);
    assert FamilyHolds(MaxSupplyInvestmentMade, s, p, x);
    assert MaxSupplyInvestmentRule(x, st, l, t);
  }

  /** Line and converter investments are capped at 5 in both modes; storage investments only in "With". */
  lemma InvestmentCaps(s: Sets, p: Params, mode: string, x: Assignment, c: Label, v: Label, l: Location, t: Period)
    requires Feasible(s, p, InstalledFamilies(mode), x)
    requires c in s.carriers && v in s.converters && l in s.locations && t in s.periods
    ensures forall e | e in s.edges :: LineInvestment(x, c, e.0, e.1, t) <= LineInvestmentCap
    ensures ConverterInvestment(x, v, l, t) <= ConverterInvestmentCap
    ensures mode == WithStorageMode ==> StorageInvestment(x, c, l, t) <= StorageInvestmentCap
  {
    assert MaxFlowInvestmentMade in InstalledFamilies(mode);
    assert MaxConverterInvestmentMade in InstalledFamilies(mode);
    assert FamilyHolds(MaxFlowInvestmentMade, s, p, x);
    assert FamilyHolds(MaxConverterInvestmentMade, s, p, x);
    assert MaxConverterInvestmentRule(x, v, l, t);
    if mode == WithStorageMode {
      assert MaxStorageInvestmentMade in InstalledFamilies(mode);
      assert FamilyHolds(MaxStorageInvestmentMade, s, p, x);
      assert MaxStorageInvestmentRule(x, c, l, t);
    }
  }

  /** Every line investment of a feasible point, on or off the edge list, is at most the cap. */
  lemma LineInvestmentBounded(s: Sets, p: Params, mode: string, x: Assignment, c: Label, a: Location, b: Location, t: Period)
    requires Feasible(s, p, InstalledFamilies(mode), x)
    requires c in s.carriers && a in s.locations && b in s.locations && t in s.periods
    ensures LineInvestment(x, c, a, b, t) <= LineInvestmentCap
  {
    TopologyMasking(s, p, mode, x, c, a, b, t);
    if (a, b) in s.edges {
      assert MaxFlowInvestmentMade in InstalledFamilies(mode);
      assert FamilyHolds(MaxFlowInvestmentMade, s, p, x);
      var e := (a, b);
      assert MaxFlowInvestmentRule(x, c, e.0, e.1, t);
    }
  }

  // ---------------------------------------------------------------- capacities over time

  /** A cumulative sum of non-negative terms does not decrease as the period grows. */
  lemma CumulativeMonotone(periods: seq<Period>, f: Period -> real, t: Period, u: Period)
    requires forall t2 | t2 in periods :: f(t2) >= 0.0
    requires t <= u
    ensures Cumulative(periods, t, f) <= Cumulative(periods, u, f)
  {
    forall t2 | t2 in periods
      ensures UpTo(t, f)(t2) <= UpTo(u, f)(t2)
    {
    }
    SumMonotone(periods, UpTo(t, f), UpTo(u, f));
  }

  /** The capacity of a corridor does not shrink over time. */
  lemma LineCapacityMonotone(s: Sets, p: Params, x: Assignment, c: Label, a: Location, b: Location, t: Period, u: Period)
    requires t <= u && Get(p.maxFlowLine, c) >= 0.0
    ensures LineCapacity(s, p, x, c, a, b, t) <= LineCapacity(s, p, x, c, a, b, u)
  {
    var f := LineSeries(x.lineInvestmentMade, c, a, b);
    var e := EarlierAt(p.earlierLineInvestmentMade, (c, a, b));
    CumulativeMonotone(s.periods, f, t, u);
    MulMonotone(Get(p.maxFlowLine, c), Cumulative(s.periods, t, f) + e, Cumulative(s.periods, u, f) + e);
  }

  /** The capacity of a converter does not shrink over time. */
  lemma ConverterCapacityMonotone(s: Sets, p: Params, x: Assignment, c: Label, l: Location, v: Label, t: Period, u: Period)
    requires t <= u && Get(p.maxConverted, (c, v)) >= 0.0
    ensures ConverterCapacity(s, p, x, c, l, v, t) <= ConverterCapacity(s, p, x, c, l, v, u)
  {
    var f := ConverterSeries(x.converterInvestmentMade, v, l);
    var e := EarlierAt(p.earlierConverterInvestmentMade, (v, l));
    CumulativeMonotone(s.periods, f, t, u);
    MulMonotone(Get(p.maxConverted, (c, v)), Cumulative(s.periods, t, f) + e, Cumulative(s.periods, u, f) + e);
  }

  /** The storage capacity does not shrink over time. */
  lemma StorageCapacityMonotone(s: Sets, p: Params, x: Assignment, c: Label, l: Location, t: Period, u: Period)
    requires t <= u && Get(p.maxStorage, c) >= 0.0
    ensures StorageCapacity(s, p, x, c, l, t) <= StorageCapacity(s, p, x, c, l, u)
  {
    var f := StorageCapacitySeries(p, x.storageInvestmentMade, c, l);
    forall t2 | t2 in s.periods
      ensures f(t2) >= 0.0
    {
      MulMonotone(Get(p.maxStorage, c), 0.0, GetNat(x.storageInvestmentMade, (c, l, t2)) as real);
    }
    CumulativeMonotone(s.periods, f, t, u);
  }

  // ---------------------------------------------------------------- storage

  /** In any mode other than "With", a feasible point never puts anything into storage. */
  lemma WithoutStorageNoStoredIn(s: Sets, p: Params, mode: string, x: Assignment, c: Label, l: Location, t: Period)
    requires mode != WithStorageMode
    requires Feasible(s, p, InstalledFamilies(mode), x)
    requires c in s.carriers && l in s.locations && t in s.periods
    ensures StoredIn(x, c, l, t) == 0.0
  {
    assert NoStorage in InstalledFamilies(mode);
    assert FamilyHolds(NoStorage, s, p, x);
    assert NoStorageRule(x, c, l, t);
  }

  /** x with the storage outflow at (c, l, t) raised by extra. */
  function WithMoreStoredOut(x: Assignment, c: Label, l: Location, t: Period, extra: real): Assignment
  {
    x.(amountStoredOut := x.amountStoredOut[(c, l, t) := StoredOut(x, c, l, t) + extra])
  }

  /** A balance row only gains from more storage outflow when every other term is unchanged. */
  lemma BalanceRowKept(s: Sets, p: Params, x: Assignment, y: Assignment, c: Label, l: Location, t: Period)
    requires BalanceRule(s, p, x, c, l, t)
    requires y.amountFlow == x.amountFlow && y.amountConverted == x.amountConverted
    requires Supplied(y, c, l, t) == Supplied(x, c, l, t) && StoredIn(y, c, l, t) == StoredIn(x, c, l, t)
    requires StoredOut(x, c, l, t) <= StoredOut(y, c, l, t)
    ensures BalanceRule(s, p, y, c, l, t)
  {
    var lossy := (1.0 - Get(p.lossFactor, c)) * Inflow(s, x, c, l, t);
    assert Inflow(s, y, c, l, t) == Inflow(s, x, c, l, t);
    assert (1.0 - Get(p.lossFactor, c)) * Inflow(s, y, c, l, t) == lossy;
    assert ConvertedInto(s, p, y, c, l, t) == ConvertedInto(s, p, x, c, l, t);
  }

  /** Raising one storage outflow changes no other table and lowers no outflow. */
  lemma WithMoreStoredOutFrame(x: Assignment, c: Label, l: Location, t: Period, extra: real, c2: Label, l2: Location, t2: Period)
    requires extra >= 0.0
    ensures WithMoreStoredOut(x, c, l, t, extra).amountFlow == x.amountFlow
    ensures WithMoreStoredOut(x, c, l, t, extra).amountConverted == x.amountConverted
    ensures WithMoreStoredOut(x, c, l, t, extra).amountSupplied == x.amountSupplied
    ensures WithMoreStoredOut(x, c, l, t, extra).amountStoredIn == x.amountStoredIn
    ensures StoredOut(x, c2, l2, t2) <= StoredOut(WithMoreStoredOut(x, c, l, t, extra), c2, l2, t2)
  {
  }

  lemma MoreStoredOutKeepsBalance(s: Sets, p: Params, x: Assignment, c: Label, l: Location, t: Period, extra: real)
    requires FamilyHolds(MassBalanceConstraint, s, p, x) && extra >= 0.0
    ensures FamilyHolds(MassBalanceConstraint, s, p, WithMoreStoredOut(x, c, l, t, extra))
  {
    var y := WithMoreStoredOut(x, c, l, t, extra);
    forall c2, l2, t2 | c2 in s.carriers && l2 in s.locations && t2 in s.periods
      ensures BalanceRule(s, p, y, c2, l2, t2)
    {
      WithMoreStoredOutFrame(x, c, l, t, extra, c2, l2, t2);
      BalanceRowKept(s, p, x, y, c2, l2, t2);
    }
  }

  lemma MoreStoredOutKeepsFlowBound(s: Sets, p: Params, x: Assignment, c: Label, l: Location, t: Period, extra: real)
    requires FamilyHolds(MaxFlowConstraint, s, p, x)
    ensures FamilyHolds(MaxFlowConstraint, s, p, WithMoreStoredOut(x, c, l, t, extra))
  {
    var y := WithMoreStoredOut(x, c, l, t, extra);
    assert y.amountFlow == x.amountFlow && y.lineInvestmentMade == x.lineInvestmentMade;
    forall c2, e, t2 | c2 in s.carriers && e in s.edges && t2 in s.periods
      ensures MaxFlowRule(s, p, y, c2, e.0, e.1, t2)
    {
      assert MaxFlowRule(s, p, x, c2, e.0, e.1, t2);
      assert LineCapacity(s, p, y, c2, e.0, e.1, t2) == LineCapacity(s, p, x, c2, e.0, e.1, t2);
    }
  }

  lemma MoreStoredOutKeepsConverterBound(s: Sets, p: Params, x: Assignment, c: Label, l: Location, t: Period, extra: real)
    requires FamilyHolds(MaxConvertedConstraint, s, p, x)
    ensures FamilyHolds(MaxConvertedConstraint, s, p, WithMoreStoredOut(x, c, l, t, extra))
  {
    var y := WithMoreStoredOut(x, c, l, t, extra);
    assert y.amountConverted == x.amountConverted && y.converterInvestmentMade == x.converterInvestmentMade;
    forall c2, l2, v, t2 | c2 in s.carriers && l2 in s.locations && v in s.converters && t2 in s.periods
      ensures MaxConvertedRule(s, p, y, c2, l2, v, t2)
    {
      assert MaxConvertedRule(s, p, x, c2, l2, v, t2);
      assert ConverterCapacity(s, p, y, c2, l2, v, t2) == ConverterCapacity(s, p, x, c2, l2, v, t2);
    }
  }

  lemma MoreStoredOutKeepsSupplyBound(s: Sets, p: Params, x: Assignment, c: Label, l: Location, t: Period, extra: real)
    requires FamilyHolds(MaxSupplyConstraint, s, p, x)
    ensures FamilyHolds(MaxSupplyConstraint, s, p, WithMoreStoredOut(x, c, l, t, extra))
  {
    var y := WithMoreStoredOut(x, c, l, t, extra);
    forall c2, l2, t2 | c2 in s.carriers && l2 in s.locations && t2 in s.periods
      ensures MaxSupplyRule(s, p, y, c2, l2, t2) == Some(true)
    {
      assert MaxSupplyRule(s, p, x, c2, l2, t2) == Some(true);
      assert ElectricitySupplyBound(s, p, y, l2, t2) == ElectricitySupplyBound(s, p, x, l2, t2);
    }
  }

  /** Raising a storage outflow keeps every row of a family that does not bound storage. */
  lemma MoreStoredOutKeepsFamily(s: Sets, p: Params, f: Family, x: Assignment, c: Label, l: Location, t: Period, extra: real)
    requires f != MaxAmountStoredOut && f != MaxAmountStoredIn
    requires FamilyHolds(f, s, p, x) && extra >= 0.0
    ensures FamilyHolds(f, s, p, WithMoreStoredOut(x, c, l, t, extra))
  {
    match f
    case MassBalanceConstraint => MoreStoredOutKeepsBalance(s, p, x, c, l, t, extra);
    case MaxFlowConstraint => MoreStoredOutKeepsFlowBound(s, p, x, c, l, t, extra);
    case MaxConvertedConstraint => MoreStoredOutKeepsConverterBound(s, p, x, c, l, t, extra);
    case MaxSupplyConstraint => MoreStoredOutKeepsSupplyBound(s, p, x, c, l, t, extra);
    case _ =>
  }

  /**
   * Outside "With" mode only the inflow into storage is fixed at 0; the outflow is bounded only
   * from below, so raising it anywhere keeps a feasible point feasible.
   */
  lemma WithoutStorageOutflowUnbounded(s: Sets, p: Params, mode: string, x: Assignment, c: Label, l: Location, t: Period, extra: real)
    requires mode != WithStorageMode
    requires Feasible(s, p, InstalledFamilies(mode), x)
    requires extra >= 0.0
    ensures Feasible(s, p, InstalledFamilies(mode), WithMoreStoredOut(x, c, l, t, extra))
    ensures StoredOut(WithMoreStoredOut(x, c, l, t, extra), c, l, t) == StoredOut(x, c, l, t) + extra
  {
    var y := WithMoreStoredOut(x, c, l, t, extra);
    forall f | f in InstalledFamilies(mode)
      ensures FamilyHolds(f, s, p, y)
    {
      MoreStoredOutKeepsFamily(s, p, f, x, c, l, t, extra);
    }
    assert NonNegative(y);
  }

  /** The smallest period of a non-empty list. */
  function Earliest(periods: seq<Period>): (m: Period)
    requires |periods| > 0
    ensures m in periods
    ensures forall t | t in periods :: m <= t
  {
    if |periods| == 1 then periods[0]
    else
      var rest := Earliest(periods[1..]);
      assert forall t | t in periods :: t == periods[0] || t in periods[1..];
      if periods[0] <= rest then periods[0] else rest
  }

  /**
   * With no storage investment at (c, l), the storage bounds force every inflow and outflow at
   * (c, l) to zero, by induction over the periods from the earliest one lo.
   */
  lemma {:induction false} NoStorageFlowsFrom(s: Sets, p: Params, x: Assignment, c: Label, l: Location, t: Period, lo: Period)
    requires NonNegative(x)
    requires forall t2 | t2 in s.periods :: StorageInvestment(x, c, l, t2) == 0
    requires forall t2 | t2 in s.periods :: MaxAmountStoredInRule(s, p, x, c, l, t2) && MaxAmountStoredOutRule(s, p, x, c, l, t2)
    requires forall t2 | t2 in s.periods :: lo <= t2
    requires t in s.periods
    ensures StoredIn(x, c, l, t) == 0.0 && StoredOut(x, c, l, t) == 0.0
    decreases t - lo
  {
    forall t2 | t2 in s.periods && t2 < t
      ensures StoredIn(x, c, l, t2) == 0.0 && StoredOut(x, c, l, t2) == 0.0
    {
      NoStorageFlowsFrom(s, p, x, c, l, t2, lo);
    }
    SumZero(s.periods, DecayedInflowTerm(p, x.amountStoredIn, c, l, t));
    SumZero(s.periods, Before(t, StoredOutSeries(x.amountStoredOut, c, l)));
    SumZero(s.periods, UpTo(t, StorageCapacitySeries(p, x.storageInvestmentMade, c, l)));
    assert MaxAmountStoredInRule(s, p, x, c, l, t);
    assert MaxAmountStoredOutRule(s, p, x, c, l, t);
  }

  /** In "With" mode, a node with no storage investment for a carrier stores nothing and releases nothing. */
  lemma ZeroStorageInvestmentNoStorageFlows(s: Sets, p: Params, x: Assignment, c: Label, l: Location)
    requires Feasible(s, p, InstalledFamilies(WithStorageMode), x)
    requires c in s.carriers && l in s.locations
    requires forall t | t in s.periods :: StorageInvestment(x, c, l, t) == 0
    ensures forall t | t in s.periods :: StoredIn(x, c, l, t) == 0.0 && StoredOut(x, c, l, t) == 0.0
  {
    assert MaxAmountStoredIn in InstalledFamilies(WithStorageMode);
    assert MaxAmountStoredOut in InstalledFamilies(WithStorageMode);
    assert FamilyHolds(MaxAmountStoredIn, s, p, x) && FamilyHolds(MaxAmountStoredOut, s, p, x);
    forall t | t in s.periods
      ensures StoredIn(x, c, l, t) == 0.0 && StoredOut(x, c, l, t) == 0.0
    {
      NoStorageFlowsFrom(s, p, x, c, l, t, Earliest(s.periods));
    }
  }

  /**
   * In "With" mode, what is taken out in period t never exceeds the decayed inflow before t, and
   * what passes through storage in period t, in and out together, never exceeds the installed
   * storage capacity.
   */
  lemma StoredOutWithinStock(s: Sets, p: Params, x: Assignment, c: Label, l: Location, t: Period)
    requires Feasible(s, p, InstalledFamilies(WithStorageMode), x)
    requires c in s.carriers && l in s.locations && t in s.periods
    ensures StoredOut(x, c, l, t) <= DecayedStoredIn(s, p, x, c, l, t)
    ensures StoredIn(x, c, l, t) + StoredOut(x, c, l, t) <= StorageCapacity(s, p, x, c, l, t)
  {
    assert MaxAmountStoredIn in InstalledFamilies(WithStorageMode);
    assert MaxAmountStoredOut in InstalledFamilies(WithStorageMode);
    assert FamilyHolds(MaxAmountStoredIn, s, p, x) && FamilyHolds(MaxAmountStoredOut, s, p, x);
    assert MaxAmountStoredInRule(s, p, x, c, l, t) && MaxAmountStoredOutRule(s, p, x, c, l, t);
    var series := StoredOutSeries(x.amountStoredOut, c, l);
    forall t2 | t2 in s.periods
      ensures Before(t, series)(t2) >= 0.0
    {
      var k := (c, l, t2);
      if k in x.amountStoredOut {
        assert x.amountStoredOut[k] >= 0.0;
      }
    }
    SumNonNegative(s.periods, Before(t, series));
  }

  // ---------------------------------------------------------------- objective

  /**
   * The objective only reads investments, and line investments only on the edge list: two points
   * that agree there cost the same, whatever their operation and off-edge values.
   */
  lemma ObjectiveReadsOnlyEdgeInvestments(s: Sets, p: Params, x: Assignment, y: Assignment)
    requires forall c, e, t | e in s.edges :: LineInvestment(x, c, e.0, e.1, t) == LineInvestment(y, c, e.0, e.1, t)
    requires x.supplyInvestmentMade == y.supplyInvestmentMade
    requires x.converterInvestmentMade == y.converterInvestmentMade
    requires x.storageInvestmentMade == y.storageInvestmentMade
    ensures TotalCosts(s, p, x) == TotalCosts(s, p, y)
  {
    var ix, iy := x.lineInvestmentMade, y.lineInvestmentMade;
    forall t | t in s.periods
      ensures NetworkPeriodTerm(s, p, ix)(t) == NetworkPeriodTerm(s, p, iy)(t)
    {
      forall c | c in s.carriers
        ensures NetworkCarrierTerm(s, p, ix, t)(c) == NetworkCarrierTerm(s, p, iy, t)(c)
      {
        forall e | e in s.edges
          ensures NetworkEdgeTerm(p, ix, t, c)(e) == NetworkEdgeTerm(p, iy, t, c)(e)
        {
          assert LineInvestment(x, c, e.0, e.1, t) == LineInvestment(y, c, e.0, e.1, t);
        }
        SumCongruent(s.edges, NetworkEdgeTerm(p, ix, t, c), NetworkEdgeTerm(p, iy, t, c));
      }
      SumCongruent(s.carriers, NetworkCarrierTerm(s, p, ix, t), NetworkCarrierTerm(s, p, iy, t));
    }
    SumCongruent(s.periods, NetworkPeriodTerm(s, p, ix), NetworkPeriodTerm(s, p, iy));
  }

  /** All cost entries the objective reads are non-negative. */
  predicate NonNegativeCosts(s: Sets, p: Params)
  {
    && (forall c, e, t | c in s.carriers && e in s.edges && t in s.periods :: Get(p.networkCosts, (c, e.0, e.1, t)) >= 0.0)
    && (forall st, t | st in s.supplyTypes && t in s.periods :: Get(p.supplyInvestmentCosts, (st, t)) >= 0.0)
    && (forall v, t | v in s.converters && t in s.periods :: Get(p.converterInvestmentCosts, (v, t)) >= 0.0)
    && (forall c, t | c in s.carriers && t in s.periods :: Get(p.storageCosts, (c, t)) >= 0.0)
  }

  lemma NetworkCostsNonNegative(s: Sets, p: Params, inv: map<(Label, Location, Location, Period), nat>)
    requires NonNegativeCosts(s, p)
    ensures Sum(s.periods, NetworkPeriodTerm(s, p, inv)) >= 0.0
  {
    forall t | t in s.periods
      ensures NetworkPeriodTerm(s, p, inv)(t) >= 0.0
    {
      forall c | c in s.carriers
        ensures NetworkCarrierTerm(s, p, inv, t)(c) >= 0.0
      {
        forall e | e in s.edges
          ensures NetworkEdgeTerm(p, inv, t, c)(e) >= 0.0
        {
          MulMonotone(Get(p.networkCosts, (c, e.0, e.1, t)), 0.0, GetNat(inv, (c, e.0, e.1, t)) as real);
        }
        SumNonNegative(s.edges, NetworkEdgeTerm(p, inv, t, c));
      }
      SumNonNegative(s.carriers, NetworkCarrierTerm(s, p, inv, t));
    }
    SumNonNegative(s.periods, NetworkPeriodTerm(s, p, inv));
  }

  lemma SupplyCostsNonNegative(s: Sets, p: Params, inv: map<(Label, Location, Period), nat>)
    requires NonNegativeCosts(s, p)
    ensures Sum(s.periods, SupplyPeriodTerm(s, p, inv)) >= 0.0
  {
    forall t | t in s.periods
      ensures SupplyPeriodTerm(s, p, inv)(t) >= 0.0
    {
      forall l | l in s.locations
        ensures SupplyLocationTerm(s, p, inv, t)(l) >= 0.0
      {
        forall st | st in s.supplyTypes
          ensures SupplyTypeTerm(p, inv, t, l)(st) >= 0.0
        {
          MulMonotone(Get(p.supplyInvestmentCosts, (st, t)), 0.0, GetNat(inv, (st, l, t)) as real);
        }
        SumNonNegative(s.supplyTypes, SupplyTypeTerm(p, inv, t, l));
      }
      SumNonNegative(s.locations, SupplyLocationTerm(s, p, inv, t));
    }
    SumNonNegative(s.periods, SupplyPeriodTerm(s, p, inv));
  }

  lemma ConverterCostsNonNegative(s: Sets, p: Params, inv: map<(Label, Location, Period), nat>)
    requires NonNegativeCosts(s, p)
    ensures Sum(s.periods, ConverterPeriodTerm(s, p, inv)) >= 0.0
  {
    forall t | t in s.periods
      ensures ConverterPeriodTerm(s, p, inv)(t) >= 0.0
    {
      forall v | v in s.converters
        ensures ConverterKindTerm(s, p, inv, t)(v) >= 0.0
      {
        forall l | l in s.locations
          ensures ConverterLocationTerm(p, inv, t, v)(l) >= 0.0
        {
          MulMonotone(Get(p.converterInvestmentCosts, (v, t)), 0.0, GetNat(inv, (v, l, t)) as real);
        }
        SumNonNegative(s.locations, ConverterLocationTerm(p, inv, t, v));
      }
      SumNonNegative(s.converters, ConverterKindTerm(s, p, inv, t));
    }
    SumNonNegative(s.periods, ConverterPeriodTerm(s, p, inv));
  }

  lemma StorageCostsNonNegative(s: Sets, p: Params, inv: map<(Label, Location, Period), nat>)
    requires NonNegativeCosts(s, p)
    ensures Sum(s.periods, StoragePeriodTerm(s, p, inv)) >= 0.0
  {
    forall t | t in s.periods
      ensures StoragePeriodTerm(s, p, inv)(t) >= 0.0
    {
      forall l | l in s.locations
        ensures StorageLocationTerm(s, p, inv, t)(l) >= 0.0
      {
        forall c | c in s.carriers
          ensures StorageCarrierTerm(p, inv, t, l)(c) >= 0.0
        {
          MulMonotone(Get(p.storageCosts, (c, t)), 0.0, GetNat(inv, (c, l, t)) as real);
        }
        SumNonNegative(s.carriers, StorageCarrierTerm(p, inv, t, l));
      }
      SumNonNegative(s.locations, StorageLocationTerm(s, p, inv, t));
    }
    SumNonNegative(s.periods, StoragePeriodTerm(s, p, inv));
  }

  /** With non-negative cost entries, every point costs at least 0. */
  lemma ObjectiveNonNegative(s: Sets, p: Params, x: Assignment)
    requires NonNegativeCosts(s, p)
    ensures TotalCosts(s, p, x) >= 0.0
  {
    NetworkCostsNonNegative(s, p, x.lineInvestmentMade);
    SupplyCostsNonNegative(s, p, x.supplyInvestmentMade);
    ConverterCostsNonNegative(s, p, x.converterInvestmentMade);
    StorageCostsNonNegative(s, p, x.storageInvestmentMade);
  }
}
