/**
 * The discounted cost tables the driver derives from the base (2018) costs: network costs for
 * every carrier and location pair, and supply, converter and storage costs per category, each
 * divided by (1 + discount rate + development rate)^(t - 2018) in period t.
 */
module RunnerCosts {
  import opened Common
  import opened Discounting
  import opened RunnerTopology

  // ---------------------------------------------------------------- network costs

  /** The carriers the network cost loop writes, in writing order. */
  const NetworkCarriers: seq<Label> := [Electricity, Gas, Heat]

  /** The base table has a row for every carrier and every ordered location pair. */
  predicate NetworkBaseComplete(locations: seq<Location>, base: map<NetworkKey, real>)
  {
    forall c, a, b | c in NetworkCarriers && a in locations && b in locations :: (c, a, b) in base
  }

  /** A key of the dense network cost table. */
  predicate DenseNetworkKey(locations: seq<Location>, periods: seq<Period>, k: (Label, Location, Location, Period))
  {
    k.0 in NetworkCarriers && k.1 in locations && k.2 in locations && k.3 in periods
  }

  /** Every entry is its base cost discounted at the plain discount rate. */
  predicate NetworkCostsDiscounted(costs: map<(Label, Location, Location, Period), real>, base: map<NetworkKey, real>)
  {
    forall k | k in costs :: (k.0, k.1, k.2) in base && costs[k] == Discounted(base[(k.0, k.1, k.2)], DiscountRate, k.3)
  }

  /** The base table has a row for every carrier from l1 to every location. */
  predicate RowComplete(l1: Location, locations: seq<Location>, base: map<NetworkKey, real>)
  {
    forall c, b | c in NetworkCarriers && b in locations :: (c, l1, b) in base
  }

  /** Writes the entries of period t from location1 to every location, Electricity, Gas and Heat in turn. */
  method FillNetworkRow(costs0: map<(Label, Location, Location, Period), real>, t: Period, location1: Location,
                        locations: seq<Location>, base: map<NetworkKey, real>)
    returns (r: Result<map<(Label, Location, Location, Period), real>, NetworkKey>)
    requires NetworkCostsDiscounted(costs0, base)
    ensures r.Success? <==> RowComplete(location1, locations, base)
    ensures r.Success? ==> NetworkCostsDiscounted(r.value, base)
    ensures r.Success? ==> forall k :: k in r.value <==>
      (k in costs0 || (k.0 in NetworkCarriers && k.1 == location1 && k.2 in locations && k.3 == t))
    ensures r.Failure? ==> r.error !in base && r.error.0 in NetworkCarriers && r.error.1 == location1 && r.error.2 in locations
  {
    var costs := costs0;
    for m := 0 to |locations|
      invariant RowComplete(location1, locations[..m], base)
      invariant forall k :: k in costs <==>
        (k in costs0 || (k.0 in NetworkCarriers && k.1 == location1 && k.2 in locations[..m] && k.3 == t))
      invariant NetworkCostsDiscounted(costs, base)
    {
      var location2 := locations[m];
      assert forall b :: b in locations[..m + 1] <==> b in locations[..m] || b == location2 by {
        assert locations[..m + 1] == locations[..m] + [location2];
      }
      if (Electricity, location1, location2) !in base {
        return Failure((Electricity, location1, location2));
      }
      costs := costs[(Electricity, location1, location2, t) := Discounted(base[(Electricity, location1, location2)], DiscountRate, t)];
      if (Gas, location1, location2) !in base {
        return Failure((Gas, location1, location2));
      }
      costs := costs[(Gas, location1, location2, t) := Discounted(base[(Gas, location1, location2)], DiscountRate, t)];
      if (Heat, location1, location2) !in base {
        return Failure((Heat, location1, location2));
      }
      costs := costs[(Heat, location1, location2, t) := Discounted(base[(Heat, location1, location2)], DiscountRate, t)];
    }
    assert locations[..|locations|] == locations;
    return Success(costs);
  }

  /** Writes every entry of period t, row by row. */
  method FillNetworkPeriod(costs0: map<(Label, Location, Location, Period), real>, t: Period,
                           locations: seq<Location>, base: map<NetworkKey, real>)
    returns (r: Result<map<(Label, Location, Location, Period), real>, NetworkKey>)
    requires NetworkCostsDiscounted(costs0, base)
    ensures r.Success? <==> NetworkBaseComplete(locations, base)
    ensures r.Success? ==> NetworkCostsDiscounted(r.value, base)
    ensures r.Success? ==> forall k :: k in r.value <==>
      (k in costs0 || (k.0 in NetworkCarriers && k.1 in locations && k.2 in locations && k.3 == t))
    ensures r.Failure? ==> r.error !in base && r.error.0 in NetworkCarriers && r.error.1 in locations && r.error.2 in locations
  {
    var costs := costs0;
    for j := 0 to |locations|
      invariant forall a | a in locations[..j] :: RowComplete(a, locations, base)
      invariant forall k :: k in costs <==>
        (k in costs0 || (k.0 in NetworkCarriers && k.1 in locations[..j] && k.2 in locations && k.3 == t))
      invariant NetworkCostsDiscounted(costs, base)
    {
      var location1 := locations[j];
      assert forall a :: a in locations[..j + 1] <==> a in locations[..j] || a == location1 by {
        assert locations[..j + 1] == locations[..j] + [location1];
      }
      var row := FillNetworkRow(costs, t, location1, locations, base);
      if row.Failure? {
        return Failure(row.error);
      }
      costs := row.value;
    }
    assert locations[..|locations|] == locations;
    return Success(costs);
  }

  /**
   * Fills the dense network cost table period by period. A missing base row stops the derivation
   * with its key; with no periods nothing is read.
   */
  method DeriveNetworkCosts(periods: seq<Period>, locations: seq<Location>, base: map<NetworkKey, real>)
    returns (r: Result<map<(Label, Location, Location, Period), real>, NetworkKey>)
    ensures r.Success? <==> (|periods| == 0 || NetworkBaseComplete(locations, base))
    ensures r.Success? ==> forall k :: k in r.value <==> DenseNetworkKey(locations, periods, k)
    ensures r.Success? ==> NetworkCostsDiscounted(r.value, base)
    ensures r.Failure? ==> r.error !in base && r.error.0 in NetworkCarriers && r.error.1 in locations && r.error.2 in locations
  {
    var costs: map<(Label, Location, Location, Period), real> := map[];
    for i := 0 to |periods|
      invariant i > 0 ==> NetworkBaseComplete(locations, base)
      invariant forall k :: k in costs <==> DenseNetworkKey(locations, periods[..i], k)
      invariant NetworkCostsDiscounted(costs, base)
    {
      var t := periods[i];
      assert forall t2 :: t2 in periods[..i + 1] <==> t2 in periods[..i] || t2 == t by {
        assert periods[..i + 1] == periods[..i] + [t];
      }
      var filled := FillNetworkPeriod(costs, t, locations, base);
      if filled.Failure? {
        return Failure(filled.error);
      }
      costs := filled.value;
    }
    assert periods[..|periods|] == periods;
    return Success(costs);
  }

  // ---------------------------------------------------------------- per-category costs

  /** Solar uses its own development rate; every other supply type uses the wind rate. */
  function SupplyRate(x: Label): (r: real)
    ensures r > DiscountRate
  {
    if x == Solar then DiscountRate + DevRateSupplySolar else DiscountRate + DevRateSupplyWind
  }

  /** P2G and HP use their development rates; every other converter is discounted only. */
  function ConverterRate(x: Label): (r: real)
    ensures r >= DiscountRate
    ensures r == DiscountRate <==> x != P2G && x != HP
  {
    if x == P2G then DiscountRate + DevRateConvP2G
    else if x == HP then DiscountRate + DevRateConvHP
    else DiscountRate
  }

  /**
   * The rate each storage category ends up with: the Electricity entry is written with its
   * development rate and then overwritten by the discount-only branch, so only Heat keeps one.
   */
  function StorageRate(x: Label): (r: real)
    ensures r >= DiscountRate
    ensures r == DiscountRate <==> x != Heat
  {
    if x == Heat then DiscountRate + DevRateStorageHeat else DiscountRate
  }

  /** costs holds every (category, period) pair and the base cost discounted at the category's rate. */
  ghost predicate CostTable(costs: map<(Label, Period), real>, base: map<Label, real>, periods: seq<Period>, rate: Label -> real)
    requires forall x :: rate(x) >= 0.0
  {
    && (forall k :: k in costs <==> k.0 in base && k.1 in periods)
    && forall k | k in costs :: costs[k] == Discounted(base[k.0], rate(k.0), k.1)
  }

  /** CostTable for the periods before t, plus the categories done so far at t. */
  ghost predicate PartialCostTable(costs: map<(Label, Period), real>, base: map<Label, real>, periods: seq<Period>,
                             t: Period, done: set<Label>, rate: Label -> real)
    requires forall x :: rate(x) >= 0.0
  {
    && (forall k :: k in costs <==> k.0 in base && (k.1 in periods || (k.1 == t && k.0 in done)))
    && forall k | k in costs :: costs[k] == Discounted(base[k.0], rate(k.0), k.1)
  }

  /** Supply investment costs per supply type and period. */
  method DeriveSupplyCosts(periods: seq<Period>, base: map<Label, real>) returns (costs: map<(Label, Period), real>)
    ensures CostTable(costs, base, periods, SupplyRate)
  {
    costs := map[];
    for i := 0 to |periods|
      invariant CostTable(costs, base, periods[..i], SupplyRate)
    {
      var t := periods[i];
      assert forall t2 :: t2 in periods[..i + 1] <==> t2 in periods[..i] || t2 == t by {
        assert periods[..i + 1] == periods[..i] + [t];
      }
      var todo := base.Keys;
      while todo != {}
        invariant todo <= base.Keys
        invariant PartialCostTable(costs, base, periods[..i], t, base.Keys - todo, SupplyRate)
        decreases |todo|
      {
        var x :| x in todo;
        if x == Solar {
          costs := costs[(x, t) := Discounted(base[x], DiscountRate + DevRateSupplySolar, t)];
        } else {
          costs := costs[(x, t) := Discounted(base[x], DiscountRate + DevRateSupplyWind, t)];
        }
        todo := todo - {x};
      }
    }
    assert periods[..|periods|] == periods;
  }

  /** Converter investment costs per converter and period. */
  method DeriveConverterCosts(periods: seq<Period>, base: map<Label, real>) returns (costs: map<(Label, Period), real>)
    ensures CostTable(costs, base, periods, ConverterRate)
  {
    costs := map[];
    for i := 0 to |periods|
      invariant CostTable(costs, base, periods[..i], ConverterRate)
    {
      var t := periods[i];
      assert forall t2 :: t2 in periods[..i + 1] <==> t2 in periods[..i] || t2 == t by {
        assert periods[..i + 1] == periods[..i] + [t];
      }
      var todo := base.Keys;
      while todo != {}
        invariant todo <= base.Keys
        invariant PartialCostTable(costs, base, periods[..i], t, base.Keys - todo, ConverterRate)
        decreases |todo|
      {
        var x :| x in todo;
        if x == P2G {
          costs := costs[(x, t) := Discounted(base[x], DiscountRate + DevRateConvP2G, t)];
        } else if x == HP {
          costs := costs[(x, t) := Discounted(base[x], DiscountRate + DevRateConvHP, t)];
        } else {
          costs := costs[(x, t) := Discounted(base[x], DiscountRate, t)];
        }
        todo := todo - {x};
      }
    }
    assert periods[..|periods|] == periods;
  }

  /**
   * Storage investment costs per carrier and period. The Heat test is a separate if/else after the
   * Electricity test, so its else branch rewrites the Electricity entry.
   */
  method DeriveStorageCosts(periods: seq<Period>, base: map<Label, real>) returns (costs: map<(Label, Period), real>)
    ensures CostTable(costs, base, periods, StorageRate)
  {
    costs := map[];
    for i := 0 to |periods|
      invariant CostTable(costs, base, periods[..i], StorageRate)
    {
      var t := periods[i];
      assert forall t2 :: t2 in periods[..i + 1] <==> t2 in periods[..i] || t2 == t by {
        assert periods[..i + 1] == periods[..i] + [t];
      }
      var todo := base.Keys;
      while todo != {}
        invariant todo <= base.Keys
        invariant PartialCostTable(costs, base, periods[..i], t, base.Keys - todo, StorageRate)
        decreases |todo|
      {
        var x :| x in todo;
        if x == Electricity {
          costs := costs[(x, t) := Discounted(base[x], DiscountRate + DevRateStorageElec, t)];
        }
        if x == Heat {
          costs := costs[(x, t) := Discounted(base[x], DiscountRate + DevRateStorageHeat, t)];
        } else {
          costs := costs[(x, t) := Discounted(base[x], DiscountRate, t)];
        }
        todo := todo - {x};
      }
    }
    assert periods[..|periods|] == periods;
  }

  // ---------------------------------------------------------------- properties of the derived costs

  /** In the starting period every derived cost is its base cost. */
  lemma DerivedCostAtStart(costs: map<(Label, Period), real>, base: map<Label, real>, periods: seq<Period>,
                           rate: Label -> real, x: Label)
    requires forall y :: rate(y) >= 0.0
    requires CostTable(costs, base, periods, rate)
    requires x in base && StartingTimePeriod in periods
    ensures (x, StartingTimePeriod) in costs && costs[(x, StartingTimePeriod)] == base[x]
  {
    DiscountedAtStart(base[x], rate(x));
  }

  /** From 2018 on, a non-negative derived cost never rises in a later period. */
  lemma DerivedCostNonIncreasing(costs: map<(Label, Period), real>, base: map<Label, real>, periods: seq<Period>,
                                 rate: Label -> real, x: Label, t: Period, u: Period)
    requires forall y :: rate(y) >= 0.0
    requires CostTable(costs, base, periods, rate)
    requires x in base && base[x] >= 0.0
    requires t in periods && u in periods && StartingTimePeriod <= t <= u
    ensures costs[(x, u)] <= costs[(x, t)]
  {
    DiscountedNonIncreasing(base[x], rate(x), t, u);
  }

  /** The network table is dense over every carrier pair and period and discounted at the plain rate. */
  lemma NetworkCostAt(costs: map<(Label, Location, Location, Period), real>, base: map<NetworkKey, real>,
                      locations: seq<Location>, periods: seq<Period>, c: Label, a: Location, b: Location, t: Period)
    requires forall k :: k in costs <==> DenseNetworkKey(locations, periods, k)
    requires NetworkCostsDiscounted(costs, base)
    requires c in NetworkCarriers && a in locations && b in locations && t in periods
    ensures (c, a, b, t) in costs && costs[(c, a, b, t)] == Discounted(base[(c, a, b)], DiscountRate, t)
    ensures t == StartingTimePeriod ==> costs[(c, a, b, t)] == base[(c, a, b)]
  {
    assert DenseNetworkKey(locations, periods, (c, a, b, t));
  }

  /**
   * The Electricity storage cost ends discount-only: after 2018 a positive base cost comes out
   * strictly higher than it would with the declared Electricity storage development rate.
   */
  lemma StorageElectricityOverwritten(costs: map<(Label, Period), real>, base: map<Label, real>, periods: seq<Period>, t: Period)
    requires CostTable(costs, base, periods, StorageRate)
    requires Electricity in base && base[Electricity] > 0.0
    requires t in periods && t > StartingTimePeriod
    ensures costs[(Electricity, t)] == Discounted(base[Electricity], DiscountRate, t)
    ensures costs[(Electricity, t)] > Discounted(base[Electricity], DiscountRate + DevRateStorageElec, t)
  {
    DiscountedStrictInRate(base[Electricity], DiscountRate, DiscountRate + DevRateStorageElec, t);
  }

  /** Every supply type other than Solar is discounted exactly like Wind. */
  lemma NonSolarSupplyUsesWindRate(costs: map<(Label, Period), real>, base: map<Label, real>, periods: seq<Period>, x: Label, t: Period)
    requires CostTable(costs, base, periods, SupplyRate)
    requires x in base && x != Solar && t in periods
    ensures costs[(x, t)] == Discounted(base[x], DiscountRate + DevRateSupplyWind, t)
    ensures Wind in base && base[Wind] == base[x] ==> costs[(x, t)] == costs[(Wind, t)]
  {
  }
}
