/** Modesto Irrigation District's tariff: a fixed monthly charge, a
    time-of-use energy rate per period, and a demand charge on the peak
    power drawn. Periods the season does not price are not billed. */
module Modesto {
  import opened Distribution
  import opened Tariff

  /** One season's rates: $/month, $/kW of peak demand, and $/kWh for each
      time-of-use period the season prices. */
  datatype SeasonRates = SeasonRates(fixedMonthlyCharge: real, demandChargePerKw: real, energyCharge: map<string, real>)

  /** The rate schedule, keyed by season name. Winter has no partial peak. */
  const ModestoRates: map<string, SeasonRates> := map[
    "summer" := SeasonRates(192.00, 19.37, map["on_peak" := 0.14252, "partial_peak" := 0.11169, "off_peak" := 0.07572]),
    "winter" := SeasonRates(192.00, 19.37, map["on_peak" := 0.09851, "off_peak" := 0.07572])
  ]

  /** The inputs of one Modesto calculation; the breakdown echoes them. */
  datatype Params = Params(
    numChargingSessions: int,
    numKwhPerSession: int,
    rateSessionDist: Dist,
    actualMaxNumSimultaneousCharging: int,
    season: string,
    worstCase: bool)

  datatype Breakdown = Breakdown(
    params: Params,
    fixedMonthlyCharge: real,
    energyCost: real,
    demandCharge: real,
    totalCost: real)

  /** The energy of every period of `amounts` that `energyCharge` prices, at
      that period's rate, added in order; other periods are skipped. Applied
      to the fractions themselves it is the blended rate per kWh. */
  function TouEnergyCost(amounts: Items, energyCharge: map<string, real>): real
  {
    if amounts == [] then 0.0
    else
      (if amounts[0].0 in energyCharge then Mul(amounts[0].1, energyCharge[amounts[0].0]) else 0.0)
      + TouEnergyCost(amounts[1..], energyCharge)
  }

  /** The line items for one season's rates, in the branch that is not the
      worst case. */
  function SeasonBreakdown(p: Params, rates: SeasonRates): Breakdown
  {
    var kwh := Scale(p.rateSessionDist, TotalKwh(p.numChargingSessions, p.numKwhPerSession));
    var energyCost := TouEnergyCost(kwh, rates.energyCharge);
    var demandCharge := Mul(DemandKw(p.actualMaxNumSimultaneousCharging) as real, rates.demandChargePerKw);
    Breakdown(p, rates.fixedMonthlyCharge, energyCost, demandCharge, rates.fixedMonthlyCharge + energyCost + demandCharge)
  }

  /** The monthly cost breakdown, or why there is none: an unknown season
      fails, and so does the worst case, whose total charger count the
      calculation never defines. */
  function CalculateModestoCosts(p: Params): (r: Result<Breakdown>)
    ensures r.Ok? <==> p.season in ModestoRates && !p.worstCase
    ensures p.season !in ModestoRates ==> r == Err(UnsupportedSeason)
    ensures p.season in ModestoRates && p.worstCase ==> r == Err(UndefinedTotalChargers)
    ensures r.Ok? ==> r.value == SeasonBreakdown(p, ModestoRates[p.season])
  {
    if p.season in ModestoRates then
      if p.worstCase then Err(UndefinedTotalChargers)
      else Ok(SeasonBreakdown(p, ModestoRates[p.season]))
    else
      Err(UnsupportedSeason)
  }

  /** Energy charges of two runs of periods add up. */
  lemma {:induction false} TouEnergyAppend(a: Items, b: Items, energyCharge: map<string, real>)
    ensures TouEnergyCost(a + b, energyCharge) == TouEnergyCost(a, energyCharge) + TouEnergyCost(b, energyCharge)
  {
    if a != [] {
      assert (a + b)[0] == a[0];
      assert (a + b)[1..] == a[1..] + b;
      TouEnergyAppend(a[1..], b, energyCharge);
    } else {
      assert a + b == b;
    }
  }

  /** A period the season does not price adds nothing, wherever it sits. */
  lemma UnpricedPeriodIgnored(a: Items, period: string, amount: real, b: Items, energyCharge: map<string, real>)
    requires period !in energyCharge
    ensures TouEnergyCost(a + [(period, amount)] + b, energyCharge) == TouEnergyCost(a + b, energyCharge)
  {
    TouEnergyAppend(a + [(period, amount)], b, energyCharge);
    TouEnergyAppend(a, [(period, amount)], energyCharge);
    TouEnergyAppend(a, b, energyCharge);
  }

  /** The energy charge is the blended rate of the fractions times the
      month's energy. */
  lemma {:induction false} TouEnergyScales(d: Items, totalKwh: real, energyCharge: map<string, real>)
    ensures TouEnergyCost(Scale(d, totalKwh), energyCharge) == Mul(TouEnergyCost(d, energyCharge), totalKwh)
  {
    if d != [] {
      assert Scale(d, totalKwh)[1..] == Scale(d[1..], totalKwh);
      TouEnergyScales(d[1..], totalKwh, energyCharge);
      var head := if d[0].0 in energyCharge then Mul(d[0].1, energyCharge[d[0].0]) else 0.0;
      if d[0].0 in energyCharge {
        MulCommutesInner(d[0].1, totalKwh, energyCharge[d[0].0]);
      }
      MulDistributes(TouEnergyCost(d, energyCharge), head, TouEnergyCost(d[1..], energyCharge), totalKwh);
    }
  }

  /** If every period is priced and all rates lie between `lo` and `hi`, the
      energy charge of non-negative amounts lies between their total at `lo`
      and their total at `hi`: the blended rate is never below the cheapest
      period or above the dearest. */
  lemma {:induction false} TouEnergyBounds(amounts: Items, energyCharge: map<string, real>, lo: real, hi: real)
    requires forall i :: 0 <= i < |amounts| ==> amounts[i].0 in energyCharge && amounts[i].1 >= 0.0
    requires forall period :: period in energyCharge ==> lo <= energyCharge[period] <= hi
    ensures Mul(Total(amounts), lo) <= TouEnergyCost(amounts, energyCharge) <= Mul(Total(amounts), hi)
  {
    if amounts != [] {
      TouEnergyBounds(amounts[1..], energyCharge, lo, hi);
      var rate := energyCharge[amounts[0].0];
      MulMonotoneRate(amounts[0].1, lo, rate);
      MulMonotoneRate(amounts[0].1, rate, hi);
      MulDistributes(Total(amounts), amounts[0].1, Total(amounts[1..]), lo);
      MulDistributes(Total(amounts), amounts[0].1, Total(amounts[1..]), hi);
    }
  }

  /** Non-negative amounts at non-negative rates cost nothing negative. */
  lemma {:induction false} TouEnergyNonNegative(amounts: Items, energyCharge: map<string, real>)
    requires NonNegativeValues(amounts)
    requires forall period :: period in energyCharge ==> energyCharge[period] >= 0.0
    ensures TouEnergyCost(amounts, energyCharge) >= 0.0
  {
    if amounts != [] {
      assert NonNegativeValues(amounts[1..]) by {
        forall i | 0 <= i < |amounts[1..]| ensures amounts[1..][i].1 >= 0.0 {
          assert amounts[1..][i] == amounts[i + 1];
        }
      }
      TouEnergyNonNegative(amounts[1..], energyCharge);
      if amounts[0].0 in energyCharge {
        MulNonNegative(amounts[0].1, energyCharge[amounts[0].0]);
      }
    }
  }

  /** Non-negative sessions, energy per session, fractions and charger count
      under non-negative rates give non-negative line items, and the total is
      the three added, with no surcharge. */
  lemma CostsNonNegative(p: Params, rates: SeasonRates)
    requires p.numChargingSessions >= 0 && p.numKwhPerSession >= 0 && p.actualMaxNumSimultaneousCharging >= 0
    requires NonNegativeValues(p.rateSessionDist)
    requires rates.fixedMonthlyCharge >= 0.0 && rates.demandChargePerKw >= 0.0
    requires forall period :: period in rates.energyCharge ==> rates.energyCharge[period] >= 0.0
    ensures var b := SeasonBreakdown(p, rates);
      && b.energyCost >= 0.0 && b.demandCharge >= 0.0
      && b.totalCost == b.fixedMonthlyCharge + b.energyCost + b.demandCharge
      && b.totalCost >= b.fixedMonthlyCharge
  {
    EnergyIsBlendedRate(p, rates);
    TouEnergyNonNegative(p.rateSessionDist, rates.energyCharge);
    MulNonNegative(TouEnergyCost(p.rateSessionDist, rates.energyCharge), TotalKwh(p.numChargingSessions, p.numKwhPerSession));
    MulNonNegative(DemandKw(p.actualMaxNumSimultaneousCharging) as real, rates.demandChargePerKw);
  }

  /** The total is the fixed charge, the energy charge and the demand charge
      added, with no surcharge: the season's fixed charge, its blended rate
      times the month's energy, and its demand rate times the demand. */
  lemma TotalOfLineItems(p: Params, rates: SeasonRates)
    ensures var b := SeasonBreakdown(p, rates);
      && b.totalCost == b.fixedMonthlyCharge + b.energyCost + b.demandCharge
      && b.totalCost == rates.fixedMonthlyCharge
                        + Mul(TouEnergyCost(p.rateSessionDist, rates.energyCharge), TotalKwh(p.numChargingSessions, p.numKwhPerSession))
                        + Mul(DemandKw(p.actualMaxNumSimultaneousCharging) as real, rates.demandChargePerKw)
  {
    EnergyIsBlendedRate(p, rates);
  }

  /** The energy charge of a season is its blended rate times the month's
      energy. */
  lemma EnergyIsBlendedRate(p: Params, rates: SeasonRates)
    ensures SeasonBreakdown(p, rates).energyCost
         == Mul(TouEnergyCost(p.rateSessionDist, rates.energyCharge), TotalKwh(p.numChargingSessions, p.numKwhPerSession))
  {
    TouEnergyScales(p.rateSessionDist, TotalKwh(p.numChargingSessions, p.numKwhPerSession), rates.energyCharge);
  }

  /** Doubling the sessions at fixed energy per session doubles the energy
      charge and leaves the fixed and demand charges as they were. */
  lemma DoublingSessionsDoublesEnergy(p: Params, rates: SeasonRates)
    ensures var q := p.(numChargingSessions := 2 * p.numChargingSessions);
      && SeasonBreakdown(q, rates).energyCost == 2.0 * SeasonBreakdown(p, rates).energyCost
      && SeasonBreakdown(q, rates).fixedMonthlyCharge == SeasonBreakdown(p, rates).fixedMonthlyCharge
      && SeasonBreakdown(q, rates).demandCharge == SeasonBreakdown(p, rates).demandCharge
  {
    var q := p.(numChargingSessions := 2 * p.numChargingSessions);
    EnergyIsBlendedRate(p, rates);
    EnergyIsBlendedRate(q, rates);
    DoubledTotalKwh(p.numChargingSessions, p.numKwhPerSession);
    assert TotalKwh(q.numChargingSessions, q.numKwhPerSession) == 2.0 * TotalKwh(p.numChargingSessions, p.numKwhPerSession);
  }

  /** With the other inputs fixed, more chargers drawing at once never lowers
      the demand charge or the total. */
  lemma DemandMonotone(p: Params, rates: SeasonRates, fewer: int, more: int)
    requires rates.demandChargePerKw >= 0.0
    requires fewer <= more
    ensures var lo := SeasonBreakdown(p.(actualMaxNumSimultaneousCharging := fewer), rates);
            var hi := SeasonBreakdown(p.(actualMaxNumSimultaneousCharging := more), rates);
      && lo.demandCharge <= hi.demandCharge
      && lo.totalCost <= hi.totalCost
  {
    DemandKwMonotone(fewer, more);
    MulMonotone(DemandKw(fewer) as real, DemandKw(more) as real, rates.demandChargePerKw);
  }

  /** Every season's rates are non-negative, so monotonicity holds for the
      whole schedule; winter prices no partial peak. */
  lemma RatesNonNegative(season: string)
    requires season in ModestoRates
    ensures ModestoRates[season].fixedMonthlyCharge >= 0.0
    ensures ModestoRates[season].demandChargePerKw >= 0.0
    ensures forall period :: period in ModestoRates[season].energyCharge ==> ModestoRates[season].energyCharge[period] >= 0.0
    ensures season == "winter" ==> "partial_peak" !in ModestoRates[season].energyCharge
  {
  }

  /** The summer example: 1000 sessions of 100 kWh split 30/30/40 over on
      peak, partial peak and off peak, ten chargers at once. */
  lemma SummerExample()
    ensures var r := CalculateModestoCosts(Params(1000, 100, [("on_peak", 0.3), ("partial_peak", 0.3), ("off_peak", 0.4)], 10, "summer", false));
      && r.Ok?
      && r.value.energyCost == 10655.1
      && r.value.demandCharge == 29055.0
      && r.value.totalCost == 39902.1
  {
    var d: Items := [("on_peak", 0.3), ("partial_peak", 0.3), ("off_peak", 0.4)];
    var p := Params(1000, 100, d, 10, "summer", false);
    EnergyIsBlendedRate(p, ModestoRates["summer"]);
    assert d[1..][1..][1..] == [];
  }

  /** In winter the same split bills its partial-peak share at no rate. */
  lemma WinterDropsPartialPeak()
    ensures var r := CalculateModestoCosts(Params(1000, 100, [("on_peak", 0.3), ("partial_peak", 0.3), ("off_peak", 0.4)], 10, "winter", false));
      && r.Ok?
      && r.value.energyCost == 30000.0 * 0.09851 + 40000.0 * 0.07572
  {
    var d: Items := [("on_peak", 0.3), ("partial_peak", 0.3), ("off_peak", 0.4)];
    var p := Params(1000, 100, d, 10, "winter", false);
    EnergyIsBlendedRate(p, ModestoRates["winter"]);
    assert d[1..][1..][1..] == [];
  }
}
