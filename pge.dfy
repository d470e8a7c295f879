/** PG&E's business EV plans BEV-2-S, BEV-1 and BEV-2-P: time-of-use energy
    rates over three fixed periods, a subscription bought in blocks of kW
    sized to a predefined number of chargers, and a per-kW overage fee on
    demand beyond the subscription. */
module Pge {
  import opened Distribution
  import opened Tariff

  /** $/kWh in each of the three periods every plan prices. */
  datatype EnergyCharge = EnergyCharge(peak: real, offPeak: real, superOffPeak: real)

  /** One plan: $ per subscribed block, the block size in kW, the energy
      rates, and $ per kW of demand beyond the subscription. */
  datatype Plan = Plan(subscriptionChargePerBlock: real, blockSize: int, energyCharge: EnergyCharge, overageFeePerKw: real)

  /** The plans, keyed by subscription type. */
  const PgeRates: map<string, Plan> := map[
    "BEV-2-S" := Plan(95.56, 50, EnergyCharge(0.41522, 0.20199, 0.17872), 3.82),
    "BEV-1" := Plan(12.41, 10, EnergyCharge(0.40040, 0.20839, 0.18173), 2.48),
    "BEV-2-P" := Plan(85.98, 50, EnergyCharge(0.40635, 0.19747, 0.17481), 3.44)
  ]

  /** The inputs of one PG&E calculation; the breakdown echoes them. */
  datatype Params = Params(
    numChargingSessions: int,
    numKwhPerSession: int,
    rateSessionDist: Dist,
    predefineMaxNumSimultaneousCharging: int,
    actualMaxNumSimultaneousCharging: int,
    subscriptionType: string,
    worstCase: bool)

  datatype Breakdown = Breakdown(
    params: Params,
    energyCost: real,
    subscriptionCharge: real,
    overageFee: real,
    totalCost: real)

  /** The session fractions of the three periods. */
  datatype PeriodShares = PeriodShares(peak: real, offPeak: real, superOffPeak: real)

  /** The fractions of the three periods, read from the distribution in the
      order peak, off peak, super off peak; the first one absent is the
      failure. Other periods of the distribution are ignored. */
  function SessionShares(dist: Items): (r: Result<PeriodShares>)
    ensures r.Ok? <==> "peak" in Keys(dist) && "off_peak" in Keys(dist) && "super_off_peak" in Keys(dist)
    ensures "peak" !in Keys(dist) ==> r == Err(MissingDistributionKey("peak"))
    ensures "peak" in Keys(dist) && "off_peak" !in Keys(dist) ==> r == Err(MissingDistributionKey("off_peak"))
    ensures "peak" in Keys(dist) && "off_peak" in Keys(dist) && "super_off_peak" !in Keys(dist)
            ==> r == Err(MissingDistributionKey("super_off_peak"))
    ensures r.Ok? ==> && Lookup(dist, "peak") == Some(r.value.peak)
                      && Lookup(dist, "off_peak") == Some(r.value.offPeak)
                      && Lookup(dist, "super_off_peak") == Some(r.value.superOffPeak)
  {
    match Lookup(dist, "peak")
    case None => Err(MissingDistributionKey("peak"))
    case Some(peak) =>
      match Lookup(dist, "off_peak")
      case None => Err(MissingDistributionKey("off_peak"))
      case Some(offPeak) =>
        match Lookup(dist, "super_off_peak")
        case None => Err(MissingDistributionKey("super_off_peak"))
        case Some(superOffPeak) => Ok(PeriodShares(peak, offPeak, superOffPeak))
  }

  /** Blocks subscribed: as many whole blocks as fit in one charger's power,
      for each predefined charger. */
  function NumBlocks(predefineMaxNumSimultaneousCharging: int, blockSize: int): int
    requires blockSize > 0
  {
    predefineMaxNumSimultaneousCharging * (ChargerKw / blockSize)
  }

  /** The fee on demand beyond the subscription, nothing when within it. */
  function OverageFee(actualKw: int, subscribedKw: int, feePerKw: real): real
  {
    if actualKw > subscribedKw then Mul((actualKw - subscribedKw) as real, feePerKw) else 0.0
  }

  /** The price per kWh of the month's mix of periods. */
  function BlendedRate(shares: PeriodShares, ec: EnergyCharge): real
  {
    Mul(shares.peak, ec.peak) + Mul(shares.offPeak, ec.offPeak) + Mul(shares.superOffPeak, ec.superOffPeak)
  }

  /** The line items for one plan, in the branch that is not the worst case. */
  function PlanBreakdown(p: Params, shares: PeriodShares, plan: Plan): Breakdown
    requires plan.blockSize > 0
  {
    var totalKwh := TotalKwh(p.numChargingSessions, p.numKwhPerSession);
    var energyCost := Mul(Mul(shares.peak, totalKwh), plan.energyCharge.peak)
                    + Mul(Mul(shares.offPeak, totalKwh), plan.energyCharge.offPeak)
                    + Mul(Mul(shares.superOffPeak, totalKwh), plan.energyCharge.superOffPeak);
    var numBlocks := NumBlocks(p.predefineMaxNumSimultaneousCharging, plan.blockSize);
    var subscriptionCharge := Mul(numBlocks as real, plan.subscriptionChargePerBlock);
    var overageFee := OverageFee(DemandKw(p.actualMaxNumSimultaneousCharging), numBlocks * plan.blockSize, plan.overageFeePerKw);
    Breakdown(p, energyCost, subscriptionCharge, overageFee, energyCost + subscriptionCharge + overageFee)
  }

  /** Every plan has a positive block size that divides a charger's power,
      and positive rates and fees. */
  lemma PlansValid(subscriptionType: string)
    requires subscriptionType in PgeRates
    ensures var plan := PgeRates[subscriptionType];
      && plan.blockSize > 0
      && ChargerKw % plan.blockSize == 0
      && plan.subscriptionChargePerBlock > 0.0
      && plan.overageFeePerKw > 0.0
      && plan.energyCharge.peak > 0.0 && plan.energyCharge.offPeak > 0.0 && plan.energyCharge.superOffPeak > 0.0
  {
  }

  /** The monthly cost breakdown, or why there is none: a period missing from
      the distribution fails first, then an unknown subscription type, then
      the worst case, whose total charger count the calculation never
      defines. */
  function CalculatePgeCosts(p: Params): (r: Result<Breakdown>)
    ensures r.Ok? <==> SessionShares(p.rateSessionDist).Ok? && p.subscriptionType in PgeRates && !p.worstCase
    ensures SessionShares(p.rateSessionDist).Err? ==> r == Err(SessionShares(p.rateSessionDist).error)
    ensures SessionShares(p.rateSessionDist).Ok? && p.subscriptionType !in PgeRates ==> r == Err(UnsupportedSubscriptionType)
    ensures SessionShares(p.rateSessionDist).Ok? && p.subscriptionType in PgeRates && p.worstCase
            ==> r == Err(UndefinedTotalChargers)
    ensures r.Ok? ==> (PgeRates[p.subscriptionType].blockSize > 0
                       && r.value == PlanBreakdown(p, SessionShares(p.rateSessionDist).value, PgeRates[p.subscriptionType]))
  {
    match SessionShares(p.rateSessionDist)
    case Err(e) => Err(e)
    case Ok(shares) =>
      if p.subscriptionType !in PgeRates then Err(UnsupportedSubscriptionType)
      else if p.worstCase then Err(UndefinedTotalChargers)
      else
        PlansValid(p.subscriptionType);
        Ok(PlanBreakdown(p, shares, PgeRates[p.subscriptionType]))
  }

  /** Blocks that divide a charger's power subscribe exactly the predefined
      chargers' combined power. */
  lemma BlocksCoverChargers(predefineMaxNumSimultaneousCharging: int, blockSize: int)
    requires blockSize > 0 && ChargerKw % blockSize == 0
    ensures NumBlocks(predefineMaxNumSimultaneousCharging, blockSize) * blockSize == DemandKw(predefineMaxNumSimultaneousCharging)
  {
    var perCharger := ChargerKw / blockSize;
    assert perCharger * blockSize == ChargerKw;
    calc {
      NumBlocks(predefineMaxNumSimultaneousCharging, blockSize) * blockSize;
      (predefineMaxNumSimultaneousCharging * perCharger) * blockSize;
      { MulIntAssociates(predefineMaxNumSimultaneousCharging, perCharger, blockSize); }
      predefineMaxNumSimultaneousCharging * (perCharger * blockSize);
      DemandKw(predefineMaxNumSimultaneousCharging);
    }
  }

  lemma MulIntAssociates(a: int, b: int, c: int)
    ensures (a * b) * c == a * (b * c)
  {
  }

  /** Under any plan the subscription covers exactly the predefined
      chargers' combined power, and its charge is the predefined chargers
      times the price of one charger's worth of blocks. */
  lemma SubscriptionSizedToPredefined(p: Params, shares: PeriodShares, subscriptionType: string)
    requires subscriptionType in PgeRates
    ensures var plan := PgeRates[subscriptionType];
      && NumBlocks(p.predefineMaxNumSimultaneousCharging, plan.blockSize) * plan.blockSize
         == DemandKw(p.predefineMaxNumSimultaneousCharging)
      && PlanBreakdown(p, shares, plan).subscriptionCharge
         == Mul(p.predefineMaxNumSimultaneousCharging as real, Mul((ChargerKw / plan.blockSize) as real, plan.subscriptionChargePerBlock))
  {
    var plan := PgeRates[subscriptionType];
    PlansValid(subscriptionType);
    BlocksCoverChargers(p.predefineMaxNumSimultaneousCharging, plan.blockSize);
    MulAssociates(p.predefineMaxNumSimultaneousCharging as real, (ChargerKw / plan.blockSize) as real, plan.subscriptionChargePerBlock);
  }

  /** The total is the energy charge, the subscription charge and the
      overage fee added: the plan's blended rate times the month's energy,
      the price of the subscribed blocks, and the fee on demand beyond them. */
  lemma TotalOfLineItems(p: Params, shares: PeriodShares, plan: Plan)
    requires plan.blockSize > 0
    ensures var b := PlanBreakdown(p, shares, plan);
            var numBlocks := NumBlocks(p.predefineMaxNumSimultaneousCharging, plan.blockSize);
      && b.totalCost == b.energyCost + b.subscriptionCharge + b.overageFee
      && b.totalCost == Mul(BlendedRate(shares, plan.energyCharge), TotalKwh(p.numChargingSessions, p.numKwhPerSession))
                        + Mul(numBlocks as real, plan.subscriptionChargePerBlock)
                        + OverageFee(DemandKw(p.actualMaxNumSimultaneousCharging), numBlocks * plan.blockSize, plan.overageFeePerKw)
  {
    EnergyIsBlendedRate(p, shares, plan);
  }

  /** Non-negative sessions, energy per session, fractions and predefined
      chargers under a plan with non-negative prices give non-negative line
      items, and the total is the three added. */
  lemma CostsNonNegative(p: Params, shares: PeriodShares, plan: Plan)
    requires plan.blockSize > 0
    requires p.numChargingSessions >= 0 && p.numKwhPerSession >= 0 && p.predefineMaxNumSimultaneousCharging >= 0
    requires shares.peak >= 0.0 && shares.offPeak >= 0.0 && shares.superOffPeak >= 0.0
    requires plan.subscriptionChargePerBlock >= 0.0 && plan.overageFeePerKw >= 0.0
    requires plan.energyCharge.peak >= 0.0 && plan.energyCharge.offPeak >= 0.0 && plan.energyCharge.superOffPeak >= 0.0
    ensures var b := PlanBreakdown(p, shares, plan);
      && b.energyCost >= 0.0 && b.subscriptionCharge >= 0.0 && b.overageFee >= 0.0
      && b.totalCost == b.energyCost + b.subscriptionCharge + b.overageFee
  {
    var b := PlanBreakdown(p, shares, plan);
    var ec := plan.energyCharge;
    assert b.energyCost >= 0.0 by {
      EnergyIsBlendedRate(p, shares, plan);
      MulNonNegative(shares.peak, ec.peak);
      MulNonNegative(shares.offPeak, ec.offPeak);
      MulNonNegative(shares.superOffPeak, ec.superOffPeak);
      MulNonNegative(BlendedRate(shares, ec), TotalKwh(p.numChargingSessions, p.numKwhPerSession));
    }
    assert b.subscriptionCharge >= 0.0 by {
      MulNonNegative(NumBlocks(p.predefineMaxNumSimultaneousCharging, plan.blockSize) as real, plan.subscriptionChargePerBlock);
    }
    assert b.overageFee >= 0.0 by {
      var subscribedKw := NumBlocks(p.predefineMaxNumSimultaneousCharging, plan.blockSize) * plan.blockSize;
      if DemandKw(p.actualMaxNumSimultaneousCharging) > subscribedKw {
        MulNonNegative((DemandKw(p.actualMaxNumSimultaneousCharging) - subscribedKw) as real, plan.overageFeePerKw);
      }
    }
  }

  /** With a positive fee, there is an overage fee exactly when demand
      exceeds the subscription; it is never negative, and it grows with the
      demand. */
  lemma OverageFeeProperties(actualKw: int, subscribedKw: int, feePerKw: real)
    requires feePerKw > 0.0
    ensures OverageFee(actualKw, subscribedKw, feePerKw) >= 0.0
    ensures OverageFee(actualKw, subscribedKw, feePerKw) == 0.0 <==> actualKw <= subscribedKw
  {
    if actualKw > subscribedKw {
      MulPositive((actualKw - subscribedKw) as real, feePerKw);
    }
  }

  lemma MulPositive(x: real, y: real)
    requires x > 0.0 && y > 0.0
    ensures Mul(x, y) > 0.0
  {
  }

  /** More demand never lowers the overage fee. */
  lemma OverageFeeMonotone(lowerKw: int, higherKw: int, subscribedKw: int, feePerKw: real)
    requires lowerKw <= higherKw && feePerKw >= 0.0
    ensures OverageFee(lowerKw, subscribedKw, feePerKw) <= OverageFee(higherKw, subscribedKw, feePerKw)
  {
    if higherKw > subscribedKw {
      if lowerKw > subscribedKw {
        MulMonotone((lowerKw - subscribedKw) as real, (higherKw - subscribedKw) as real, feePerKw);
      } else {
        MulNonNegative((higherKw - subscribedKw) as real, feePerKw);
      }
    }
  }

  /** Under any plan, the overage fee is due exactly when more chargers draw
      at once than were predefined, and is then the fee on the power of the
      extra chargers. */
  lemma OverageIffBeyondPredefined(p: Params, shares: PeriodShares, subscriptionType: string)
    requires subscriptionType in PgeRates
    ensures var plan := PgeRates[subscriptionType];
            var b := PlanBreakdown(p, shares, plan);
      && (b.overageFee == 0.0 <==> p.actualMaxNumSimultaneousCharging <= p.predefineMaxNumSimultaneousCharging)
      && (p.actualMaxNumSimultaneousCharging > p.predefineMaxNumSimultaneousCharging ==>
            b.overageFee == Mul(DemandKw(p.actualMaxNumSimultaneousCharging - p.predefineMaxNumSimultaneousCharging) as real,
                                plan.overageFeePerKw))
  {
    var plan := PgeRates[subscriptionType];
    PlansValid(subscriptionType);
    BlocksCoverChargers(p.predefineMaxNumSimultaneousCharging, plan.blockSize);
    OverageFeeProperties(DemandKw(p.actualMaxNumSimultaneousCharging), DemandKw(p.predefineMaxNumSimultaneousCharging),
                         plan.overageFeePerKw);
    assert DemandKw(p.actualMaxNumSimultaneousCharging) - DemandKw(p.predefineMaxNumSimultaneousCharging)
        == DemandKw(p.actualMaxNumSimultaneousCharging - p.predefineMaxNumSimultaneousCharging);
  }

  /** The energy charge is the blended rate of the three periods times the
      month's energy. */
  lemma EnergyIsBlendedRate(p: Params, shares: PeriodShares, plan: Plan)
    requires plan.blockSize > 0
    ensures PlanBreakdown(p, shares, plan).energyCost
         == Mul(BlendedRate(shares, plan.energyCharge), TotalKwh(p.numChargingSessions, p.numKwhPerSession))
  {
    var totalKwh := TotalKwh(p.numChargingSessions, p.numKwhPerSession);
    var ec := plan.energyCharge;
    MulCommutesInner(shares.peak, totalKwh, ec.peak);
    MulCommutesInner(shares.offPeak, totalKwh, ec.offPeak);
    MulCommutesInner(shares.superOffPeak, totalKwh, ec.superOffPeak);
    MulDistributes(Mul(shares.peak, ec.peak) + Mul(shares.offPeak, ec.offPeak), Mul(shares.peak, ec.peak),
                   Mul(shares.offPeak, ec.offPeak), totalKwh);
    MulDistributes(BlendedRate(shares, ec), Mul(shares.peak, ec.peak) + Mul(shares.offPeak, ec.offPeak),
                   Mul(shares.superOffPeak, ec.superOffPeak), totalKwh);
  }

  /** Doubling the sessions at fixed energy per session doubles the energy
      charge and leaves the subscription and overage as they were. */
  lemma DoublingSessionsDoublesEnergy(p: Params, shares: PeriodShares, plan: Plan)
    requires plan.blockSize > 0
    ensures var q := p.(numChargingSessions := 2 * p.numChargingSessions);
      && PlanBreakdown(q, shares, plan).energyCost == 2.0 * PlanBreakdown(p, shares, plan).energyCost
      && PlanBreakdown(q, shares, plan).subscriptionCharge == PlanBreakdown(p, shares, plan).subscriptionCharge
      && PlanBreakdown(q, shares, plan).overageFee == PlanBreakdown(p, shares, plan).overageFee
  {
    var q := p.(numChargingSessions := 2 * p.numChargingSessions);
    EnergyIsBlendedRate(p, shares, plan);
    EnergyIsBlendedRate(q, shares, plan);
    DoubledTotalKwh(p.numChargingSessions, p.numKwhPerSession);
    assert TotalKwh(q.numChargingSessions, q.numKwhPerSession) == 2.0 * TotalKwh(p.numChargingSessions, p.numKwhPerSession);
  }

  /** More chargers drawing at once never lowers the overage fee or the
      total. */
  lemma DemandMonotone(p: Params, shares: PeriodShares, plan: Plan, fewer: int, more: int)
    requires plan.blockSize > 0 && plan.overageFeePerKw >= 0.0
    requires fewer <= more
    ensures var lo := PlanBreakdown(p.(actualMaxNumSimultaneousCharging := fewer), shares, plan);
            var hi := PlanBreakdown(p.(actualMaxNumSimultaneousCharging := more), shares, plan);
      && lo.overageFee <= hi.overageFee
      && lo.totalCost <= hi.totalCost
  {
    DemandKwMonotone(fewer, more);
    OverageFeeMonotone(DemandKw(fewer), DemandKw(more),
                       NumBlocks(p.predefineMaxNumSimultaneousCharging, plan.blockSize) * plan.blockSize, plan.overageFeePerKw);
  }

  /** The BEV-1 example: 1000 sessions of 100 kWh split 20/30/50, ten
      chargers predefined and ten drawing at once: no overage. */
  lemma Bev1Example()
    ensures var r := CalculatePgeCosts(Params(1000, 100, [("peak", 0.2), ("off_peak", 0.3), ("super_off_peak", 0.5)], 10, 10, "BEV-1", false));
      && r.Ok?
      && r.value.energyCost == 23346.2
      && r.value.subscriptionCharge == 1861.5
      && r.value.overageFee == 0.0
      && r.value.totalCost == 25207.7
  {
    var d: Items := [("peak", 0.2), ("off_peak", 0.3), ("super_off_peak", 0.5)];
    var p := Params(1000, 100, d, 10, 10, "BEV-1", false);
    var plan := Plan(12.41, 10, EnergyCharge(0.40040, 0.20839, 0.18173), 2.48);
    assert PgeRates["BEV-1"] == plan;
    assert d[1..][1..][1..] == [];
    assert SessionShares(d) == Ok(PeriodShares(0.2, 0.3, 0.5));
    EnergyIsBlendedRate(p, PeriodShares(0.2, 0.3, 0.5), plan);
    assert NumBlocks(10, 10) == 150;
    assert PlanBreakdown(p, PeriodShares(0.2, 0.3, 0.5), plan).energyCost == 23346.2;
  }
}
