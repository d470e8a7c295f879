/** Definitions shared by the three tariff calculators: the rated power of a
    charger, the failures a calculation can end in, the month's energy, and
    the arithmetic facts the calculators' proofs use. */
module Tariff {
  import opened Distribution

  /** Rated power of one charger, in kW. Every demand figure in the tariffs
      is a number of chargers drawing at once times this. */
  const ChargerKw: int := 150

  /** Why a cost calculation fails. */
  datatype CostError =
    | UnsupportedSeason             // season is neither "summer" nor "winter"
    | UnsupportedSubscriptionType   // not one of the three PG&E plans
    | UnsupportedLocation           // not "Modesto", "Merced" or "PG&E"
    | MissingDistributionKey(key: string)  // a PG&E period absent from the distribution
    | UndefinedTotalChargers        // the worst-case branch reads a total charger count that is never defined
    | ParamsMismatch                // keyword arguments the chosen calculator does not accept

  datatype Result<+T> = Ok(value: T) | Err(error: CostError)

  /** The month's energy in kWh: sessions times energy per session. */
  function TotalKwh(numChargingSessions: int, numKwhPerSession: int): real
  {
    (numChargingSessions * numKwhPerSession) as real
  }

  /** Peak demand in kW of a number of chargers drawing at once. */
  function DemandKw(numSimultaneousCharging: int): int
  {
    numSimultaneousCharging * ChargerKw
  }

  /** Twice the sessions is twice the month's energy. */
  lemma DoubledTotalKwh(numChargingSessions: int, numKwhPerSession: int)
    ensures TotalKwh(2 * numChargingSessions, numKwhPerSession) == 2.0 * TotalKwh(numChargingSessions, numKwhPerSession)
  {
    assert (2 * numChargingSessions) * numKwhPerSession == 2 * (numChargingSessions * numKwhPerSession);
  }

  /** More chargers at once is at least as much demand. */
  lemma DemandKwMonotone(fewer: int, more: int)
    requires fewer <= more
    ensures DemandKw(fewer) <= DemandKw(more)
  {
  }

  lemma MulNonNegative(x: real, y: real)
    requires x >= 0.0 && y >= 0.0
    ensures Mul(x, y) >= 0.0
  {
  }

  /** A larger quantity at a non-negative rate costs no less. */
  lemma MulMonotone(x: real, y: real, rate: real)
    requires x <= y && rate >= 0.0
    ensures Mul(x, rate) <= Mul(y, rate)
  {
    MulNonNegative(y - x, rate);
  }

  /** A non-negative amount costs no less at a higher rate. */
  lemma MulMonotoneRate(amount: real, lower: real, higher: real)
    requires amount >= 0.0 && lower <= higher
    ensures Mul(amount, lower) <= Mul(amount, higher)
  {
    MulNonNegative(amount, higher - lower);
  }

  /** Pricing a scaled amount is scaling the priced amount. */
  lemma MulCommutesInner(x: real, factor: real, rate: real)
    ensures Mul(Mul(x, factor), rate) == Mul(Mul(x, rate), factor)
  {
  }

  /** A doubled quantity at the same rate costs double. */
  lemma MulDoubled(doubled: real, single: real, rate: real)
    requires doubled == 2.0 * single
    ensures Mul(doubled, rate) == 2.0 * Mul(single, rate)
  {
  }

  /** Quantities scaled by `a` and then by `b` are scaled by `a * b`. */
  lemma MulAssociates(x: real, a: real, b: real)
    ensures Mul(Mul(x, a), b) == Mul(x, Mul(a, b))
  {
  }
}
