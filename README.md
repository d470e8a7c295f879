# EV charging cost: a verified model of the tariff arithmetic

`EV_Charging_Cost.py` estimates the monthly electricity bill of a site of 150 kW
EV chargers under three tariffs:

- **Merced**: a customer charge, one flat energy rate, a demand charge, and a
  mandated percentage surcharge on the sum of the three.
- **Modesto**: a fixed charge, time-of-use energy rates, and a demand charge.
- **PG&E**: the BEV-2-S, BEV-1 and BEV-2-P plans. Each has time-of-use
  energy rates over three periods, a subscription bought in kW blocks sized
  to a predefined number of chargers, and a per-kW overage fee.

`calculate_cost` picks the calculator by location name. It returns the
location's rate table together with the breakdown.

This project models those rate tables, the three calculators and the
dispatcher as Dafny functions, and proves what they compute.

Modules, one file each:

- `Distribution` (`distribution.dfy`). The session distribution is a
  dictionary from period name to fraction of the sessions. It is modelled
  as its items in insertion order (`Items`), with no key twice (`Dist`),
  because the calculators iterate it in that order. The module also has
  `d[key]` lookup (`Lookup`, which fails on an absent key), the sum of the
  values, and scaling of every value. `Mul` names real multiplication, so
  that equal factors give equal products by congruence.
- `Tariff` (`tariff.dfy`). The charger power (150 kW), the month's energy
  (sessions × kWh per session), demand in kW, and the failure outcomes:
  - `UnsupportedSeason`, `UnsupportedSubscriptionType` and
    `UnsupportedLocation`: the source's `ValueError`s.
  - `MissingDistributionKey`: the source's `KeyError`.
  - `UndefinedTotalChargers`: the source's `NameError`.
  - `ParamsMismatch`: the source's `TypeError` from keyword arguments.
- `Merced`, `Modesto` and `Pge` (`merced.dfy`, `modesto.dfy`, `pge.dfy`).
  Each has its rate table as a constant and a pure function for the line
  items over any rates (`SeasonBreakdown`, `PlanBreakdown`). Each also has
  the calculator itself, which looks the rates up and fails the way the
  source does.
- `Dispatch` (`dispatch.dfy`). `calculate_cost`. Parameters are one typed
  record per calculator. The keyword-argument rules of the call are kept:
  - Modesto's arguments handed to Merced run Merced with the default
    5.35 % surcharge, since every Modesto keyword is a Merced parameter.
  - Every other mismatch is `ParamsMismatch`.

Failure order follows the code:

- **Merced and Modesto.** The season lookup fails first, then the worst case.
- **PG&E.** The distribution is read first, in the order peak, off peak,
  super off peak, and the first missing key is the failure. Then an unknown
  subscription type fails, then the worst case.
- **Dispatcher.** An unknown location fails before anything else.

The worst-case branch multiplies `num_150kw_chargers`, a name defined
nowhere. The code therefore raises a `NameError` on every `worst_case=True`
call that gets past the season check (for PG&E, past the distribution reads
and the subscription-type check), and the model returns
`UndefinedTotalChargers` there. Earlier failures keep their own outcome. A repaired
version would take the total number of installed chargers as an input.
The model keeps the code's behaviour.

Worked examples are proved as lemmas. For the Merced summer example, the
surcharge on 350 + 6780 + 42000 = 49130 at 5.35 % is 2628.455, and the
total is 51758.455.

## Model

| member | source | states |
|---|---|---|
| Distribution.Lookup | EV_Charging_Cost.py:244-248 | `d[key]` succeeds exactly when the key is named, and then returns the value of an item with that key; in a dictionary that is every item with that key |
| Distribution.Keys | EV_Charging_Cost.py:56 | the key set contains every item's key and nothing else (`key in d`) |
| Distribution.Scale | EV_Charging_Cost.py:41 | the per-period kWh split has the same periods, in the same order, each value times the factor |
| Distribution.ScaleTotal | EV_Charging_Cost.py:41 | the periods' scaled values add up to the scaled sum of the fractions |
| Distribution.TotalNonNegative | EV_Charging_Cost.py:41 | non-negative fractions have a non-negative sum |
| Tariff.DoubledTotalKwh | EV_Charging_Cost.py:38 | twice the sessions is twice the month's energy |
| Tariff.DemandKwMonotone | EV_Charging_Cost.py:53 | demand in kW never falls as more chargers draw at once |
| Merced.CalculateMercedCosts | EV_Charging_Cost.py:43-85 | succeeds exactly for "summer"/"winter" without the worst case; an unknown season is `UnsupportedSeason`, the worst case `UndefinedTotalChargers`; success is the line items at that season's rates |
| Merced.RatesNonNegative | EV_Charging_Cost.py:6-17 | every season's customer, demand and energy rates are non-negative |
| Merced.ScaleKeepsKeys | EV_Charging_Cost.py:41 | the kWh split names exactly the distribution's periods |
| Merced.FlatEnergyOfNamedPeriods | EV_Charging_Cost.py:56 | when every period of the split is in the distribution, the filter keeps all and the energy charge is the split's total at the flat rate |
| Merced.EnergyAtFlatRate | EV_Charging_Cost.py:38-56 | period names do not matter: energy charge = (sum of fractions × sessions × kWh per session) × rate, and the month's energy × rate when the fractions sum to one |
| Merced.TotalWithSurcharge | EV_Charging_Cost.py:62-65 | total = the four line items; surcharge = percentage of customer + energy + demand; so total = that subtotal × (1 + percentage/100) |
| Merced.CostsNonNegative | EV_Charging_Cost.py:53-65 | non-negative inputs and rates give non-negative energy, demand and surcharge, and a total at least the subtotal |
| Merced.DoublingSessionsDoublesEnergy | EV_Charging_Cost.py:38-59 | doubling the sessions doubles the energy charge; customer and demand charges stay |
| Merced.DemandMonotone | EV_Charging_Cost.py:53-65 | more chargers at once never lower the demand charge, nor the total when the surcharge is at least -100 % |
| Merced.SummerExample | EV_Charging_Cost.py:19-85 | 1000 × 100 kWh all on peak, 10 chargers, summer, 5.35 %: energy 6780, demand 42000, surcharge 2628.455, total 51758.455 |
| Modesto.CalculateModestoCosts | EV_Charging_Cost.py:136-173 | succeeds exactly for "summer"/"winter" without the worst case; an unknown season is `UnsupportedSeason`, the worst case `UndefinedTotalChargers`; success is the line items at that season's rates |
| Modesto.RatesNonNegative | EV_Charging_Cost.py:92-110 | all rates non-negative; winter prices no partial peak |
| Modesto.TouEnergyAppend | EV_Charging_Cost.py:149 | the energy charges of two runs of periods add up |
| Modesto.UnpricedPeriodIgnored | EV_Charging_Cost.py:149 | a period the season does not price contributes nothing, wherever it sits, and raises no error |
| Modesto.TouEnergyScales | EV_Charging_Cost.py:134-149 | pricing the kWh split equals pricing the fractions (the blended rate) times the month's energy |
| Modesto.TouEnergyBounds | EV_Charging_Cost.py:149 | with every period priced, the charge lies between the energy at the cheapest and at the dearest rate |
| Modesto.TouEnergyNonNegative | EV_Charging_Cost.py:149 | non-negative amounts at non-negative rates cost nothing negative |
| Modesto.TotalOfLineItems | EV_Charging_Cost.py:146-155 | total = fixed + energy + demand with no surcharge, i.e. the season's fixed charge + blended rate × the month's energy + demand rate × demand |
| Modesto.EnergyIsBlendedRate | EV_Charging_Cost.py:131-149 | a season's energy charge is its blended rate times the month's energy |
| Modesto.CostsNonNegative | EV_Charging_Cost.py:146-155 | non-negative inputs and rates give non-negative energy and demand; total = fixed + energy + demand, no surcharge |
| Modesto.DoublingSessionsDoublesEnergy | EV_Charging_Cost.py:131-152 | doubling the sessions doubles the energy charge; fixed and demand charges stay |
| Modesto.DemandMonotone | EV_Charging_Cost.py:146-155 | more chargers at once never lower the demand charge or the total |
| Modesto.SummerExample | EV_Charging_Cost.py:113-173 | 1000 × 100 kWh split 30/30/40, 10 chargers, summer: energy 10655.1, demand 29055, total 39902.1 |
| Modesto.WinterDropsPartialPeak | EV_Charging_Cost.py:102-149 | the same split in winter bills 30000 kWh on peak and 40000 kWh off peak only |
| Pge.SessionShares | EV_Charging_Cost.py:244-248 | reads peak, off peak, super off peak in that order; fails with the first missing key; otherwise returns the three looked-up fractions |
| Pge.PlansValid | EV_Charging_Cost.py:184-215 | every plan's block size is positive and divides 150 kW; all prices positive |
| Pge.CalculatePgeCosts | EV_Charging_Cost.py:241-303 | a missing period fails first, then an unknown subscription type, then the worst case; succeeds exactly otherwise, with the plan's line items |
| Pge.BlocksCoverChargers | EV_Charging_Cost.py:257-260 | with a block size dividing 150, subscribed demand = predefined chargers × 150 kW |
| Pge.SubscriptionSizedToPredefined | EV_Charging_Cost.py:257-275 | under every plan the subscription is exactly the predefined chargers' power, charged per charger at (150 / block size) blocks |
| Pge.OverageFeeProperties | EV_Charging_Cost.py:277-281 | with a positive fee: never negative, and zero exactly when demand is within the subscription (equality included) |
| Pge.OverageFeeMonotone | EV_Charging_Cost.py:277-281 | more demand never lowers the overage fee |
| Pge.OverageIffBeyondPredefined | EV_Charging_Cost.py:257-281 | under every plan, overage is due exactly when more chargers draw than were predefined, and is then the fee on the extra chargers' power |
| Pge.EnergyIsBlendedRate | EV_Charging_Cost.py:241-272 | energy charge = blended rate of the three periods × the month's energy |
| Pge.TotalOfLineItems | EV_Charging_Cost.py:269-284 | total = energy + subscription + overage, i.e. blended rate × the month's energy + the subscribed blocks' price + the fee on demand beyond them |
| Pge.CostsNonNegative | EV_Charging_Cost.py:269-284 | non-negative inputs and prices give non-negative energy, subscription and overage; total = their sum |
| Pge.DoublingSessionsDoublesEnergy | EV_Charging_Cost.py:241-281 | doubling the sessions doubles the energy charge; subscription and overage stay |
| Pge.DemandMonotone | EV_Charging_Cost.py:264-284 | more chargers at once never lower the overage fee or the total |
| Pge.Bev1Example | EV_Charging_Cost.py:217-303 | BEV-1, 1000 × 100 kWh split 20/30/50, 10 predefined and 10 actual: energy 23346.2, subscription 1861.5, no overage, total 25207.7 |
| Dispatch.CalculateCost | EV_Charging_Cost.py:315-327 | an unknown location is `UnsupportedLocation`; each known location runs its calculator on acceptable arguments and returns its own table with the result, passing failures through |
| Dispatch.DispatchConsistent | EV_Charging_Cost.py:315-327 | a success is for a known location, and the table and the breakdown belong to that same location |
| Dispatch.DispatchAgreesWithCalculators | EV_Charging_Cost.py:316-324 | on a location's own arguments, dispatch succeeds exactly when that calculator does, with its breakdown or its error |
| Dispatch.CrossLocationArguments | EV_Charging_Cost.py:318-324 | Modesto's arguments at Merced run Merced with the default surcharge; every other mismatched pairing is `ParamsMismatch` |

## Left out

- The Streamlit user interface (EV_Charging_Cost.py:329-438): widgets, button handling, result display and formatting. It is I/O. The unused `pandas` import is left out too.
- Floating point. Money, rates and fractions are exact reals. Binary rounding and the two-decimal formatting of the display are not modelled.
- The worst-case branch is modelled as the failure the code produces: it reads an undefined charger count. The repaired variant, with a total-charger input, is not modelled.
- Keyword splatting is modelled as one typed record per calculator, always carrying every keyword. An omitted optional keyword is modelled by its default value ("summer", "BEV-2-S", 5.35, `False`), which Python binds before the body runs. What is not modelled is a call that lacks a required keyword, which raises `TypeError`. The one cross-calculator call that Python accepts (Modesto's keywords at Merced) is modelled, with Merced's surcharge at its default.
- The breakdown dictionaries' echo of the inputs is the `params` field of each breakdown record.
- Sessions, kWh per session and charger counts are integers, as their documentation states. Integer overflow does not arise in Python and is not modelled.
- Python's `//` in the block count is floor division. Dafny's `/` agrees with it for the positive block sizes of every plan, and `NumBlocks` requires a positive block size.
- Repeated calls giving identical results needs no lemma: every calculator is a Dafny function.
