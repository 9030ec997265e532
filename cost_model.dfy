/** The cost model of `main.py`: outdoor temperature and spot price decide
    whether the heat pump or the pellet stove heats the house. Quantities are
    exact reals; the program computes them in binary floating point. */
module CostModel {

  datatype HeatSource = HeatPump | PelletStove

  /** What `decide_heating_source` returns: the chosen source and the heating
      capacity, in kW, it is assumed to deliver. */
  datatype Decision = Decision(source: HeatSource, capacity: real)

  /** Defaults of `decide_heating_source`, used by the main loop. */
  const MaxPriceThreshold: real := 3.0
  const Scop: real := 3.8

  /** Constants written into the decision itself. */
  const FixedCostAdjustment: real := 0.94875
  const MinHeatPumpCapacity: real := 3.0
  const PelletStoveCapacity: real := 5.0

  /** The heat pump's capacity at an outdoor temperature (whole degrees
      Celsius), as a step function checked from the warmest band down. */
  function EffectiveHeatingCapacity(outdoorTemp: int): (kw: real)
    ensures kw in {6.5, 4.0, 3.6, 2.6}
  {
    var t := outdoorTemp as real;
    if t >= 0.0 then 6.5
    else if t >= -12.5 then 4.0
    else if t >= -17.5 then 3.6
    else 2.6
  }

  /** Cost of the electricity the heat pump draws to deliver `heatingCapacity`:
      SCOP units of heat per unit of electricity, so the cost times the SCOP
      is what the heat would cost bought directly at the spot price. */
  function EnergyCostWithScop(spotPrice: real, heatingCapacity: real, scop: real): (cost: real)
    requires scop != 0.0
    ensures cost * scop == heatingCapacity * spotPrice
  {
    (heatingCapacity / scop) * spotPrice
  }

  /** For a positive capacity and SCOP, the cost stays within `limit`
      exactly when the spot price is at most `limit * scop / heatingCapacity`. */
  lemma CostWithinLimitIff(spotPrice: real, heatingCapacity: real, scop: real, limit: real)
    requires heatingCapacity > 0.0 && scop > 0.0
    ensures EnergyCostWithScop(spotPrice, heatingCapacity, scop) <= limit
        <==> spotPrice <= limit * scop / heatingCapacity
  {
  }

  /** For a non-negative capacity and a positive SCOP, a higher spot price
      never gives a lower cost. */
  lemma CostMonotoneInPrice(cheaper: real, dearer: real, heatingCapacity: real, scop: real)
    requires cheaper <= dearer && heatingCapacity >= 0.0 && scop > 0.0
    ensures EnergyCostWithScop(cheaper, heatingCapacity, scop) <= EnergyCostWithScop(dearer, heatingCapacity, scop)
  {
  }

  /** `decide_heating_source`: the heat pump when its electricity is cheap
      enough and it still delivers at least 3 kW, the pellet stove at 5 kW
      otherwise. */
  function DecideHeatingSource(outdoorTemp: int, spotPrice: real, maxPriceThreshold: real, scop: real): (d: Decision)
    requires scop != 0.0
    ensures d.capacity >= MinHeatPumpCapacity
    ensures d.source == HeatPump ==> d.capacity == EffectiveHeatingCapacity(outdoorTemp)
    ensures d.source == PelletStove ==> d.capacity == PelletStoveCapacity
  {
    var heatingCapacity := EffectiveHeatingCapacity(outdoorTemp);
    var adjustedThreshold := maxPriceThreshold - FixedCostAdjustment;
    var electricityCost := EnergyCostWithScop(spotPrice, heatingCapacity, scop);
    if electricityCost <= adjustedThreshold && heatingCapacity >= MinHeatPumpCapacity then
      Decision(HeatPump, heatingCapacity)
    else
      Decision(PelletStove, PelletStoveCapacity)
  }

  /** The decision with the loop's defaults. */
  function Decide(outdoorTemp: int, spotPrice: real): Decision
  {
    DecideHeatingSource(outdoorTemp, spotPrice, MaxPriceThreshold, Scop)
  }

  /** The capacity bands, restated over whole degrees: the half-degree
      bounds -12.5 and -17.5 put -12 and -17 in the warmer band. */
  lemma CapacityBands(outdoorTemp: int)
    ensures EffectiveHeatingCapacity(outdoorTemp) == 6.5 <==> outdoorTemp >= 0
    ensures EffectiveHeatingCapacity(outdoorTemp) == 4.0 <==> -12 <= outdoorTemp < 0
    ensures EffectiveHeatingCapacity(outdoorTemp) == 3.6 <==> -17 <= outdoorTemp <= -13
    ensures EffectiveHeatingCapacity(outdoorTemp) == 2.6 <==> outdoorTemp <= -18
  {
  }

  /** A warmer day never lowers the heat pump's assumed capacity. */
  lemma CapacityMonotone(colder: int, warmer: int)
    requires colder <= warmer
    ensures EffectiveHeatingCapacity(colder) <= EffectiveHeatingCapacity(warmer)
  {
  }

  /** The heat pump is chosen exactly when its cost is within the threshold
      less the fixed cost, and its capacity is at least 3 kW. */
  lemma HeatPumpIff(outdoorTemp: int, spotPrice: real, maxPriceThreshold: real, scop: real)
    requires scop != 0.0
    ensures DecideHeatingSource(outdoorTemp, spotPrice, maxPriceThreshold, scop).source == HeatPump
        <==> EnergyCostWithScop(spotPrice, EffectiveHeatingCapacity(outdoorTemp), scop)
               <= maxPriceThreshold - FixedCostAdjustment
             && EffectiveHeatingCapacity(outdoorTemp) >= MinHeatPumpCapacity
  {
  }

  /** Below -17.5 degrees the heat pump's 2.6 kW is too little: the pellet
      stove is chosen at 5 kW whatever the price. */
  lemma ColdAlwaysPelletStove(outdoorTemp: int, spotPrice: real, maxPriceThreshold: real, scop: real)
    requires scop != 0.0
    requires outdoorTemp <= -18
    ensures DecideHeatingSource(outdoorTemp, spotPrice, maxPriceThreshold, scop)
         == Decision(PelletStove, PelletStoveCapacity)
  {
  }

  /** The highest spot price at which the heat pump still wins, for a
      positive SCOP: the adjusted threshold times SCOP over the capacity. */
  function PriceLimit(outdoorTemp: int, maxPriceThreshold: real, scop: real): real
    requires scop != 0.0
  {
    (maxPriceThreshold - FixedCostAdjustment) * scop / EffectiveHeatingCapacity(outdoorTemp)
  }

  /** The decision as a price limit: with a positive SCOP the heat pump is
      chosen exactly when the temperature is -17 degrees or warmer and the
      spot price does not exceed the limit for that temperature. */
  lemma HeatPumpIffBelowPriceLimit(outdoorTemp: int, spotPrice: real, maxPriceThreshold: real, scop: real)
    requires scop > 0.0
    ensures DecideHeatingSource(outdoorTemp, spotPrice, maxPriceThreshold, scop).source == HeatPump
        <==> outdoorTemp >= -17 && spotPrice <= PriceLimit(outdoorTemp, maxPriceThreshold, scop)
  {
    CostWithinLimitIff(spotPrice, EffectiveHeatingCapacity(outdoorTemp), scop, maxPriceThreshold - FixedCostAdjustment);
  }

  /** A lower price never turns the heat pump off: if it is chosen at one
      price, it is chosen at every lower price, with the same capacity. */
  lemma CheaperKeepsHeatPump(outdoorTemp: int, cheaper: real, dearer: real, maxPriceThreshold: real, scop: real)
    requires scop > 0.0 && cheaper <= dearer
    requires DecideHeatingSource(outdoorTemp, dearer, maxPriceThreshold, scop).source == HeatPump
    ensures DecideHeatingSource(outdoorTemp, cheaper, maxPriceThreshold, scop)
         == DecideHeatingSource(outdoorTemp, dearer, maxPriceThreshold, scop)
  {
  }

  /** Worked cases with the defaults: 5 degrees at 0.5 costs about 0.855,
      under the adjusted threshold 2.05125, so the heat pump runs at 6.5 kW;
      at 5.0 the cost is about 8.55 and the pellet stove runs. */
  lemma DefaultExamples()
    ensures Decide(5, 0.5) == Decision(HeatPump, 6.5)
    ensures Decide(5, 5.0) == Decision(PelletStove, 5.0)
    ensures Decide(-20, 0.0) == Decision(PelletStove, 5.0)
  {
  }
}
