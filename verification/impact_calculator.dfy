/**
 * The Impact Calculator of the piezoelectric floor-tile page: six slider
 * inputs are turned into capital cost, energy and savings figures by a fixed
 * chain of unit conversions. Every quantity is an exact `real`.
 */
module ImpactCalculator {
  import opened Wrappers

  /** Cost of covering one square foot with tiles, in rupees. */
  const CostPerSqft: real := 110.0

  /** Joules in one kilowatt-hour. */
  const JoulesPerKWh: real := 3600000.0

  /** Days in the month the calculator reports on. */
  const DaysPerMonth: real := 30.0

  /** The six slider values, already parsed. */
  datatype Inputs = Inputs(
    areaSqft: real,        // area covered by tiles (sq ft)
    trafficPerDay: real,   // people per day
    stepsPerPerson: real,  // steps on the tiled zone per person
    joulesPerStep: real,   // energy captured per step (J)
    efficiency: real,      // storage and inversion efficiency (fraction)
    tariffINR: real        // rupees per kWh
  )

  /** Every figure the calculator derives; `simplePaybackMonths` is `None` where the page has Infinity. */
  datatype Outputs = Outputs(
    capex: real,
    rawJoulesDay: real,
    netJoulesDay: real,
    kWhDay: real,
    kWhMonth: real,
    dailySavings: real,
    monthlySavings: real,
    simplePaybackMonths: Option<real>
  )

  /** The values the page starts with. */
  const DefaultInputs: Inputs := Inputs(500.0, 8000.0, 4.0, 1.5, 0.7, 8.0)

  /** Each slider at its lower bound. */
  const MinInputs: Inputs := Inputs(50.0, 500.0, 1.0, 0.2, 0.3, 4.0)

  /** Each slider at its upper bound. */
  const MaxInputs: Inputs := Inputs(5000.0, 100000.0, 20.0, 5.0, 0.95, 20.0)

  /** The bounds of the six range sliders. */
  predicate InRange(i: Inputs) {
    && 50.0 <= i.areaSqft <= 5000.0
    && 500.0 <= i.trafficPerDay <= 100000.0
    && 1.0 <= i.stepsPerPerson <= 20.0
    && 0.2 <= i.joulesPerStep <= 5.0
    && 0.3 <= i.efficiency <= 0.95
    && 4.0 <= i.tariffINR <= 20.0
  }

  // ---------------------------------------------------------------------------
  // The conversion chain, one function per derived figure
  // ---------------------------------------------------------------------------

  /** Capital cost of the tiles; dividing by the unit price gives the area back. */
  function Capex(areaSqft: real): (r: real)
    ensures r / CostPerSqft == areaSqft
    ensures r > 0.0 <==> areaSqft > 0.0
  {
    areaSqft * CostPerSqft
  }

  /** Joules generated per day before losses. */
  function RawJoulesDay(trafficPerDay: real, stepsPerPerson: real, joulesPerStep: real): (r: real)
    ensures (trafficPerDay == 0.0 || stepsPerPerson == 0.0 || joulesPerStep == 0.0) ==> r == 0.0
    ensures trafficPerDay > 0.0 && stepsPerPerson > 0.0 && joulesPerStep > 0.0 ==> r > 0.0
  {
    trafficPerDay * stepsPerPerson * joulesPerStep
  }

  /** Joules left per day after storage and inversion losses: never more than was generated. */
  function NetJoulesDay(rawJoulesDay: real, efficiency: real): (r: real)
    ensures rawJoulesDay >= 0.0 && 0.0 <= efficiency <= 1.0 ==> 0.0 <= r <= rawJoulesDay
    ensures rawJoulesDay > 0.0 && efficiency > 0.0 ==> r > 0.0
  {
    rawJoulesDay * efficiency
  }

  /** Net energy per day in kWh; converting back to joules gives the net joules. */
  function KWhDay(netJoulesDay: real): (r: real)
    ensures r * JoulesPerKWh == netJoulesDay
  {
    netJoulesDay / JoulesPerKWh
  }

  /** Energy per month in kWh; one day's share of it is the daily figure. */
  function KWhMonth(kWhDay: real): (r: real)
    ensures r / DaysPerMonth == kWhDay
  {
    kWhDay * DaysPerMonth
  }

  /** Rupees saved on an amount of energy: positive exactly when energy and tariff share a strict sign. */
  function Savings(kWh: real, tariffINR: real): (r: real)
    ensures r > 0.0 <==> (kWh > 0.0 && tariffINR > 0.0) || (kWh < 0.0 && tariffINR < 0.0)
  {
    kWh * tariffINR
  }

  /** Dividing the savings by a non-zero tariff gives the energy back. */
  lemma SavingsRoundTrip(kWh: real, tariffINR: real)
    requires tariffINR != 0.0
    ensures Savings(kWh, tariffINR) / tariffINR == kWh
  {
  }

  /**
   * Months until the monthly savings repay the capital cost. Without positive
   * savings there is no payback (the page's Infinity).
   */
  function SimplePaybackMonths(capex: real, monthlySavings: real): (r: Option<real>)
    ensures r.Some? <==> monthlySavings > 0.0
    ensures r.Some? ==> r.value * monthlySavings == capex
    ensures r.Some? && capex > 0.0 ==> r.value > 0.0
  {
    if monthlySavings > 0.0 then Some(capex / monthlySavings) else None
  }

  /** The whole calculator: every output from the six inputs. */
  function Calculate(i: Inputs): (o: Outputs)
    ensures o.capex == i.areaSqft * 110.0
    ensures o.rawJoulesDay == i.trafficPerDay * i.stepsPerPerson * i.joulesPerStep
    ensures o.netJoulesDay == o.rawJoulesDay * i.efficiency
    ensures o.netJoulesDay == i.trafficPerDay * i.stepsPerPerson * i.joulesPerStep * i.efficiency
    ensures o.netJoulesDay == o.kWhDay * 3600000.0
    ensures o.kWhMonth == 30.0 * o.kWhDay
    ensures o.dailySavings == o.kWhDay * i.tariffINR && o.monthlySavings == o.kWhMonth * i.tariffINR
    ensures o.monthlySavings == 30.0 * o.dailySavings
    ensures o.simplePaybackMonths.Some? <==> o.monthlySavings > 0.0
    ensures o.simplePaybackMonths.Some? ==> o.simplePaybackMonths.value * o.monthlySavings == o.capex
  {
    var capex := Capex(i.areaSqft);
    var raw := RawJoulesDay(i.trafficPerDay, i.stepsPerPerson, i.joulesPerStep);
    var net := NetJoulesDay(raw, i.efficiency);
    var kWhDay := KWhDay(net);
    var kWhMonth := KWhMonth(kWhDay);
    var daily := Savings(kWhDay, i.tariffINR);
    var monthly := Savings(kWhMonth, i.tariffINR);
    Outputs(capex, raw, net, kWhDay, kWhMonth, daily, monthly, SimplePaybackMonths(capex, monthly))
  }

  // ---------------------------------------------------------------------------
  // Properties of the calculator
  // ---------------------------------------------------------------------------

  /** Monotonicity of a product of non-negative factors. */
  lemma MulMono(a: real, b: real, c: real, d: real)
    requires 0.0 <= a <= b && 0.0 <= c <= d
    ensures 0.0 <= a * c <= b * d
  {
  }

  /** A smaller numerator over a larger positive denominator gives a smaller quotient. */
  lemma DivMono(a: real, b: real, c: real, d: real)
    requires 0.0 <= a <= b && 0.0 < d <= c
    ensures a / c <= b / d
  {
  }

  /** Within the slider bounds every output is strictly positive and the payback exists. */
  lemma InRangeOutputsPositive(i: Inputs)
    requires InRange(i)
    ensures var o := Calculate(i);
      && o.capex > 0.0 && o.rawJoulesDay > 0.0 && o.netJoulesDay > 0.0
      && o.kWhDay > 0.0 && o.kWhMonth > 0.0
      && o.dailySavings > 0.0 && o.monthlySavings > 0.0
      && o.simplePaybackMonths.Some? && o.simplePaybackMonths.value > 0.0
  {
  }

  /** Daily raw joules never fall when traffic, steps or joules per step rise. */
  lemma RawJoulesDayMonotone(t: real, t': real, s: real, s': real, e: real, e': real)
    requires 0.0 <= t <= t' && 0.0 <= s <= s' && 0.0 <= e <= e'
    ensures 0.0 <= RawJoulesDay(t, s, e) <= RawJoulesDay(t', s', e')
  {
  }

  /** Raising any energy input never lowers the daily kWh. */
  lemma KWhDayMonotone(i: Inputs, j: Inputs)
    requires 0.0 <= i.trafficPerDay <= j.trafficPerDay
    requires 0.0 <= i.stepsPerPerson <= j.stepsPerPerson
    requires 0.0 <= i.joulesPerStep <= j.joulesPerStep
    requires 0.0 <= i.efficiency <= j.efficiency
    ensures 0.0 <= Calculate(i).kWhDay <= Calculate(j).kWhDay
  {
    var raw := RawJoulesDay(i.trafficPerDay, i.stepsPerPerson, i.joulesPerStep);
    var raw' := RawJoulesDay(j.trafficPerDay, j.stepsPerPerson, j.joulesPerStep);
    RawJoulesDayMonotone(i.trafficPerDay, j.trafficPerDay, i.stepsPerPerson, j.stepsPerPerson,
                         i.joulesPerStep, j.joulesPerStep);
    MulMono(raw, raw', i.efficiency, j.efficiency);
  }

  /**
   * Raising any energy input never lowers the energy or savings figures: the
   * figures grow with traffic, steps, joules per step, efficiency and tariff.
   */
  lemma EnergyMonotone(i: Inputs, j: Inputs)
    requires 0.0 <= i.trafficPerDay <= j.trafficPerDay
    requires 0.0 <= i.stepsPerPerson <= j.stepsPerPerson
    requires 0.0 <= i.joulesPerStep <= j.joulesPerStep
    requires 0.0 <= i.efficiency <= j.efficiency
    requires 0.0 <= i.tariffINR <= j.tariffINR
    ensures var (p, q) := (Calculate(i), Calculate(j));
      && p.rawJoulesDay <= q.rawJoulesDay && p.netJoulesDay <= q.netJoulesDay
      && p.kWhDay <= q.kWhDay && p.kWhMonth <= q.kWhMonth
      && p.dailySavings <= q.dailySavings && p.monthlySavings <= q.monthlySavings
  {
    var (p, q) := (Calculate(i), Calculate(j));
    RawJoulesDayMonotone(i.trafficPerDay, j.trafficPerDay, i.stepsPerPerson, j.stepsPerPerson,
                         i.joulesPerStep, j.joulesPerStep);
    KWhDayMonotone(i, j);
    MulMono(p.kWhDay, q.kWhDay, i.tariffINR, j.tariffINR);
    MulMono(p.kWhMonth, q.kWhMonth, i.tariffINR, j.tariffINR);
  }

  /**
   * Every output for inputs within the slider bounds lies between the outputs
   * for all sliders at their minimum and all at their maximum.
   */
  lemma InRangeBetweenCorners(i: Inputs)
    requires InRange(i)
    ensures var (lo, o, hi) := (Calculate(MinInputs), Calculate(i), Calculate(MaxInputs));
      && lo.capex <= o.capex <= hi.capex
      && lo.rawJoulesDay <= o.rawJoulesDay <= hi.rawJoulesDay
      && lo.netJoulesDay <= o.netJoulesDay <= hi.netJoulesDay
      && lo.kWhDay <= o.kWhDay <= hi.kWhDay
      && lo.kWhMonth <= o.kWhMonth <= hi.kWhMonth
      && lo.dailySavings <= o.dailySavings <= hi.dailySavings
      && lo.monthlySavings <= o.monthlySavings <= hi.monthlySavings
  {
    EnergyMonotone(MinInputs, i);
    EnergyMonotone(i, MaxInputs);
  }

  /**
   * A page with no more tiled area and no lower energy inputs pays back no
   * later: payback grows with the area and shrinks as the savings grow.
   */
  lemma PaybackMonotone(i: Inputs, j: Inputs)
    requires 0.0 <= j.areaSqft <= i.areaSqft
    requires 0.0 <= i.trafficPerDay <= j.trafficPerDay
    requires 0.0 <= i.stepsPerPerson <= j.stepsPerPerson
    requires 0.0 <= i.joulesPerStep <= j.joulesPerStep
    requires 0.0 <= i.efficiency <= j.efficiency
    requires 0.0 <= i.tariffINR <= j.tariffINR
    requires Calculate(i).monthlySavings > 0.0
    ensures Calculate(j).simplePaybackMonths.Some?
    ensures Calculate(j).simplePaybackMonths.value <= Calculate(i).simplePaybackMonths.value
  {
    var (p, q) := (Calculate(i), Calculate(j));
    EnergyMonotone(i, j);
    DivMono(q.capex, p.capex, q.monthlySavings, p.monthlySavings);
  }

  /**
   * Within the slider bounds the payback lies between that of the smallest
   * area with the highest energy inputs (66/19, about 3.5 months) and that of
   * the largest area with the lowest energy inputs (550 million months).
   */
  lemma InRangePaybackBounds(i: Inputs)
    requires InRange(i)
    ensures Calculate(i).simplePaybackMonths.Some?
    ensures 66.0 / 19.0 <= Calculate(i).simplePaybackMonths.value <= 550000000.0
  {
    var fastest := MaxInputs.(areaSqft := MinInputs.areaSqft);
    var slowest := MinInputs.(areaSqft := MaxInputs.areaSqft);
    InRangeOutputsPositive(i);
    PaybackMonotone(i, fastest);
    PaybackMonotone(slowest, i);
  }

  /** The figures for all sliders at their minimum and at their maximum. */
  lemma CornerValues()
    ensures var lo := Calculate(MinInputs);
      && lo.capex == 5500.0 && lo.rawJoulesDay == 100.0 && lo.netJoulesDay == 30.0
      && lo.monthlySavings == 0.001 && lo.simplePaybackMonths == Some(5500000.0)
    ensures var hi := Calculate(MaxInputs);
      && hi.capex == 550000.0 && hi.rawJoulesDay == 10000000.0 && hi.netJoulesDay == 9500000.0
      && hi.monthlySavings == 57000.0 / 36.0 && hi.simplePaybackMonths == Some(6600.0 / 19.0)
  {
  }

  /** The figures the page shows before any slider is moved. */
  lemma DefaultScenario()
    ensures var o := Calculate(DefaultInputs);
      && o.capex == 55000.0 && o.rawJoulesDay == 48000.0 && o.netJoulesDay == 33600.0
      && o.kWhMonth == 0.28 && o.monthlySavings == 2.24
      && o.simplePaybackMonths == Some(171875.0 / 7.0)
  {
  }

  /** A zero tariff saves nothing, so there is no payback. */
  lemma ZeroTariffNoPayback(i: Inputs)
    requires i.tariffINR == 0.0
    ensures Calculate(i).monthlySavings == 0.0
    ensures Calculate(i).simplePaybackMonths == None
  {
  }
}
