/**
 * The state the tile page keeps: the six calculator sliders and the demo
 * tile's click counter and "charged" highlight.
 */
module PiezoPage {
  import opened ImpactCalculator

  class App {
    var areaSqft: real
    var trafficPerDay: real
    var stepsPerPerson: real
    var joulesPerStep: real
    var efficiency: real
    var tariffINR: real
    var liveSteps: nat
    var tileCharged: bool

    /** The slider values as calculator inputs. */
    function CurrentInputs(): Inputs
      reads this
    {
      Inputs(areaSqft, trafficPerDay, stepsPerPerson, joulesPerStep, efficiency, tariffINR)
    }

    /** The range sliders only ever hold values within their bounds. */
    ghost predicate Valid()
      reads this
    {
      InRange(CurrentInputs())
    }

    /** The page as first rendered: default slider values, no clicks, tile not charged. */
    constructor ()
      ensures Valid()
      ensures CurrentInputs() == DefaultInputs
      ensures liveSteps == 0 && !tileCharged
    {
      areaSqft, trafficPerDay, stepsPerPerson := 500.0, 8000.0, 4.0;
      joulesPerStep, efficiency, tariffINR := 1.5, 0.7, 8.0;
      liveSteps, tileCharged := 0, false;
    }

    /** The figures the results card shows: all positive, with a finite payback. */
    function Results(): (o: Outputs)
      reads this
      requires Valid()
      ensures o == Calculate(CurrentInputs())
      ensures o.capex > 0.0 && o.rawJoulesDay > 0.0 && o.netJoulesDay > 0.0
      ensures o.kWhDay > 0.0 && o.kWhMonth > 0.0 && o.dailySavings > 0.0 && o.monthlySavings > 0.0
      ensures o.simplePaybackMonths.Some? && o.simplePaybackMonths.value > 0.0
    {
      InRangeOutputsPositive(CurrentInputs());
      Calculate(CurrentInputs())
    }

    /** A click on the demo tile: one more live step and the tile lights up; the calculator is untouched. */
    method HandleStep()
      requires Valid()
      modifies this`liveSteps, this`tileCharged
      ensures Valid()
      ensures liveSteps == old(liveSteps) + 1
      ensures tileCharged
      ensures CurrentInputs() == old(CurrentInputs())
      ensures Results() == old(Results())
    {
      liveSteps := liveSteps + 1;
      tileCharged := true;
    }

    /** Moving the area slider. */
    method SetAreaSqft(v: real)
      requires Valid()
      requires 50.0 <= v <= 5000.0
      modifies this`areaSqft
      ensures Valid()
      ensures CurrentInputs() == old(CurrentInputs()).(areaSqft := v)
    {
      areaSqft := v;
    }

    /** Moving the foot-traffic slider. */
    method SetTrafficPerDay(v: real)
      requires Valid()
      requires 500.0 <= v <= 100000.0
      modifies this`trafficPerDay
      ensures Valid()
      ensures CurrentInputs() == old(CurrentInputs()).(trafficPerDay := v)
    {
      trafficPerDay := v;
    }

    /** Moving the steps-per-person slider. */
    method SetStepsPerPerson(v: real)
      requires Valid()
      requires 1.0 <= v <= 20.0
      modifies this`stepsPerPerson
      ensures Valid()
      ensures CurrentInputs() == old(CurrentInputs()).(stepsPerPerson := v)
    {
      stepsPerPerson := v;
    }

    /** Moving the energy-per-step slider. */
    method SetJoulesPerStep(v: real)
      requires Valid()
      requires 0.2 <= v <= 5.0
      modifies this`joulesPerStep
      ensures Valid()
      ensures CurrentInputs() == old(CurrentInputs()).(joulesPerStep := v)
    {
      joulesPerStep := v;
    }

    /** Moving the efficiency slider. */
    method SetEfficiency(v: real)
      requires Valid()
      requires 0.3 <= v <= 0.95
      modifies this`efficiency
      ensures Valid()
      ensures CurrentInputs() == old(CurrentInputs()).(efficiency := v)
    {
      efficiency := v;
    }

    /** Moving the tariff slider. */
    method SetTariffINR(v: real)
      requires Valid()
      requires 4.0 <= v <= 20.0
      modifies this`tariffINR
      ensures Valid()
      ensures CurrentInputs() == old(CurrentInputs()).(tariffINR := v)
    {
      tariffINR := v;
    }
  }
}
