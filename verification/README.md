# Piezo-Tiles Impact Calculator, in Dafny

This project models the logic of the Piezo-Tiles demo page, a single React
page that presents an electricity-generating floor tile. The page does two
things that have any logic:

- **The Impact Calculator.** It takes six slider values: area in sq ft,
  foot traffic in people per day, steps per person, joules per step,
  system efficiency and the tariff in ₹/kWh. From them it derives a fixed
  chain of figures: capital cost (₹110 per sq ft), raw and net joules per
  day, kWh per day and per month (30 days), daily and monthly savings, and
  a simple payback period in months. The payback is Infinity when the
  monthly savings are not positive.
- **The demo tile.** Each click adds one to a live step counter and raises
  a "charged" highlight.

Modules:

- `Wrappers` (`wrappers.dfy`) holds `Option`. `None` stands for the
  page's `Infinity` payback.
- `ImpactCalculator` (`impact_calculator.dfy`) mirrors the page's
  `useMemo` values with one function per conversion step. `Savings` is
  used twice: it gives the daily savings from the daily kWh and the
  monthly savings from the monthly kWh. `Calculate`
  produces them all as an `Outputs` record. The lemmas cover sign,
  ordering, bounds and concrete scenarios. Every quantity is an exact
  `real`.
- `PiezoPage` (`piezo_page.dfy`) has the class `App`, which holds the
  page's `useState` fields: the six slider values, `liveSteps` and
  `tileCharged`. Its methods are the click handler and the six slider
  `onChange` setters. Its invariant `Valid()` says that the sliders stay
  within their bounds.

## Model

| member | source | states |
|---|---|---|
| `ImpactCalculator.Capex` | src/piezo.jsx:31-32 | Capital cost divided by ₹110/sq ft gives back the area. The cost is positive exactly when the area is positive. |
| `ImpactCalculator.RawJoulesDay` | src/piezo.jsx:35 | Daily raw joules are zero when traffic, steps or joules per step is zero. They are positive when all three are positive. |
| `ImpactCalculator.NetJoulesDay` | src/piezo.jsx:36 | With an efficiency in [0, 1], net joules lie between 0 and the raw joules, so losses never create energy. They are positive when raw joules and efficiency are positive. |
| `ImpactCalculator.KWhDay` | src/piezo.jsx:37 | Daily kWh times 3,600,000 gives back the net joules. |
| `ImpactCalculator.KWhMonth` | src/piezo.jsx:38 | Monthly kWh divided by 30 gives back the daily kWh. |
| `ImpactCalculator.Savings` | src/piezo.jsx:39-40 | Gives both daily savings (from daily kWh) and monthly savings (from monthly kWh). Savings are positive exactly when energy and tariff have the same strict sign. |
| `ImpactCalculator.SavingsRoundTrip` | src/piezo.jsx:39-40 | For a non-zero tariff, savings divided by the tariff give back the kWh. |
| `ImpactCalculator.SimplePaybackMonths` | src/piezo.jsx:41 | The payback is defined iff monthly savings > 0 (otherwise `None`, the page's Infinity). When defined, payback × monthly savings = capex. It is positive when capex is positive. |
| `ImpactCalculator.Calculate` | src/piezo.jsx:30-41 | The whole chain. Capex = area × 110. Raw joules = traffic × steps × J/step, and net joules = raw joules × efficiency = traffic × steps × J/step × efficiency. Net joules = kWhDay × 3,600,000. Daily savings = kWhDay × tariff and monthly savings = kWhMonth × tariff. kWhMonth = 30 × kWhDay and monthly savings = 30 × daily savings, exactly. The payback is defined iff monthly savings > 0, and then payback × monthly savings = capex. |
| `ImpactCalculator.InRangeOutputsPositive` | src/piezo.jsx:152-177 | For every input within the six slider bounds, every output is strictly positive and the payback is defined and positive. |
| `ImpactCalculator.RawJoulesDayMonotone` | src/piezo.jsx:35 | Raw daily joules are non-negative and never fall when traffic, steps or joules per step rise (all non-negative). |
| `ImpactCalculator.KWhDayMonotone` | src/piezo.jsx:35-37 | Daily kWh is non-negative and never falls when traffic, steps, joules per step or efficiency rise. |
| `ImpactCalculator.EnergyMonotone` | src/piezo.jsx:35-40 | Raising traffic, steps, joules per step, efficiency or tariff (all non-negative) never lowers raw or net joules, daily or monthly kWh, or daily or monthly savings. |
| `ImpactCalculator.InRangeBetweenCorners` | src/piezo.jsx:152-177 | For inputs within the slider bounds, every figure except the payback lies between its value with all sliders at minimum and its value with all sliders at maximum. |
| `ImpactCalculator.PaybackMonotone` | src/piezo.jsx:32-41 | With no more area and no lower energy inputs, the payback comes no later. |
| `ImpactCalculator.InRangePaybackBounds` | src/piezo.jsx:152-177 | Within the slider bounds the payback is at least 66/19 months and at most 550,000,000 months. |
| `ImpactCalculator.CornerValues` | src/piezo.jsx:152-177 | The exact figures at the two corners. Minimum: capex 5,500, 100 J raw, 30 J net, ₹0.001/month, payback 5,500,000 months. Maximum: capex 550,000, 10,000,000 J raw, 9,500,000 J net, ₹57000/36 per month, payback 6600/19 months. |
| `ImpactCalculator.DefaultScenario` | src/piezo.jsx:23-41 | Default inputs (500, 8000, 4, 1.5, 0.7, 8) give capex 55,000, raw joules 48,000, net joules 33,600, 0.28 kWh/month, ₹2.24/month savings and a payback of 171875/7 (about 24,554) months. |
| `ImpactCalculator.ZeroTariffNoPayback` | src/piezo.jsx:40-41 | With a zero tariff the monthly savings are 0 and the payback is `None`. |
| `PiezoPage.App.constructor` | src/piezo.jsx:23-45 | The page starts with the default slider values, 0 live steps and the tile not charged. The slider invariant holds. |
| `PiezoPage.App.Results` | src/piezo.jsx:32-41 | The figures on the results card are the calculator applied to the current sliders. All seven figures are strictly positive and the payback is finite and positive. |
| `PiezoPage.App.HandleStep` | src/piezo.jsx:44-49 | A click raises `liveSteps` by exactly 1 and sets `tileCharged`. The slider values and every calculator output are unchanged. |
| `PiezoPage.App.SetAreaSqft` | src/piezo.jsx:152 | The area slider takes the new value (50 to 5000). No other slider changes. |
| `PiezoPage.App.SetTrafficPerDay` | src/piezo.jsx:157 | The traffic slider takes the new value (500 to 100000). No other slider changes. |
| `PiezoPage.App.SetStepsPerPerson` | src/piezo.jsx:162 | The steps slider takes the new value (1 to 20). No other slider changes. |
| `PiezoPage.App.SetJoulesPerStep` | src/piezo.jsx:167 | The joules-per-step slider takes the new value (0.2 to 5). No other slider changes. |
| `PiezoPage.App.SetEfficiency` | src/piezo.jsx:172 | The efficiency slider takes the new value (0.3 to 0.95). No other slider changes. |
| `PiezoPage.App.SetTariffINR` | src/piezo.jsx:177 | The tariff slider takes the new value (4 to 20). No other slider changes. |

The code neither rejects nor clamps out-of-range values; only the range
inputs bound them. So the calculator functions accept any real, and only the
slider setters require the slider's bounds, because a range input only ever
emits values inside them.

## Left out

- Rendering is left out because it is presentation with no logic. This
  covers the JSX layout, the `InfoCard`/`Stat`/`Field`/`FlowItem`
  components, framer-motion animation and the contact form.
- The 400 ms `setTimeout` that resets `tileCharged` to false is left out.
  It is event-loop timing. After `HandleStep` the model's tile stays
  charged until something else changes it.
- Number and currency formatting are left out because they are Intl
  library calls. This covers `toLocaleString("en-IN")`, `toFixed` and the
  "—" shown for a non-finite payback; `None` carries the latter.
- `parseInt`/`parseFloat` of the slider strings and the slider step grid
  are left out. The values arrive already parsed as reals, and every
  property is proved for all reals within the bounds, not only grid
  points.
- IEEE-754 double rounding is left out. The arithmetic is exact `real`,
  so identities such as monthly savings = 30 × daily savings hold exactly
  here. In the page they hold only up to rounding.
- src/index.js (the React DOM bootstrap) is not part of this model.
