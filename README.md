# HAMLET real-time controller components, modelled in Dafny

HAMLET simulates energy-system agents. Each agent owns plants: loads, generators, storage and EVs. At every control step its real-time controller builds a mixed-integer linear model of the plants. This project models the layer that turns one step's data into that model. Each plant component reads three things:

- its forecast value for the step;
- its sizing (capacity, rated power, efficiency, flags);
- for storage: the state of charge (SOC), a target power, and the step length.

From these it computes integer bounds. It then registers named integral variables into the shared model. Storage also registers two deviation-tracking constraints. The constants the components rely on are modelled as well:

- the carrier tags;
- the unit and time conversion factors;
- the plant-tag → carrier → operation-mode table `COMP_MAP`;
- the market → carrier table `TRADED_ENERGY`.

Files and modules:

- `constants.dfy` (`Constants`): the constants and the lookup tables, with lemmas about them.
- `pymath.dfy` (`PyMath`): Python's `min` and `round` over exact reals. `round` is round-half-to-even.
- `registry.dfy` (`Registry`): the shared model, reduced to an append-only registry.
  - The class `LinearModel` holds a `seq<Var>` and a `seq<Constraint>`.
  - It also gives the meaning of an integer assignment: the bounds hold and the constraints are satisfied.
- `lincomps.dfy` (`Lincomps`): the components.
  - Single-variable components: a value datatype `Plant` with one registration method.
  - Bound formulas: pure functions.
  - The two storage families: classes `Ev` and `SimpleBattery`. Their `DefineVariables` records the component type in a field, as `lincomps.py` does.
- `wrappers.dfy` (`Wrappers`): `Option`, `Result` and `Outcome`.

Conventions:

- Forecast values, sizes, SOCs and targets are integers, in the system's integer W/Wh units.
- Efficiency and the step length are reals. The step length is in seconds, as `delta.total_seconds()` gives it.
- `PhysicalStorage` names the inputs for which the bound formulas have a physical meaning: `0 <= soc <= capacity`, `0 <= power`, `0 < efficiency`, `0 < step`.
- The code does not check these inputs. So every range property is stated under this predicate, and `EvBounds` and `BatteryBounds` accept every input. `MaxCharge` requires a non-zero efficiency and step, and `MaxDischarge` a non-zero step; the two bounds functions check these before calling them.

Behaviour of the code that a reader might not expect, and that the model keeps:

- **Step length.** The charging and discharging limits are energy divided by the step length in hours. For a non-negative headroom (for charging) or SOC (for discharging), a longer step therefore never *raises* them. The code does not validate its inputs, so outside that range a negative energy divided by a longer step moves the limit up, towards 0.
  - `MaxChargeAntitoneInStep` and `MaxDischargeAntitoneInStep` prove this.
  - So a claim that the bounds grow with the step length would not hold of the code.
- **No validation.** The code raises no bounds error for an out-of-range SOC or for `lower > upper`. Only the division by zero that Python itself raises is modelled, as `ZeroDivision`.
- **Battery discharge flag.** Generic storage always gets the discharge formula. `b2g` and `g2b` are stored but unused.
- **Tracking variables.** Storage always registers the target and deviation variables, not only when a target is given.
- **Heat storage carrier.** `COMP_MAP` enters heat storage on electricity.
- **Unfinished plants.** Heat pump, flexible load and heat storage define no variables, so the base class raises `NotImplementedError`.

## Model

| member | source | states |
|---|---|---|
| `Constants.CarrierTagsDistinct` | hamlet/constants.py:50-53 | electricity is tagged `power` and heat `heat`; the four carrier tags are pairwise distinct |
| `Constants.ConversionInverses` | hamlet/constants.py:18-46 | each unit, time and money factor times its inverse is exactly 1, e.g. SECONDS_TO_HOURS·HOURS_TO_SECONDS and WH_TO_MWH·MWH_TO_WH |
| `Constants.TimeConversionsCompose` | hamlet/constants.py:30-41 | the time factors compose: seconds→minutes→hours is seconds→hours, and likewise through hours to days and back |
| `Constants.PercentE5Swapped` | hamlet/constants.py:20-27 | as written, percent→fraction→E5 multiplies by 1000, which is `E5_TO_PERCENT` and not `PERCENT_TO_E5`; the reverse composition gives `PERCENT_TO_E5` |
| `Constants.IntendedPercentE5Compose` | hamlet/constants.py:20-27 | the intended factors 1000 (percent to E5) and 0.001 (E5 to percent) agree with going through fractions and are inverse to each other |
| `Constants.PlantTagsDistinct` | hamlet/constants.py:145-157 | there are 13 plant tags and they are pairwise distinct |
| `Constants.CompMapCoversPlantTags` | hamlet/constants.py:162-181 | COMP_MAP has an entry for every plant tag and for nothing else |
| `Constants.CompMapEntriesWellTyped` | hamlet/constants.py:162-181 | every COMP_MAP entry is non-empty, uses only carrier tags as keys, and uses only operation modes as values |
| `Constants.HeatPumpOnlyHybrid` | hamlet/constants.py:180 | `hp` maps electricity to load and heat to generation; every other entry has exactly one carrier |
| `Constants.ElectricityEntries` | hamlet/constants.py:164-172 | ev, battery, psh and hydrogen are electricity storage; pv, wind and fixed_gen are electricity generation; both load tags are electricity load |
| `Constants.HeatEntries` | hamlet/constants.py:175-177 | heat and dhw are heat loads; heat_storage is entered as electricity storage |
| `Constants.TradedEnergyEntries` | hamlet/constants.py:65-71 | lem and lfm trade electricity, lhm heat, lcm cold and lh2m hydrogen; every traded energy is a carrier |
| `PyMath.Min` | hamlet/executor/utilities/controller/rtc/lincomps.py:239-240 | `min` returns one of its arguments and is below both |
| `PyMath.Round` | hamlet/executor/utilities/controller/rtc/lincomps.py:239-240 | `round` returns an integer within one half of its argument; when there is a tie the integer is even |
| `PyMath.RoundOfInt` | hamlet/executor/utilities/controller/rtc/lincomps.py:245-246 | rounding an integer (a rated power chosen by `min`) returns it unchanged; `MaxChargeAtRating` and `MaxDischargeAtRating` use it |
| `PyMath.RoundMonotone` | hamlet/executor/utilities/controller/rtc/lincomps.py:313-314 | rounding preserves order |
| `PyMath.RoundOdd` | hamlet/executor/utilities/controller/rtc/lincomps.py:315-316 | a fact about `round`: round-half-to-even commutes with negation, so `-round(m)` is `round(-m)`; `BatteryLowerRoundsSigned` uses it |
| `PyMath.RoundExamples` | hamlet/executor/utilities/controller/rtc/lincomps.py:239-240 | plain facts about `round`: 0.5, 1.5, 2.5 and -2.5 round to 0, 2, 2 and -2 |
| `Registry.LinearModel.AddVariable` | hamlet/executor/utilities/controller/rtc/lincomps.py:30 | appends exactly one variable record and leaves the constraints alone |
| `Registry.LinearModel.AddConstraint` | hamlet/executor/utilities/controller/rtc/lincomps.py:284-285 | appends exactly one named constraint and leaves the variables alone |
| `Registry.Find` | hamlet/executor/utilities/controller/rtc/lincomps.py:276-278 | a name lookup returns the index of the last variable with that name, or nothing exactly when no variable has the name |
| `Registry.DeclaresAppend` | hamlet/executor/utilities/controller/rtc/lincomps.py:253-271 | after appending, a name is declared exactly when it was declared before or by the appended part |
| `Lincomps.VarName` | hamlet/executor/utilities/controller/rtc/lincomps.py:30 | the name has the plant name, an underscore, the component type, an underscore and the attribute, in that order and nothing else |
| `Lincomps.VarNameAttributeInjective` | hamlet/executor/utilities/controller/rtc/lincomps.py:28-38 | one component's names differ whenever their suffixes differ, so its `_power` and `_heat` names never clash |
| `Lincomps.VarNameInjective` | hamlet/executor/utilities/controller/rtc/lincomps.py:30 | if plant names contain no underscore, `{name}_{comp_type}_{carrier}` determines both the name and the component type; the component type may contain underscores |
| `Lincomps.VarNameAmbiguous` | hamlet/executor/utilities/controller/rtc/lincomps.py:30 | without that restriction, two different name and component-type pairs give the same variable name |
| `Lincomps.DefineElectricityVariable` | hamlet/executor/utilities/controller/rtc/lincomps.py:28-32 | registers exactly `{name}_{comp_type}_power`, integral, with the given bounds; nothing else changes |
| `Lincomps.DefineHeatVariable` | hamlet/executor/utilities/controller/rtc/lincomps.py:34-38 | registers exactly `{name}_{comp_type}_heat`, integral, with the given bounds; nothing else changes |
| `Lincomps.GeneratorBounds` | hamlet/executor/utilities/controller/rtc/lincomps.py:155-157 | the upper bound is the forecast; a controllable generator can be curtailed to 0; the bounds are pinned exactly when the plant is not controllable or the forecast is 0; a non-negative forecast gives `0 <= lower <= upper` |
| `Lincomps.PlantVariable` | hamlet/executor/utilities/controller/rtc/lincomps.py:21-163 | flexible load, heat pump and heat storage give NotImplemented and nothing else fails; every variable is integral; market and balancing are named `{name}_{energy_type}` with symmetric bounds; loads and generators are named `…_power` with the forecast as upper bound; heat demands are named `…_heat` and pinned at the forecast |
| `Lincomps.DefinePlantVariables` | hamlet/executor/utilities/controller/rtc/lincomps.py:21-163 | a single-variable component appends its one variable, or fails with NotImplemented and leaves the model unchanged; it never adds a constraint |
| `Lincomps.InflexibleLoadPinned` | hamlet/executor/utilities/controller/rtc/lincomps.py:87-95 | an inflexible load registers one integral electricity variable with `lower == upper ==` its forecast power |
| `Lincomps.HeatDemandsPinned` | hamlet/executor/utilities/controller/rtc/lincomps.py:117-144 | space heat and hot water each register one integral heat variable with `lower == upper ==` their forecast |
| `Lincomps.GeneratorVariable` | hamlet/executor/utilities/controller/rtc/lincomps.py:159-163 | PV, wind and fixed generation register `_power` with `upper` equal to the forecast; `lower` is 0 if controllable and the forecast otherwise; the bounds are well-formed when the forecast is non-negative |
| `Lincomps.BoundaryVariables` | hamlet/executor/utilities/controller/rtc/lincomps.py:49-74 | the market registers `{name}_{energy_type}` pinned at 0; balancing registers it in `[-10000000000, 10000000000]` |
| `Lincomps.UnsupportedPlants` | hamlet/executor/utilities/controller/rtc/lincomps.py:21-22 | exactly flexible load, heat pump and heat storage fail, with NotImplemented |
| `Lincomps.Hours` | hamlet/executor/utilities/controller/rtc/lincomps.py:240 | the step length in hours times 3600 is the step in seconds; it is 0 exactly when the step is 0 (the zero divisor) and positive for a positive step |
| `Lincomps.MaxCharge` | hamlet/executor/utilities/controller/rtc/lincomps.py:239-240 | for physical inputs, the charging limit lies between 0 and the rated power |
| `Lincomps.MaxDischarge` | hamlet/executor/utilities/controller/rtc/lincomps.py:245-246 | for physical inputs, the discharging limit lies between 0 and the rated power |
| `Lincomps.EvBounds` | hamlet/executor/utilities/controller/rtc/lincomps.py:231-251 | an unavailable EV is pinned at 0 whatever its other inputs; otherwise the bounds fail with ZeroDivision exactly when efficiency or step is 0; without v2g the lower bound is 0; for physical inputs `-power <= lower <= 0 <= upper <= power` |
| `Lincomps.BatteryBounds` | hamlet/executor/utilities/controller/rtc/lincomps.py:307-316 | the bounds fail with ZeroDivision exactly when efficiency or step is 0; for physical inputs `-power <= lower <= 0 <= upper <= power`, with no availability or discharge gate |
| `Lincomps.EvLikeBattery` | hamlet/executor/utilities/controller/rtc/lincomps.py:237-248 | an available EV with v2g gets exactly the battery bounds for the same capacity, SOC, power, efficiency and step |
| `Lincomps.MaxChargeAtRating` | hamlet/executor/utilities/controller/rtc/lincomps.py:239-240 | if the headroom is at least power·efficiency·hours, the charging limit is exactly the rated power |
| `Lincomps.MaxDischargeAtRating` | hamlet/executor/utilities/controller/rtc/lincomps.py:315-316 | if power·hours is at most soc·efficiency, the discharging limit is exactly the rated power |
| `Lincomps.MaxChargeNoOverfill` | hamlet/executor/utilities/controller/rtc/lincomps.py:313-314 | charging at the upper bound for the whole step overfills by at most half a unit of rounding |
| `Lincomps.MaxDischargeNoOverdrain` | hamlet/executor/utilities/controller/rtc/lincomps.py:245-246 | discharging at the limit for the whole step takes out at most half a unit of rounding beyond what is stored |
| `Lincomps.MaxChargeMonotoneInHeadroom` | hamlet/executor/utilities/controller/rtc/lincomps.py:234-240 | more energy-to-full never lowers the charging limit |
| `Lincomps.MaxChargeAntitoneInStep` | hamlet/executor/utilities/controller/rtc/lincomps.py:309-314 | for a non-negative headroom and positive efficiency, a longer step never raises the charging limit |
| `Lincomps.MaxDischargeMonotoneInSoc` | hamlet/executor/utilities/controller/rtc/lincomps.py:231-246 | a higher SOC never lowers the discharging limit |
| `Lincomps.MaxDischargeAntitoneInStep` | hamlet/executor/utilities/controller/rtc/lincomps.py:307-316 | for a non-negative SOC and non-negative efficiency, a longer step never raises the discharging limit |
| `Lincomps.BatteryLowerRoundsSigned` | hamlet/executor/utilities/controller/rtc/lincomps.py:315-316 | the lower bound, written `-round(m)`, equals `round(-m)`: rounding the signed discharge power once gives the same integer |
| `Lincomps.BatteryWorkedExample` | hamlet/executor/utilities/controller/rtc/lincomps.py:313-316 | capacity 10000, SOC 8000, power 5000, efficiency 0.95, 900 s give bounds `[-5000, 5000]` |
| `Lincomps.EvHeadroomExample` | hamlet/executor/utilities/controller/rtc/lincomps.py:234-248 | an EV 100 Wh short of full, without v2g, gets bounds `[0, 421]` (round of 421.05…) |
| `Lincomps.DeviationConstraints` | hamlet/executor/utilities/controller/rtc/lincomps.py:273-285 | two constraints, named `{name}_deviation_pos` and `{name}_deviation_neg`, over only the four storage variables; their meaning is stated by `AsWrittenForcesPowerAtLeastTarget` |
| `Lincomps.IntendedDeviationConstraints` | hamlet/executor/utilities/controller/rtc/lincomps.py:276-285 | keeps the positive-deviation constraint as written and the name of the negative one, and replaces the negative one's body; only the four storage variables occur; `IntendedAdmitsEveryDispatch` and `IntendedDeviationsCoverGap` state its meaning |
| `Lincomps.Rendered` | hamlet/executor/utilities/controller/rtc/lincomps.py:212 | a recorded component type renders as itself; the result is `None` exactly when no type was recorded or the type is literally `None` |
| `Lincomps.StorageVariables` | hamlet/executor/utilities/controller/rtc/lincomps.py:253-271 | storage registers four integral variables |
| `Lincomps.StorageVariablesWellFormed` | hamlet/executor/utilities/controller/rtc/lincomps.py:318-336 | all four bound pairs (power, target, deviation_pos, deviation_neg) are well-formed exactly when `lower <= target <= upper` |
| `Lincomps.StorageNamesDistinct` | hamlet/executor/utilities/controller/rtc/lincomps.py:257-269 | the names `_power`, `_target`, `_deviation_pos` and `_deviation_neg` are pairwise distinct |
| `Lincomps.AsWrittenForcesPowerAtLeastTarget` | hamlet/executor/utilities/controller/rtc/lincomps.py:280-282 | with the constraints as written, every assignment that respects the bounds and constraints has `power >= target` |
| `Lincomps.AsWrittenAdmitsAtOrAboveTarget` | hamlet/executor/utilities/controller/rtc/lincomps.py:276-285 | conversely, under the as-written constraints every dispatch between the target and the upper bound is feasible, with deviation_pos the overshoot and deviation_neg 0; so the as-written constraints admit exactly the dispatches at or above the target |
| `Lincomps.AsWrittenRejectsDischarge` | hamlet/executor/utilities/controller/rtc/lincomps.py:280-282 | an EV allowed down to -5000 with target 0 has no feasible assignment at power -1; lines 345-347 write the same constraint for `SimpleBattery` |
| `Lincomps.IntendedAdmitsEveryDispatch` | hamlet/executor/utilities/controller/rtc/lincomps.py:263-269 | with the corrected constraints, every power in `[lower, upper]` is feasible, with deviations `max(0, p - target)` and `max(0, target - p)` |
| `Lincomps.IntendedDeviationsCoverGap` | hamlet/executor/utilities/controller/rtc/lincomps.py:328-334 | with the corrected constraints, `deviation_pos >= power - target` and `deviation_neg >= target - power`, so the two sum to at least the absolute gap |
| `Lincomps.MissingLookup` | hamlet/executor/utilities/controller/rtc/lincomps.py:276-282 | returns the first of the four looked-up names (power, target, deviation_pos, deviation_neg, in that order) that the model lacks; any name it returns is one of those four and is undeclared; it returns nothing exactly when all four are declared |
| `Lincomps.ConstraintLookupsSucceed` | hamlet/executor/utilities/controller/rtc/lincomps.py:253-287 | after the storage variables are appended, none of the four lookups that `define_constraints` makes can fail |
| `Lincomps.DefineStorageVariables` | hamlet/executor/utilities/controller/rtc/lincomps.py:257-269 | appends exactly the four storage variables in source order; the constraints are unchanged |
| `Lincomps.DefineDeviationConstraints` | hamlet/executor/utilities/controller/rtc/lincomps.py:341-350 | if a looked-up name is missing, fails with MissingVariable naming the first missing one in lookup order and changes nothing; otherwise appends exactly the two as-written constraints `{name}_deviation_pos` and `{name}_deviation_neg` |
| `Lincomps.DefineIntendedDeviationConstraints` | hamlet/executor/utilities/controller/rtc/lincomps.py:280-285 | the same lookups and failure, but appends the corrected constraints |
| `Lincomps.Ev.constructor` | hamlet/executor/utilities/controller/rtc/lincomps.py:206-251 | the SOC is the snapshot minus the forecast consumption; energy-to-full is capacity minus SOC; the bounds are `EvBounds` with home charging as the rated power |
| `Lincomps.Ev.DefineVariables` | hamlet/executor/utilities/controller/rtc/lincomps.py:253-271 | records the component type; appends exactly the four storage variables; the constraints are unchanged |
| `Lincomps.Ev.DefineConstraints` | hamlet/executor/utilities/controller/rtc/lincomps.py:273-287 | looks up names using the recorded component type (`None` if unset); appends the two as-written constraints or fails and changes nothing; the variables are unchanged |
| `Lincomps.SimpleBattery.constructor` | hamlet/executor/utilities/controller/rtc/lincomps.py:292-316 | stores the sizing, including the unused b2g and g2b flags; the bounds are `BatteryBounds` of capacity, SOC, power, efficiency and step |
| `Lincomps.SimpleBattery.DefineVariables` | hamlet/executor/utilities/controller/rtc/lincomps.py:318-336 | records the component type; appends exactly the four storage variables; the constraints are unchanged |
| `Lincomps.SimpleBattery.DefineConstraints` | hamlet/executor/utilities/controller/rtc/lincomps.py:338-352 | looks up names using the recorded component type; appends the two as-written constraints or fails and changes nothing |
| `Lincomps.RegisterEv` | hamlet/executor/utilities/controller/rtc/lincomps.py:253-287 | calling `define_variables` and then `define_constraints` on one EV always succeeds; it records the component type and adds the four variables and the two constraints |
| `Lincomps.RegisterBattery` | hamlet/executor/utilities/controller/rtc/lincomps.py:318-352 | calling `define_variables` and then `define_constraints` on one model always succeeds; it records the component type and adds the four variables and the two constraints |

## Findings

| source | as written | input that shows it | evidently intended | confidence | as-written member | corrected member |
|---|---|---|---|---|---|---|
| hamlet/executor/utilities/controller/rtc/lincomps.py:280-282 | `power - target >= deviation_neg`, with `deviation_neg` bounded below by 0 | EV with bounds `[-5000, 5000]`, target 0, dispatch power -1: no value of `deviation_neg` satisfies the constraint, so any discharge below the target is infeasible | `deviation_neg >= target - power`, written `target - power <= deviation_neg`. The comment above the variable reads "Deviation when less is discharged than according to target" (lines 267 and 332). Storage counts as a load, so discharging is negative power, and read literally that is `power > target`, the side `deviation_pos` already covers; the comment is ambiguous or a slip. The orientation rests instead on the variable's upper bound `target - lower` (lines 269 and 334), which is the largest value of `target - power` and fits only `deviation_neg >= target - power` | high; not executed | `Lincomps.AsWrittenRejectsDischarge` | `Lincomps.IntendedAdmitsEveryDispatch` |
| hamlet/constants.py:26-27 | `PERCENT_TO_E5 = 1e-3`, `E5_TO_PERCENT = 1e3` | 1 % is 0.01 as a fraction (`PERCENT_TO_FRACTION`), which is 1000 E5 units (`FRACTION_TO_E5`), not 0.001 | `PERCENT_TO_E5 = 1e3` and `E5_TO_PERCENT = 1e-3`: the two values look swapped | medium; not executed | `Constants.PercentE5Swapped` | `Constants.IntendedPercentE5Compose` |

No component in this model reads the percent/E5 factors. The corrected values are `INTENDED_PERCENT_TO_E5` and `INTENDED_E5_TO_PERCENT`.

The deviation defect is also at `lincomps.py` lines 345-347, for `SimpleBattery`. The classes `Ev` and `SimpleBattery` register the constraints as written, because they model `lincomps.py` as written. `DefineIntendedDeviationConstraints` is the corrected registration. `IntendedDeviationsCoverGap` proves what its slacks then measure.

## Left out

- The linopy model itself is left out: solving, objectives, and its own checks, e.g. that a name is not registered twice. It is modelled only as an append-only registry.
- Lookups of the forecast frame, sizing dict and keyword arguments are left out. The model passes their values in as scalars. So the `KeyError` for a missing forecast, sizing, SOC or target key is not modelled.
- Floating point is left out. `/`, `*` and `round` are exact over reals. Near a rounding tie, Python floats may round differently.
- Forecasts, targets and sizes are integers. A non-integral forecast or target is not modelled.
- The EV's `charging_AC`, `charging_DC` and `charging_scheme` are read but never used, so they are not modelled.
- The `print` calls in the FlexibleLoad, Hp and HeatStorage constructors are left out. The heat pump's COP is kept as data only.
- The base `define_constraints` (lines 24-26) returns the model unchanged. This no-op has no member of its own.
- `Pv`, `Wind` and `FixedGen` add nothing to `SimplePlant`; they appear only as its `Generator` kind. `Battery`, `Psh` and `Hydrogen` add nothing to `SimpleBattery` and are that class.
- EV availability is read from the forecast as a number and used by truthiness. It is modelled as a boolean.
- Lincomps.Ev.constructor: requires a non-zero efficiency and step when the EV is available. There Python raises `ZeroDivisionError` and no object exists. The error itself is modelled by `Lincomps.EvBounds`.
- Lincomps.SimpleBattery.constructor: requires a non-zero efficiency and step, for the same reason. The error is modelled by `Lincomps.BatteryBounds`.
- The claim that the balancing bound dominates the sum of all other bounds is not proved. It holds only when the other bounds sum to at most 10000000000, and nothing in the code ensures that.
- The keys, table and column names of `constants.py` are not modelled (lines 5-14, 80-142). Other parts of the system use them, not these components.
- The rest of the repository is not part of this model: agent creation, forecasting, markets and the industry agent.
