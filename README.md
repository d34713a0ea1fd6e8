# Transactive-control device models in Dafny

This project models the demand-prediction core of the transactive-control utilities of a building-controls application:

- **The composite air-handling-unit and chiller model** (`ahuchiller`). It owns a `Fan` and a `CoolingCoil`.
  - The fan has a cubic power curve. Its coefficient group is chosen by the key nearest to a grouping measurement.
  - The coil's load is either measured (real time) or scheduled. The scheduled load depends on an economizer decision.
  - Both loads are capped at zero and converted to a power as `|load| / cop / 0.9`.
  - The total power is the coil power plus the fan power floored at zero.
  - A control-mode fork decides what a zone load writes. A variable-air-volume unit writes the air flow; a constant-volume unit writes the discharge temperature.
- **The regression thermostat model** (`Thermostat`).
  - It ingests telemetry into fields one at a time and keeps an error flag.
  - It predicts a 50-point demand curve over an evenly spaced sweep of cooling setpoints from `csp - 2` to `csp + 2`, through a linear model indexed by the hour of day.
- **The model registry** (`Model`).
  - It walks a configuration list and splits each `model_type` on `"."` into a family and a class name.
  - It resolves the pair through a closed table of model kinds, builds the model and stores it under the entry's topic.
  - It routes `get_q` to the stored model, or answers 0 for an unknown topic.

Files:

- `common.dfy` (module `Common`) holds `Option`, `Result`, `Lookup`, `Min`, `Max` and `Abs`, and the lemmas `ScaleMonotone` (a non-negative factor preserves order) and `ZeroProduct` (a product is zero exactly when a factor is).
- `ahuchiller.dfy` (module `AhuChillerModels`) holds the classes `Fan`, `CoolingCoil` and `AhuChiller` and their lemmas.
- `thermostat.dfy` (module `ThermostatModels`) holds the class `Thermostat`, the setpoint sweep and their lemmas.
- `model_frame.dfy` (module `ModelFrame`) holds splitting and resolution of the model type, the specification of a configuration walk (`Built`, `Inserted`, `Configured`) and the class `Registry`.

Objects whose fields the source updates are Dafny classes, and their state-changing methods carry `modifies` frames. Fields written once in a constructor are `const`. Numbers are `real`. The source raises exceptions; a `Result` or an `Option` error value stands for each one. In four places the model follows the code as written, even where that looks unintended:

- **Partial updates.** A missing key in the thermostat's `update_data` or in `equipment_configuration` leaves the fields assigned before it changed.
- **Partial registry.** A failing configuration entry leaves the earlier models stored.
- **Coil configuration frozen at construction.** The coil keeps the economizer settings the owner had when the coil was built. `equipment_configuration` never refreshes them.
- **A jump at the economizer limit.** With an economizer, a discharge setpoint below the limit and flow · cp > 0, the scheduled load below the limit runs along the outdoor-air line that ends at flow · cp · (setpoint − limit). At the limit the load is the capped mixed-air one. It meets the end of the line only when the minimum outdoor-air fraction is 1 or the limit equals the zone setpoint; otherwise the load jumps (`LoadJumpsAtLimit`). With the setpoint at or above the limit the outdoor-air branch is never taken. The load then jumps at the setpoint instead: it is 0 below it and the capped mixed-air load from it on, which is below 0 exactly when the mixed air at the setpoint is warmer than the setpoint (`JumpAtSetpoint`). `LimitAgreement` compares the two uncapped formulas, and `LimitJumpExample` gives numbers.

## Model

| member | source | states |
|---|---|---|
| AhuChillerModels.FanSection | GridServices/TransactiveControl/transactive_utils/models/ahuchiller.py:165-166 | the fan reads the "fan" sub-dictionary when there is one, and the top level otherwise |
| AhuChillerModels.CoilSection | GridServices/TransactiveControl/transactive_utils/models/ahuchiller.py:217-218 | the coil reads the "coil" sub-dictionary when there is one, and the top level otherwise |
| AhuChillerModels.MissingEquipmentKey | GridServices/TransactiveControl/transactive_utils/models/ahuchiller.py:119-124 | no required key is missing exactly when supply_air_setpoint, building_chiller, nominal_zone_setpoint and has_economizer are present, and economizer_limit is present whenever has_economizer holds; otherwise the result names one of those keys |
| AhuChillerModels.InitModel | GridServices/TransactiveControl/transactive_utils/models/ahuchiller.py:180-192 | a given table is stored unchanged; without one, initialisation succeeds exactly when c0..c3 are all present, and then yields the single group keyed 100 (the failure is the process exit) |
| AhuChillerModels.Nearest | GridServices/TransactiveControl/transactive_utils/models/ahuchiller.py:202 | the result is an index of the table whose key is at least as near the measurement as every key, and every earlier key is strictly farther (Python's `min` returns the first minimum) |
| AhuChillerModels.SelectGroup | GridServices/TransactiveControl/transactive_utils/models/ahuchiller.py:198-203 | a one-group table selects its only group whatever the measurement; otherwise the first nearest key is selected |
| AhuChillerModels.SelectAsWritten | GridServices/TransactiveControl/transactive_utils/models/ahuchiller.py:198-203 | the selection as written fails on every table; with one group it fails by indexing the dictionary with a coefficient record |
| AhuChillerModels.Fan.constructor | GridServices/TransactiveControl/transactive_utils/models/ahuchiller.py:164-178 | the grouping attribute is the configured one, the default grouping value is 20 when absent, the table is what `init_model` stores, and c0..c3 start at 0 |
| AhuChillerModels.Fan.UpdateCurrentCoefficients | GridServices/TransactiveControl/transactive_utils/models/ahuchiller.py:194-207 | it succeeds exactly when the table is non-empty, and then c0..c3 are the coefficients of the group `SelectGroup` picks for the reading (the default value when the reading is unset); an empty table changes nothing |
| AhuChillerModels.Fan.CalculatePower | GridServices/TransactiveControl/transactive_utils/models/ahuchiller.py:209-212 | the fan power at the owner's flow m is the cubic c0 + c1·m + c2·m² + c3·m³ of the current coefficients (`Polynomial`), stated in Horner form c0 + m·(c1 + m·(c2 + m·c3)) |
| AhuChillerModels.PolynomialHorner | GridServices/TransactiveControl/transactive_utils/models/ahuchiller.py:211 | the power curve equals its Horner form, an independent definition |
| AhuChillerModels.FlatConfigIsSingleGroup | GridServices/TransactiveControl/transactive_utils/models/ahuchiller.py:180-200 | a flat c0..c3 configuration is stored as the single group keyed 100, and every measurement selects it |
| AhuChillerModels.SelectionCounterexample | GridServices/TransactiveControl/transactive_utils/models/ahuchiller.py:198-203 | on the documented table with keys 20, 60 and 100 grouped by "oad", the selection as written fails, while the intended selection picks key 20 at measurement 20 and key 100 at measurement 85 |
| AhuChillerModels.SelectionTieGoesToFirst | GridServices/TransactiveControl/transactive_utils/models/ahuchiller.py:202 | of two equally near keys, the one earlier in the table is selected |
| AhuChillerModels.CoolingCoil.constructor | GridServices/TransactiveControl/transactive_utils/models/ahuchiller.py:216-229 | cpAir defaults to 0.0003148 and cop (under the key "cop") to 5.5; the caches start at 0; the economizer flag and limit, the minimum outdoor-air fraction and the average zone setpoint are the owner's values |
| AhuChillerModels.CoolingCoil.UpdateData | GridServices/TransactiveControl/transactive_utils/models/ahuchiller.py:231-236 | the caches hold the owner's temperatures and flow, and the setpoint is the owner's `tDis`; when `tDis` is unbound the update fails and the setpoint keeps its old value |
| AhuChillerModels.CoolingCoil.CurrentCoilLoad | GridServices/TransactiveControl/transactive_utils/models/ahuchiller.py:238-245 | the real-time load is at most 0 and equals min(0, airflow·cp·(dat − mat)) when both temperatures are known; it is 0 when either is missing |
| AhuChillerModels.CoolingCoil.CalculateCoilLoad | GridServices/TransactiveControl/transactive_utils/models/ahuchiller.py:247-264 | the scheduled load is at most 0 and is 0 without an outdoor temperature; with an economizer it is 0 below the setpoint, cools outdoor air below the limit, and cools blended mixed air otherwise; without one it cools blended mixed air at every temperature |
| AhuChillerModels.CoolingCoil.Load | GridServices/TransactiveControl/transactive_utils/models/ahuchiller.py:268-271 | the real-time mode uses the measured load and the other mode uses the scheduled load; both are at most 0 |
| AhuChillerModels.CoolingCoil.Power | GridServices/TransactiveControl/transactive_utils/models/ahuchiller.py:272 | the power times cop times 0.9 is the magnitude of the load, and the power is non-negative when cop > 0 |
| AhuChillerModels.CoolingCoil.CalculateLoad | GridServices/TransactiveControl/transactive_utils/models/ahuchiller.py:266-272 | the caches are refreshed from the owner; an unbound `tDis` or a zero cop is an error; otherwise the result is the power of the load of the requested mode, non-negative when cop > 0 |
| AhuChillerModels.FreeCoolingAtSetpoint | GridServices/TransactiveControl/transactive_utils/models/ahuchiller.py:253-256 | with an economizer, outdoor air exactly at the discharge setpoint (below the limit) leaves no coil load |
| AhuChillerModels.MixedAirBetween | GridServices/TransactiveControl/transactive_utils/models/ahuchiller.py:258 | with a minimum outdoor-air fraction in [0, 1], the blended mixed air lies between the zone setpoint and the outdoor temperature |
| AhuChillerModels.DemandAntitone | GridServices/TransactiveControl/transactive_utils/models/ahuchiller.py:256-259 | with non-negative flow and specific heat, a warmer inlet never gives a smaller cooling demand |
| AhuChillerModels.EconomizerBandMonotone | GridServices/TransactiveControl/transactive_utils/models/ahuchiller.py:255-256 | between the setpoint and the economizer limit, a warmer outdoor temperature never lowers the scheduled cooling |
| AhuChillerModels.EconomizerNeverIncreasesCooling | GridServices/TransactiveControl/transactive_utils/models/ahuchiller.py:252-262 | when the economizer limit is at most the zone setpoint, a coil with an economizer never schedules more cooling than the same coil without one |
| AhuChillerModels.LimitAgreement | GridServices/TransactiveControl/transactive_utils/models/ahuchiller.py:255-259 | at the economizer limit the outdoor-air formula equals the mixed-air formula if and only if flow · cp is zero, the minimum fraction is 1, or the limit equals the zone setpoint |
| AhuChillerModels.LoadJumpsAtLimit | GridServices/TransactiveControl/transactive_utils/models/ahuchiller.py:252-264 | with an economizer, a setpoint below the limit and flow · cp > 0: below the limit the load is the outdoor-air line ending at the negative value flow · cp · (setpoint − limit); the load at the limit equals that end value if and only if the fraction is 1 or the limit equals the zone setpoint |
| AhuChillerModels.JumpAtSetpoint | GridServices/TransactiveControl/transactive_utils/models/ahuchiller.py:252-264 | with an economizer, a limit at or below the setpoint and flow · cp > 0: the load is 0 below the setpoint and the capped mixed-air load at it, and that load is below 0 if and only if the mixed air at the setpoint is warmer than the setpoint |
| AhuChillerModels.LimitJumpExample | GridServices/TransactiveControl/transactive_utils/models/ahuchiller.py:252-264 | with limit 65, zone setpoint 72, fraction 0.2, setpoint 55, flow 1000 and the default cp, the outdoor-air formula at 65 gives 0.3148·(55 − 65), while the load at 65 is 0.3148·(55 − 70.6), strictly more cooling |
| AhuChillerModels.ScheduledLoadExample | GridServices/TransactiveControl/transactive_utils/models/ahuchiller.py:260-272 | with no economizer, zone setpoint 72, fraction 0.2, setpoint 55, flow 1000 and default cp and cop: the mixed air at 90 outdoor is 75.6, the load is 0.3148·(55 − 75.6) and the power is 0.3148·20.6/5.5/0.9 |
| AhuChillerModels.AhuChiller.constructor | GridServices/TransactiveControl/transactive_utils/models/ahuchiller.py:83-114 | the defaults are minimum fraction 0.15, variable volume, economizer with limit 0, flow, setpoint and zone setpoint 0, and a chiller; no telemetry is held and `tDis` is unbound; the fan is built from its configuration section (grouping attribute, default grouping value, table) with zero coefficients, and the coil from its section with these defaults and zero caches |
| AhuChillerModels.AhuChiller.FanPower | GridServices/TransactiveControl/transactive_utils/models/ahuchiller.py:160 | the floored fan power is non-negative, at least the fan power, and equal to 0 or to the fan power |
| AhuChillerModels.AhuChiller.UpdateFanCoefficients | GridServices/TransactiveControl/transactive_utils/models/ahuchiller.py:194-207 | the fan's selection is made with the owner's attribute named by the fan's grouping attribute (the fan's default when it is unset); it succeeds exactly when the table is non-empty |
| AhuChillerModels.AhuChiller.GroupingMeasurement | GridServices/TransactiveControl/transactive_utils/models/ahuchiller.py:195-197 | the grouping value is the owner's attribute named by the fan's grouping attribute when that is set, and the fan's default otherwise |
| AhuChillerModels.AhuChiller.EquipmentConfiguration | GridServices/TransactiveControl/transactive_utils/models/ahuchiller.py:116-129 | the settings are assigned in the source's order; the first missing required key is reported, the settings before it stay assigned, and the later ones and `tDis` keep their old values; on success `tDis` is the supply-air setpoint; the fan and the coil are untouched |
| AhuChillerModels.AhuChiller.UpdateData | GridServices/TransactiveControl/transactive_utils/models/ahuchiller.py:131-138 | each of the seven telemetry attributes becomes the accessor's value for its name, and is unset when the name is missing |
| AhuChillerModels.AhuChiller.InputZoneLoad | GridServices/TransactiveControl/transactive_utils/models/ahuchiller.py:140-145 | a variable-volume unit sets the flow and keeps `tDis` and `dat`; a constant-volume unit sets `tDis` and `dat` and keeps the flow |
| AhuChillerModels.AhuChiller.CalculateTotalPower | GridServices/TransactiveControl/transactive_utils/models/ahuchiller.py:152-160 | without a chiller the result is exactly the floored fan power and the coil is unchanged; with one it is the coil's power (at the argument temperature, or the owner's when none is given) plus the floored fan power, non-negative when cop > 0 |
| AhuChillerModels.AhuChiller.CalculateLoad | GridServices/TransactiveControl/transactive_utils/models/ahuchiller.py:147-150 | the zone load is applied as the control mode dictates, and then the total power of the new state is returned; without a chiller the coil is unchanged; the result is non-negative when there is no chiller or cop > 0 |
| AhuChillerModels.ConstantVolumeFeedsDischarge | GridServices/TransactiveControl/transactive_utils/models/ahuchiller.py:143-145 | for a constant-volume unit in real-time mode, the zone load becomes the coil's setpoint and measured discharge temperature, so the coil power is that of min(0, flow·cp·(q − mat)) |
| ThermostatModels.Sweep | GridServices/TransactiveControl/transactive_utils/model_frame/thermostat.py:92 | the sweep has 50 points, and point i is csp − 2 + 4·i/49 |
| ThermostatModels.SweepEnds | GridServices/TransactiveControl/transactive_utils/model_frame/thermostat.py:92 | the first point is csp − 2 and the last is csp + 2 |
| ThermostatModels.SweepEvenlySpaced | GridServices/TransactiveControl/transactive_utils/model_frame/thermostat.py:92 | consecutive points are 4/49 apart |
| ThermostatModels.SweepStrictlyIncreasing | GridServices/TransactiveControl/transactive_utils/model_frame/thermostat.py:92 | the points are strictly increasing |
| ThermostatModels.SweepSymmetric | GridServices/TransactiveControl/transactive_utils/model_frame/thermostat.py:92 | points i and 49 − i are symmetric about the current setpoint |
| ThermostatModels.Thermostat.constructor | GridServices/TransactiveControl/transactive_utils/model_frame/thermostat.py:57-72 | the coefficients, rated power, curve-point count and topic are the configured ones; the readings start at 0, there is no timestamp, and the error flag is clear |
| ThermostatModels.Thermostat.UpdateData | GridServices/TransactiveControl/transactive_utils/model_frame/thermostat.py:74-86 | OAT, CSP and TIN are assigned in that order, and then the timestamp; a missing key sets the error flag, keeps the fields assigned before it, and leaves the later ones and the timestamp unchanged; with all three keys present the error flag is clear |
| ThermostatModels.Thermostat.Curve | GridServices/TransactiveControl/transactive_utils/model_frame/thermostat.py:88-97 | with no timestamp, or with an hour beyond a coefficient vector, the prediction fails; otherwise it has exactly 50 points, and element i is `get_q` at the stored temperatures, sweep point i and the stored hour |
| ThermostatModels.Thermostat.Predict | GridServices/TransactiveControl/transactive_utils/model_frame/thermostat.py:88-97 | the loop's result is the curve of the current state, whatever parameters are passed; it changes no field |
| ThermostatModels.CurveIsSweep | GridServices/TransactiveControl/transactive_utils/model_frame/thermostat.py:99-101 | with c1 = 1 and c2 = c3 = c4 = 0 at the stored hour, the curve is the sweep itself |
| ThermostatModels.Thermostat.GetQ | GridServices/TransactiveControl/transactive_utils/model_frame/thermostat.py:99-101 | the hour-h linear model stpt·c1[h] + temp·c2[h] + oat·c3[h] + c4[h], defined when h indexes every coefficient vector; its intercept c4[h] is the value at zero inputs and the value whenever c1..c3 vanish at h |
| ThermostatModels.GetQSetpointSlope | GridServices/TransactiveControl/transactive_utils/model_frame/thermostat.py:100 | between two setpoints, `get_q` changes by their difference times c1 at that hour |
| ThermostatModels.CurveMonotone | GridServices/TransactiveControl/transactive_utils/model_frame/thermostat.py:92-101 | a positive c1 at the stored hour makes the curve strictly increasing, and a negative one strictly decreasing |
| ThermostatModels.IdentityScenario | GridServices/TransactiveControl/transactive_utils/model_frame/thermostat.py:74-101 | a thermostat whose only non-zero coefficient is c1 = 1 at hour 12, after telemetry with setpoint 70 at hour 12, predicts the sweep from 68 to 72 |
| ModelFrame.Split | GridServices/TransactiveControl/transactive_utils/model_frame/__init__.py:70 | splitting gives at least one piece |
| ModelFrame.SplitJoin | GridServices/TransactiveControl/transactive_utils/model_frame/__init__.py:70 | joining the pieces with the separator gives the string back |
| ModelFrame.SplitCount | GridServices/TransactiveControl/transactive_utils/model_frame/__init__.py:70 | there is one piece more than there are separators |
| ModelFrame.SplitPiecesFree | GridServices/TransactiveControl/transactive_utils/model_frame/__init__.py:70 | no piece contains the separator |
| ModelFrame.JoinSplit | GridServices/TransactiveControl/transactive_utils/model_frame/__init__.py:70 | splitting a join of separator-free pieces gives the pieces back |
| ModelFrame.TwoPiecesIffOneDot | GridServices/TransactiveControl/transactive_utils/model_frame/__init__.py:70 | the model type splits into exactly two pieces if and only if it contains exactly one dot |
| ModelFrame.LookupFamily | GridServices/TransactiveControl/transactive_utils/model_frame/__init__.py:71-72 | the table resolves ("thermostat", "Thermostat") and ("ahuchiller", "ahuchiller") and nothing else; an unknown family is an unknown-module error |
| ModelFrame.Resolve | GridServices/TransactiveControl/transactive_utils/model_frame/__init__.py:70-72 | a model type that does not split into two pieces is malformed, reporting the piece count; two pieces are looked up in the table |
| ModelFrame.ResolveJoined | GridServices/TransactiveControl/transactive_utils/model_frame/__init__.py:70-72 | "family.class" with both parts free of dots resolves as the table says for (family, class) |
| ModelFrame.ResolveThermostat | GridServices/TransactiveControl/transactive_utils/model_frame/__init__.py:70-72 | "thermostat.Thermostat" resolves to the thermostat kind |
| ModelFrame.ResolveAhuChiller | GridServices/TransactiveControl/transactive_utils/model_frame/__init__.py:70-72 | "ahuchiller.ahuchiller" resolves to the AHU and chiller kind |
| ModelFrame.ResolveWithoutDot | GridServices/TransactiveControl/transactive_utils/model_frame/__init__.py:70 | a model type without a dot is malformed, with one piece |
| ModelFrame.ResolveExtraDots | GridServices/TransactiveControl/transactive_utils/model_frame/__init__.py:70 | a model type with two dots or more is malformed, with one piece more than it has dots |
| ModelFrame.ResolvedKind | GridServices/TransactiveControl/transactive_utils/model_frame/__init__.py:64-72 | an entry has a kind only when its topic and model type are present and the type resolves to that kind |
| ModelFrame.InstantiateError | GridServices/TransactiveControl/transactive_utils/model_frame/__init__.py:73 | a thermostat builds exactly when c1..c4 and rated_power are present; an AHU builds exactly when it has a model configuration whose fan initialises |
| ModelFrame.EntryError | GridServices/TransactiveControl/transactive_utils/model_frame/__init__.py:64-73 | a missing topic, then a missing model type, then an unresolvable type are reported in that order; an entry without error has a kind and builds |
| ModelFrame.Built | GridServices/TransactiveControl/transactive_utils/model_frame/__init__.py:63-73 | the count of leading entries that build: every entry before it builds, and the entry at it, if any, fails |
| ModelFrame.Entries | GridServices/TransactiveControl/transactive_utils/model_frame/__init__.py:60-61 | an absent configuration has no entries, and a present one has its own |
| ModelFrame.InsertedKeys | GridServices/TransactiveControl/transactive_utils/model_frame/__init__.py:73 | inserting entries under their topics gives exactly the set of their topics as keys |
| ModelFrame.InsertedLastWins | GridServices/TransactiveControl/transactive_utils/model_frame/__init__.py:73 | a topic maps to the last entry that carries it, so a later duplicate replaces an earlier one |
| ModelFrame.PrefixTopicsStored | GridServices/TransactiveControl/transactive_utils/model_frame/__init__.py:63-73 | when the walk stops at entry k, the topic of every entry before k is stored |
| ModelFrame.StoredStep | GridServices/TransactiveControl/transactive_utils/model_frame/__init__.py:73 | storing the model of entry k under its topic extends what the first k entries build to the first k + 1 |
| ModelFrame.WalkFails | GridServices/TransactiveControl/transactive_utils/model_frame/__init__.py:63-73 | when entry i fails after i entries built, the registry has raised that entry's error and keeps the i models stored |
| ModelFrame.Instantiate | GridServices/TransactiveControl/transactive_utils/model_frame/__init__.py:73 | the model fails exactly when the entry's error says so, with that error; otherwise it is a new model built from the entry, with every configured constant (for an AHU also the fan's default grouping value and the coil's economizer copies), in the initial state its constructor leaves (`Initial`: no timestamp and zero readings for a thermostat; default settings, no telemetry and an unbound `tDis` for an AHU) |
| ModelFrame.BuildEntry | GridServices/TransactiveControl/transactive_utils/model_frame/__init__.py:64-73 | one entry is checked, resolved and built; the kind it reports is the entry's resolved kind, and it fails exactly when the entry has an error, with that error; a built model is in its initial state |
| ModelFrame.Registry.constructor | GridServices/TransactiveControl/transactive_utils/model_frame/__init__.py:58-59 | the registry starts with no models and no cleared quantity |
| ModelFrame.Registry.Configure | GridServices/TransactiveControl/transactive_utils/model_frame/__init__.py:57-73 | the cleared quantity is reset; the registry raises the error of the first failing entry, or nothing when all build; it holds exactly the models the entries before that one build, under their topics, last entry winning; `model_class` is the last kind resolved |
| ModelFrame.Registry.GetQ | GridServices/TransactiveControl/transactive_utils/model_frame/__init__.py:75-81 | an unknown topic gives 0 without error; a thermostat topic gives that thermostat's prediction for no parameters, whatever parameters the caller passes; an AHU topic fails, the AHU model having no `predict` |
| ModelFrame.NewThermostatCannotPredict | GridServices/TransactiveControl/transactive_utils/model_frame/__init__.py:78 | a thermostat in its initial state has no timestamp, so the registry's prediction for its topic fails with that error |
| ModelFrame.EmptyConfigBuildsNothing | GridServices/TransactiveControl/transactive_utils/model_frame/__init__.py:58-61 | an absent or empty configuration builds nothing and stores nothing |
| ModelFrame.SuccessStoresAllTopics | GridServices/TransactiveControl/transactive_utils/model_frame/__init__.py:63-73 | after a walk in which every entry builds, every entry has a topic and the stored keys are exactly the entries' topics |

## Left out

- Logging is left out: it has no effect on the state.
- The process exit when the fan has no coefficients is not modelled as an exit. The registry reports it as the `MissingFanCoefficients` error.
- Python's dynamic import and attribute lookup are not modelled. The closed table `LookupFamily` replaces them. The AHU model's module sits in a `models` package beside `model_frame`, but the table still maps the family "ahuchiller" to it.
- The measurement-name constants and the owner's telemetry accessor come from code that is not part of this model. The names are opaque strings given to the `AhuChiller` constructor, and the accessor is an input map.
- Some writes are left out because nothing in the core reads them again: the owner's `name` and `parent`, the write to the parent's `supply_commodity`, and the fan's `power_unit` and `fan_power`. The thermostat's `name`, `parent` and `coefficients` set are also left out.
- Configuration values are assumed to have the right type. Only whether a key is present is modelled, not a value of the wrong type.
- A timestamp is reduced to its hour of day.
- Floating-point rounding and `numpy.linspace` are not modelled. Values are exact reals, and the sweep follows its closed-form formula.
- The agent that subscribes to telemetry and publishes results is not part of this model.
- AhuChillerModels.Fan.UpdateCurrentCoefficients: it requires a grouping attribute whenever the table holds more than one group. In the source the measurement is then an unbound local variable.
- AhuChillerModels.Fan.UpdateCurrentCoefficients: a grouping attribute outside the seven telemetry points cannot be expressed.
- AhuChillerModels.CoolingCoil.constructor: it takes the owner's economizer flag and limit, minimum outdoor-air fraction and average zone setpoint as arguments. The source reads the economizer flag from its `parent` argument, but the limit, fraction and zone setpoint through `self.parent` (ahuchiller.py:227-229), which the coil never assigns, so the constructor raises at line 227.
- AhuChillerModels.AhuChiller.UpdateData: it reads telemetry from an input map. The source calls the owner's `get_input_value`, which the registry class does not define.
- ModelFrame.Instantiate: the AHU model is built as if its owner provided `get_input_value`. The source's `ahuchiller.__init__` reads that attribute from the registry, which has none.
- AhuChillerModels.AhuChiller.CalculateTotalPower: the fan coefficients are whatever `c0..c3` hold. The source never calls `update_current_coefficients` on this path, so they are 0 unless it was called separately.
- ModelFrame.Registry.Configure: it does not state that the stored models are still in their initial state. `Instantiate` and `BuildEntry` state it (`Initial`) for each model they build, but the loop does not carry that heap fact over the stored map.
- ThermostatModels.Thermostat.Curve: an hour beyond a coefficient vector is checked as a single error. The source would raise an indexing error at the first coefficient vector that is too short.

## Findings

| source | as written | input that shows it | evidently intended | confidence | as-written member | corrected member |
|---|---|---|---|---|---|---|
| GridServices/TransactiveControl/transactive_utils/models/ahuchiller.py:198-203 | `update_current_coefficients` lists the table's values (coefficient records), picks one by `abs(record - measurement)` (or takes the only one), and indexes the table with that record. Indexing with a record fails, and so does subtracting a number from a record. | the documented table {20, 60, 100} grouped by "oad": the key function subtracts a number from a coefficient record; a flat c0..c3 configuration (one group): the dictionary is indexed with an unhashable record | select the group whose key is nearest to the measurement, the first such key in table order winning; a single group is always selected | high (not executed) | AhuChillerModels.SelectAsWritten | AhuChillerModels.SelectGroup |
