# Unit commitment with solar, storage and demand shifting — a Dafny model

This project models the day-ahead unit-commitment problem built by
`define_model` (unit_commitment_model_solar.py) and the result extraction of
`solve_unit_commitment` (solve_uc_solar.py).

The optimisation model is represented as a checker, not a solver. An
`Instance` holds:

- the entity sets with their parameters: thermal generators G, renewables GS,
  storage devices SD, buses B and lines L;
- the shift policy: `shift_max_percent` and `shift_max_hours`.

A `Schedule` gives one value to every decision variable: y, u, v, P, Flow,
P_renewables, Charge, Discharge, SOC and shift.

Each constraint rule of the model is a predicate over an instance, a schedule
and the rule's indices. `Feasible` is their conjunction at every index tuple
the model builds, together with the declared variable domains. `Cost` is the
objective: generation cost plus startup cost plus shutdown cost.

Modules:

- `Sums` (sums.dfy): finite sums over integer ranges. Every `sum(... for ...)`
  of the model is one of these. The lemmas cover extensionality, linearity,
  non-negativity, single-term sums and exchanging the order of a double sum.
- `UnitCommitmentModel` (uc_model.dfy): the data model, the shift-pair set
  `TPairs`, every constraint rule, `Feasible` and `Cost`.
- `UnitCommitmentProperties` (uc_properties.dfy): what the rules imply. It
  covers:
  - the shift pairs and the shift window;
  - generator, line and renewable bounds;
  - closed forms of the commitment recursion and of the state-of-charge
    recursion;
  - minimum up/down times;
  - storage bounds and round-trip losses;
  - cost non-negativity;
  - a concrete instance with a schedule proved feasible.
- `EnergyBalance` (energy_balance.dfy): the system-wide consequences of the
  per-bus power balance. In every period line flows cancel, so system supply
  equals total demand plus total net shift. Net shift cancels over the day,
  so over the horizon supply equals demand.
- `SolveResults` (uc_results.dfy): the `results_data` record as a datatype
  keyed by entity id, built by the method `ExtractResults` with one loop per
  entity set, and lemmas that relate the reported series to the model.

Where the model's code and its written description disagree, the code is
followed:

- **Period-1 status.** The initial-conditions rule sets y[g,1] to 1 when y0 is
  1 and to 0 otherwise. It does not set y[g,1] equal to y0.
- **Shift pairs and the window.** The shift variables exist for pairs with
  0 < |t1 − t2| ≤ shift_max_hours. The balance and the shift limit only read
  pairs with |t1 − t2| < shift_max_hours.
- **DemandShiftHours never applies.** That rule only constrains pairs more than
  shift_max_hours apart, and no such pair is declared. So it constrains
  nothing.
- **Bus validation.** Only StorageBus is checked to lie in B. A generator,
  renewable or line may name a bus that does not exist; that injection then
  enters no balance. The system-wide lemmas assume every reference resolves
  (`ReferencesResolve`).
- **Storage efficiency.** Efficiency is declared non-negative, not restricted to
  (0, 1].
- **shift_max_hours below 2.** With shift_max_hours ≤ 1 the shift window is
  empty. The shift-limit rule of every bus then compares two constants, and
  Pyomo refuses a constraint that is a bare Boolean. So no model with a bus is
  built for such a value. `ValidInstance` therefore requires
  shift_max_hours ≥ 2 whenever B is non-empty.
- **Line sign convention.** A line's flow is added at its LineFrom bus and
  subtracted at its LineTo bus, exactly as the balance rule sums it.
- **MUT and MDT.** The minimum-up and minimum-down rules are skipped while
  t < MUT (resp. t < MDT).
- **Ramp limits.** The ramp rules are skipped at t = 1.

## Model

| member | source | states |
|---|---|---|
| `UnitCommitmentModel.TPairs` | unit_commitment_model_solar.py:13 | the declared shift pairs: ordered pairs of distinct periods of 1..24 at most shift_max_hours apart; its properties are the `TPairs…` lemmas |
| `UnitCommitmentModel.InWindow` | unit_commitment_model_solar.py:92-93 | the window the shift sums read: k ≠ t and \|k − t\| strictly below shift_max_hours; related to `TPairs` by `WindowPairsDeclared` and `BoundaryPairsDeclaredNotCounted` |
| `UnitCommitmentModel.StorageParamsValid` | unit_commitment_model_solar.py:47-51 | the NonNegativeReals domains of the storage parameters, plus the positive efficiency and capacity the SOC rule divides by |
| `UnitCommitmentModel.ValidInstance` | unit_commitment_model_solar.py:47-51 | what building guarantees: distinct ids, 24-period demand and profile series, the storage domains, StorageBus in B, and shift_max_hours ≥ 2 when B is non-empty |
| `UnitCommitmentModel.WellShaped` | unit_commitment_model_solar.py:55-67 | every variable has a value at every index tuple; shift is defined exactly on the declared pairs of every bus |
| `UnitCommitmentModel.VariableDomains` | unit_commitment_model_solar.py:55-67 | y, u, v binary; P, P_renewables, Charge, Discharge, SOC and shift non-negative; Flow free |
| `UnitCommitmentModel.UnitGenerationCost` | unit_commitment_model_solar.py:71 | Cgen × P summed over the horizon for one generator |
| `UnitCommitmentModel.UnitStartupCost` | unit_commitment_model_solar.py:72 | Cstartup × u summed over the horizon for one generator |
| `UnitCommitmentModel.UnitShutdownCost` | unit_commitment_model_solar.py:73 | Cshutdown × v summed over the horizon for one generator |
| `UnitCommitmentModel.GenerationCost` | unit_commitment_model_solar.py:71 | generation cost summed over G |
| `UnitCommitmentModel.StartupCost` | unit_commitment_model_solar.py:72 | startup cost summed over G |
| `UnitCommitmentModel.ShutdownCost` | unit_commitment_model_solar.py:73 | shutdown cost summed over G |
| `UnitCommitmentModel.Cost` | unit_commitment_model_solar.py:70-76 | the objective: the sum of the three costs; its properties are `CostNonnegative` and `SingleUnitCost` |
| `UnitCommitmentModel.BusTotal` | unit_commitment_model_solar.py:83-89 | a variable summed over the entities whose bus parameter equals the given bus |
| `UnitCommitmentModel.Supply` | unit_commitment_model_solar.py:83-90 | left side of the balance: thermal plus renewable plus discharge minus charge plus from-line flow minus to-line flow at a bus |
| `UnitCommitmentModel.ShiftIn` | unit_commitment_model_solar.py:92 | shifts into period t from the periods of the window |
| `UnitCommitmentModel.ShiftOut` | unit_commitment_model_solar.py:93 | shifts out of period t into the periods of the window |
| `UnitCommitmentModel.NetShift` | unit_commitment_model_solar.py:94 | shift-in minus shift-out; it cancels over the day by `NetShiftCancelsOverHorizon` |
| `UnitCommitmentModel.Demand` | unit_commitment_model_solar.py:32 | Demand[b, t] |
| `UnitCommitmentModel.PowerBalance` | unit_commitment_model_solar.py:82-96 | supply at the bus equals demand plus net shift; summed by `SystemBalance` |
| `UnitCommitmentModel.DemandShiftLimit` | unit_commitment_model_solar.py:101-102 | shift-out at (b, t) is at most shift_max_percent × Demand[b, t] |
| `UnitCommitmentModel.DemandShiftHours` | unit_commitment_model_solar.py:105-108 | a declared pair more than shift_max_hours apart has zero shift; vacuous by `DemandShiftHoursNeverBinds` |
| `UnitCommitmentModel.GenLimitsMin` | unit_commitment_model_solar.py:117-118 | P ≥ Pmin × y |
| `UnitCommitmentModel.GenLimitsMax` | unit_commitment_model_solar.py:122-123 | P ≤ Pmax × y |
| `UnitCommitmentModel.FlowLimitsLower` | unit_commitment_model_solar.py:129-130 | Flow ≥ −LineMax |
| `UnitCommitmentModel.FlowLimitsUpper` | unit_commitment_model_solar.py:134-135 | Flow ≤ LineMax |
| `UnitCommitmentModel.StartupShutdown` | unit_commitment_model_solar.py:140-144 | y[t] − y[t−1] = u[t] − v[t], with y0 in place of y[0]; solved by `CommitmentClosedForm` |
| `UnitCommitmentModel.MinUpTime` | unit_commitment_model_solar.py:148-151 | skipped while t < MUT; otherwise the startups of the last MUT periods are at most y[t] |
| `UnitCommitmentModel.MinDownTime` | unit_commitment_model_solar.py:155-158 | skipped while t < MDT; otherwise the shutdowns of the last MDT periods are at most 1 − y[t] |
| `UnitCommitmentModel.RampUp` | unit_commitment_model_solar.py:162-165 | skipped at t = 1; otherwise P[t] − P[t−1] ≤ Rup |
| `UnitCommitmentModel.RampDown` | unit_commitment_model_solar.py:169-172 | skipped at t = 1; otherwise P[t−1] − P[t] ≤ Rdown |
| `UnitCommitmentModel.InitialConditions` | unit_commitment_model_solar.py:176-180 | y[g, 1] is 1 when y0 is 1 and 0 otherwise |
| `UnitCommitmentModel.RenewablesLimit` | unit_commitment_model_solar.py:184-185 | P_renewables ≤ Pmax_renewables × profile / 100 |
| `UnitCommitmentModel.Capacity` | unit_commitment_model_solar.py:193 | energy capacity Pmax_storage × Storage_duration |
| `UnitCommitmentModel.SocDelta` | unit_commitment_model_solar.py:193 | one period's SOC change: charge × efficiency / capacity − discharge / (efficiency × capacity); see `RoundTripEfficiencySquared` |
| `UnitCommitmentModel.SocRule` | unit_commitment_model_solar.py:191-195 | SOC[t] is the previous SOC (SOC_init at t = 1) plus that change; solved by `SocClosedForm` |
| `UnitCommitmentModel.StorageDischargeLimit` | unit_commitment_model_solar.py:198-199 | Discharge ≤ Pmax_storage |
| `UnitCommitmentModel.StorageChargeLimit` | unit_commitment_model_solar.py:202-203 | Charge ≤ Pmax_storage |
| `UnitCommitmentModel.SocBound` | unit_commitment_model_solar.py:206-207 | SOC ≤ 1 |
| `UnitCommitmentModel.Feasible` | unit_commitment_model_solar.py:79-208 | the variable domains and every constraint rule at every index tuple the model builds it for |
| `UnitCommitmentProperties.NetSwitches` | unit_commitment_model_solar.py:140-145 | startups minus shutdowns over periods 1..t, the closed form of the commitment recursion |
| `UnitCommitmentProperties.SocTrajectory` | unit_commitment_model_solar.py:191-196 | SOC_init plus the SOC changes of periods 1..t, the closed form of the SOC recursion |
| `UnitCommitmentProperties.TPairsEmptyWithoutHours` | unit_commitment_model_solar.py:13 | with shift_max_hours ≤ 0 no shift pair, and hence no shift variable, is declared |
| `UnitCommitmentProperties.TPairsSymmetricAndMonotone` | unit_commitment_model_solar.py:13 | a pair is declared iff its reverse is; every pair declared for a smaller shift_max_hours is declared for a larger one |
| `UnitCommitmentProperties.WindowPairsDeclared` | unit_commitment_model_solar.py:92-93 | every shift variable the balance reads (k ≠ t, \|k − t\| < shift_max_hours) is a declared pair in both orders |
| `UnitCommitmentProperties.BoundaryPairsDeclaredNotCounted` | unit_commitment_model_solar.py:92-93 | a pair exactly shift_max_hours apart is declared but lies outside the window, in both orders |
| `UnitCommitmentProperties.DemandShiftHoursNeverBinds` | unit_commitment_model_solar.py:105-109 | the DemandShiftHours rule holds for every schedule, so it never constrains a shift |
| `UnitCommitmentProperties.WithShift` | unit_commitment_model_solar.py:67 | replacing one shift variable sets that pair to the new value and keeps the bus's other pairs, the other buses and every other variable |
| `UnitCommitmentProperties.OutOfWindowPairUnread` | unit_commitment_model_solar.py:92-93 | changing a shift variable whose periods are at least shift_max_hours apart changes no shift-in and no shift-out sum at any bus and period |
| `UnitCommitmentProperties.NoShiftWithinShortWindow` | unit_commitment_model_solar.py:92-94 | with shift_max_hours ≤ 1 shift-in and shift-out are zero at every bus and period, so the shift-limit sum has no terms |
| `UnitCommitmentProperties.ZeroPercentForbidsShift` | unit_commitment_model_solar.py:101-103 | in a feasible schedule with shift_max_percent = 0, every in-window shift variable is zero, in both directions |
| `UnitCommitmentProperties.GeneratorOutputBounds` | unit_commitment_model_solar.py:117-124 | a feasible unit that is off produces 0; one that is on produces between Pmin and Pmax |
| `UnitCommitmentProperties.FlowWithinLimits` | unit_commitment_model_solar.py:129-136 | feasible flow lies in [−LineMax, LineMax], so LineMax ≥ 0 on every line |
| `UnitCommitmentProperties.RampLimited` | unit_commitment_model_solar.py:162-173 | from period 2 on, output rises by at most Rup and falls by at most Rdown |
| `UnitCommitmentProperties.RenewableWithinProfile` | unit_commitment_model_solar.py:184-186 | renewable output lies between 0 and Pmax_renewables × profile / 100 |
| `UnitCommitmentProperties.CommitmentPrefix` | unit_commitment_model_solar.py:140-145 | if the startup/shutdown rule holds up to t, y at t is y0 plus startups minus shutdowns over 1..t |
| `UnitCommitmentProperties.CommitmentClosedForm` | unit_commitment_model_solar.py:140-145 | the startup/shutdown rule holds at every period iff y at every t is y0 plus startups minus shutdowns over 1..t |
| `UnitCommitmentProperties.FirstPeriodSwitchesCancel` | unit_commitment_model_solar.py:176-181 | with a binary y0, the initial-conditions rule together with the period-1 startup/shutdown rule fixes y[g,1] = y0 and forces u[g,1] = v[g,1] |
| `UnitCommitmentProperties.RecentStartupKeepsUnitOn` | unit_commitment_model_solar.py:148-152 | once the rule applies (t ≥ MUT), a unit started within the last MUT periods is on at t |
| `UnitCommitmentProperties.RecentShutdownKeepsUnitOff` | unit_commitment_model_solar.py:155-159 | once the rule applies (t ≥ MDT), a unit shut down within the last MDT periods is off at t |
| `UnitCommitmentProperties.NoSimultaneousSwitch` | unit_commitment_model_solar.py:148-159 | where both rules apply, a unit never starts up and shuts down in the same period |
| `UnitCommitmentProperties.SocPrefix` | unit_commitment_model_solar.py:191-196 | if the SOC rule holds up to t, SOC at t is SOC_init plus the scaled charges minus the scaled discharges over 1..t |
| `UnitCommitmentProperties.SocClosedForm` | unit_commitment_model_solar.py:191-196 | the SOC rule holds at every period iff SOC at every t equals that accumulated trajectory |
| `UnitCommitmentProperties.StorageWithinBounds` | unit_commitment_model_solar.py:198-208 | feasible SOC lies in [0, 1] and charge and discharge in [0, Pmax_storage]; the lower bounds come from the variable domains |
| `UnitCommitmentProperties.RoundTripEfficiencySquared` | unit_commitment_model_solar.py:193-195 | charging x and then discharging x × efficiency² returns SOC to its starting value, so losses are applied on both sides |
| `UnitCommitmentProperties.CostNonnegative` | unit_commitment_model_solar.py:70-77 | with non-negative cost coefficients, any schedule within the variable domains has non-negative total cost |
| `UnitCommitmentProperties.SingleUnitScheduleFeasible` | unit_commitment_model_solar.py:82-208 | one bus with flat demand 10 and shifts of up to 2 hours allowed, served by one unit held on at output 10 with no shift made, is a valid instance and its schedule satisfies every rule |
| `UnitCommitmentProperties.SingleUnitCost` | unit_commitment_model_solar.py:70-76 | that schedule costs 24 × 10 × 2.0 = 480: only generation cost, no startup or shutdown cost |
| `UnitCommitmentProperties.SingleUnitBusRules` | unit_commitment_model_solar.py:82-103 | in that instance, the balance and the shift limit hold at every bus and period |
| `UnitCommitmentProperties.SingleUnitBalance` | unit_commitment_model_solar.py:82-103 | in that instance at period t, supply 10 meets demand 10 with zero net shift, and zero shift-out is within 20% of demand |
| `UnitCommitmentProperties.SingleUnitGeneratorRules` | unit_commitment_model_solar.py:117-181 | in that instance, every generator rule holds at every generator and period |
| `UnitCommitmentProperties.SingleUnitCommitment` | unit_commitment_model_solar.py:140-159 | in that instance, the startup/shutdown, minimum-up and minimum-down rules hold at every period |
| `UnitCommitmentProperties.SingleUnitShapes` | unit_commitment_model_solar.py:47-67 | that instance passes the parameter domains, and its schedule defines every variable within its domain |
| `UnitCommitmentProperties.SingleUnitValid` | unit_commitment_model_solar.py:47-51 | that instance, with shift_max_hours = 2, satisfies what building an instance guarantees |
| `UnitCommitmentProperties.SingleUnitDomains` | unit_commitment_model_solar.py:55-67 | its schedule defines every variable, with shift on exactly the declared pairs, within the declared domains |
| `UnitCommitmentProperties.SingleUnitLimits` | unit_commitment_model_solar.py:117-181 | in that instance, the output limits, ramp limits and initial condition hold |
| `EnergyBalance.ReferencesResolve` | unit_commitment_model_solar.py:27-44 | every GenBus, GenBusRenewables, LineFrom and LineTo names a bus of B (not checked by the source) |
| `EnergyBalance.RegroupByBus` | unit_commitment_model_solar.py:83-89 | summing a per-bus selection over distinct bus ids counts each entity exactly once, when every entity's bus is among them |
| `EnergyBalance.BusSupplyTotalIsSystemSupply` | unit_commitment_model_solar.py:82-96 | the supply side of the balance summed over all buses is system generation plus discharge minus charge; line flows cancel |
| `EnergyBalance.SystemBalance` | unit_commitment_model_solar.py:82-98 | in every period of a feasible schedule, system supply equals total demand plus total net shift |
| `EnergyBalance.NetShiftCancelsOverHorizon` | unit_commitment_model_solar.py:92-94 | at every bus, net shift summed over the 24 periods is zero, for any values of the shift variables |
| `EnergyBalance.TotalNetShiftCancels` | unit_commitment_model_solar.py:92-94 | net shift summed over all buses and all periods is zero |
| `EnergyBalance.HorizonEnergyBalance` | unit_commitment_model_solar.py:82-98 | over the horizon of a feasible schedule, system generation plus discharge minus charge equals total demand |
| `SolveResults.BusShiftSeries` | solve_uc_solar.py:45-47 | the reported shift series, with the window and signs written as the extraction writes them; equal to `NetShift` by `BusShiftMatchesBalance` |
| `SolveResults.ChargeDischargeSeries` | solve_uc_solar.py:67 | Charge minus Discharge per period; see `ChargeDischargeTotal` and `LosslessSocFollowsChargeDischarge` |
| `SolveResults.GeneratorEntry` | solve_uc_solar.py:31-38 | a generator's power_output, on_off_status, startup and shutdown series, Pmax and GenBus |
| `SolveResults.BusEntry` | solve_uc_solar.py:42-48 | a bus's demand series and shift series |
| `SolveResults.LineEntry` | solve_uc_solar.py:52-56 | a line's flow series, LineFrom and LineTo |
| `SolveResults.RenewableEntry` | solve_uc_solar.py:59-63 | a renewable's power_output series, Pmax_renewables and GenBusRenewables |
| `SolveResults.StorageEntry` | solve_uc_solar.py:66-72 | a device's charge_discharge, charge, discharge and SoC series and StorageBus |
| `SolveResults.Series` | solve_uc_solar.py:32-35 | an extracted series has 24 entries, and its entry for period t is the variable's value at t |
| `SolveResults.SeriesIsLossless` | solve_uc_solar.py:32-35 | for a variable defined at every period, the extracted series is exactly its values |
| `SolveResults.BusShiftMatchesBalance` | solve_uc_solar.py:45-47 | a bus's reported shift at t is the net shift of its power-balance rule at t |
| `SolveResults.BusShiftSumsToZero` | solve_uc_solar.py:45-47 | a bus's reported shift series sums to zero over the day |
| `SolveResults.ChargeDischargeTotal` | solve_uc_solar.py:67 | the charge_discharge series sums to total charge minus total discharge |
| `SolveResults.LosslessSocFollowsChargeDischarge` | solve_uc_solar.py:67 | for a feasible schedule and efficiency 1, SOC at t is its previous value (SOC_init at t = 1) plus the reported charge_discharge at t over the energy capacity |
| `SolveResults.LosslessDelta` | unit_commitment_model_solar.py:193-195 | with efficiency 1, a period's SOC change is (charge − discharge) / capacity |
| `SolveResults.ExtractResults` | solve_uc_solar.py:20-72 | total_cost is the objective, and each of the five maps is keyed by exactly its set's ids, with each id mapped to that entity's entry |

## Left out

- **Instance building.** Pyomo's `AbstractModel`, `create_instance` and `.dat`
  loading are replaced by an explicit `Instance` value. `ValidInstance`
  collects what building guarantees:
  - ids are distinct within each set;
  - demand and profile series have one value per period;
  - storage parameters satisfy their NonNegativeReals domains;
  - StorageBus lies in B;
  - shift_max_hours is at least 2 when B is non-empty, since otherwise building
    fails.
- **Division by zero.** A zero efficiency or a zero energy capacity would make
  the SOC rule divide by zero. `ValidInstance` excludes both (`StorageParamsValid`).
- **The solver.** The GLPK call, solver status and optimality are not modelled.
  `Feasible` and `Cost` check and price a given schedule; nothing states that
  the returned schedule is optimal.
- **Output and front ends.** Writing the JSON file, the console messages, the
  plotting script, the dashboard and the launcher are not part of this model.
- **Commented-out code.** The curtailment slack and the shift-conservation rule
  are commented out in the source and are not modelled.
- **Integer-typed parameters.** `shift_max_hours`, MUT and MDT are integers
  here.
  - Python accepts a fractional shift_max_hours.
  - The source compares t with MUT/MDT as numbers but truncates them with
    `int()` in the range. A fractional MUT or MDT is not modelled.
- **Entry order.** The dictionaries of `results_data` keep insertion order, so
  the JSON lists entities in set order. The maps of `Results` are unordered and
  do not record that order.
- **Ids and numbers.**
  - Ids are strings, so the `str()` applied to keys and bus references is the
    identity.
  - Numbers are exact reals; `value()` rounding and solver tolerances are not
    modelled.
- `SolveResults.LosslessSocFollowsChargeDischarge` ties the reported
  charge_discharge series to SOC only for efficiency 1. For other efficiencies
  the series does not determine SOC, and `UnitCommitmentProperties.SocClosedForm`
  states the trajectory in terms of charge and discharge.
