/**
 * The day-ahead unit-commitment model of `define_model`
 * (unit_commitment_model_solar.py): the instance data (sets and
 * parameters), a candidate assignment of every decision variable, each
 * constraint rule as a predicate, their conjunction `Feasible`, and the
 * objective `Cost`. Nothing here solves the problem: a schedule is checked
 * and priced.
 */
module UnitCommitmentModel {
  import opened Sums

  /** The horizon: periods 1..T. */
  const T: int := 24

  /** Entity identifiers; `str(id)` of the result extraction is the identity on them. */
  type Id = string

  // ---------------------------------------------------------------------
  // Sets and parameters
  // ---------------------------------------------------------------------

  datatype Generator = Generator(
    id: Id,
    pmin: real, pmax: real,               // Pmin, Pmax
    cgen: real, cstartup: real, cshutdown: real,
    mut: int, mdt: int,                   // minimum up / down time (hours)
    rup: real, rdown: real,               // ramp limits
    y0: real,                             // status before period 1
    bus: Id)                              // GenBus

  datatype Renewable = Renewable(
    id: Id,
    pmax: real,                           // Pmax_renewables
    profile: seq<real>,                   // RenewablesProfile, percent, index t - 1
    bus: Id)                              // GenBusRenewables

  datatype StorageDevice = StorageDevice(
    id: Id,
    pmax: real,                           // Pmax_storage
    duration: real,                       // Storage_duration
    efficiency: real,                     // Storage_efficiency
    bus: Id,                              // StorageBus
    socInit: real)                        // SOC_init

  datatype Bus = Bus(id: Id, demand: seq<real>)   // Demand, index t - 1

  datatype Line = Line(id: Id, lineMax: real, lineFrom: Id, lineTo: Id)

  /** One built problem: the entity sets (G, GS, SD, B, L) with their parameters and the shift policy. */
  datatype Instance = Instance(
    gens: seq<Generator>,
    renewables: seq<Renewable>,
    storage: seq<StorageDevice>,
    buses: seq<Bus>,
    lines: seq<Line>,
    shiftMaxPercent: real,
    shiftMaxHours: int)

  function Abs(x: int): nat
  {
    if x < 0 then -x else x
  }

  /** The value of a per-period series at period t (1-based). */
  function SeriesAt(s: seq<real>, t: int): real
  {
    if 1 <= t <= |s| then s[t - 1] else 0.0
  }

  /** The value of a variable indexed by (entity position i, period t). */
  function At(x: seq<seq<real>>, i: int, t: int): real
  {
    if 0 <= i < |x| then SeriesAt(x[i], t) else 0.0
  }

  /** The bus ids, in the order of B. */
  function BusIds(inst: Instance): seq<Id>
  {
    seq(|inst.buses|, b requires 0 <= b < |inst.buses| => inst.buses[b].id)
  }

  predicate DistinctIds(inst: Instance)
  {
    && (forall i, j :: 0 <= i < j < |inst.gens| ==> inst.gens[i].id != inst.gens[j].id)
    && (forall i, j :: 0 <= i < j < |inst.renewables| ==> inst.renewables[i].id != inst.renewables[j].id)
    && (forall i, j :: 0 <= i < j < |inst.storage| ==> inst.storage[i].id != inst.storage[j].id)
    && (forall i, j :: 0 <= i < j < |inst.buses| ==> inst.buses[i].id != inst.buses[j].id)
    && (forall i, j :: 0 <= i < j < |inst.lines| ==> inst.lines[i].id != inst.lines[j].id)
  }

  /** Energy capacity of a storage device: Pmax_storage * Storage_duration. */
  function Capacity(st: StorageDevice): real
  {
    st.pmax * st.duration
  }

  /**
   * The storage parameters are declared NonNegativeReals; the state-of-charge
   * rule divides by the efficiency and by the energy capacity, so both must be
   * positive.
   */
  predicate StorageParamsValid(st: StorageDevice)
  {
    && 0.0 <= st.pmax && 0.0 <= st.duration && 0.0 <= st.socInit
    && 0.0 < st.efficiency && 0.0 < Capacity(st)
  }

  /**
   * What building the instance from data guarantees. With shift_max_hours
   * below 2 the shift window is empty, so the shift-limit rule of every bus
   * compares two constants and yields a bare Boolean, which Pyomo refuses as
   * a constraint: a model with a bus is then never built.
   */
  predicate ValidInstance(inst: Instance)
  {
    && DistinctIds(inst)
    && (|inst.buses| == 0 || inst.shiftMaxHours >= 2)
    && (forall b :: 0 <= b < |inst.buses| ==> |inst.buses[b].demand| == T)
    && (forall r :: 0 <= r < |inst.renewables| ==> |inst.renewables[r].profile| == T)
    && (forall s :: 0 <= s < |inst.storage| ==>
          StorageParamsValid(inst.storage[s]) && inst.storage[s].bus in BusIds(inst))
  }

  /** model.tpairs: ordered pairs of distinct periods at most shift_max_hours apart. */
  function TPairs(maxHours: int): set<(int, int)>
  {
    set t1, t2 | 1 <= t1 <= T && 1 <= t2 <= T && 0 < Abs(t1 - t2) <= maxHours :: (t1, t2)
  }

  /**
   * The window the balance and the shift-limit rules sum over: k != t and
   * |k - t| strictly below shift_max_hours.
   */
  predicate InWindow(inst: Instance, k: int, t: int)
  {
    k != t && Abs(k - t) < inst.shiftMaxHours
  }

  // ---------------------------------------------------------------------
  // Decision variables
  // ---------------------------------------------------------------------

  /**
   * A value for every decision variable. Each `seq<seq<real>>` is indexed by
   * the entity's position in its set and then by t - 1; `shift[b]` maps each
   * declared pair (t1, t2) to the demand moved at bus b from t1 to t2.
   */
  datatype Schedule = Schedule(
    y: seq<seq<real>>, u: seq<seq<real>>, v: seq<seq<real>>, p: seq<seq<real>>,
    flow: seq<seq<real>>,
    pRenewables: seq<seq<real>>,
    charge: seq<seq<real>>, discharge: seq<seq<real>>, soc: seq<seq<real>>,
    shift: seq<map<(int, int), real>>)

  predicate Shaped(x: seq<seq<real>>, n: int)
  {
    |x| == n && forall i :: 0 <= i < n ==> |x[i]| == T
  }

  /** Every variable of every index tuple has a value. */
  predicate WellShaped(inst: Instance, s: Schedule)
  {
    && Shaped(s.y, |inst.gens|) && Shaped(s.u, |inst.gens|)
    && Shaped(s.v, |inst.gens|) && Shaped(s.p, |inst.gens|)
    && Shaped(s.flow, |inst.lines|)
    && Shaped(s.pRenewables, |inst.renewables|)
    && Shaped(s.charge, |inst.storage|) && Shaped(s.discharge, |inst.storage|)
    && Shaped(s.soc, |inst.storage|)
    && |s.shift| == |inst.buses|
    && (forall b :: 0 <= b < |s.shift| ==> s.shift[b].Keys == TPairs(inst.shiftMaxHours))
  }

  /** shift[b, (t1, t2)], zero for an undeclared pair. */
  function ShiftAt(s: Schedule, b: int, t1: int, t2: int): real
  {
    if 0 <= b < |s.shift| && (t1, t2) in s.shift[b] then s.shift[b][(t1, t2)] else 0.0
  }

  predicate Binary(x: real)
  {
    x == 0.0 || x == 1.0
  }

  /** The declared domains: y, u, v Binary; P, P_renewables, Charge, Discharge, SOC, shift NonNegativeReals; Flow free. */
  predicate VariableDomains(inst: Instance, s: Schedule)
  {
    && (forall g, t :: 0 <= g < |inst.gens| && 1 <= t <= T ==>
          Binary(At(s.y, g, t)) && Binary(At(s.u, g, t)) && Binary(At(s.v, g, t)) && At(s.p, g, t) >= 0.0)
    && (forall r, t :: 0 <= r < |inst.renewables| && 1 <= t <= T ==> At(s.pRenewables, r, t) >= 0.0)
    && (forall d, t :: 0 <= d < |inst.storage| && 1 <= t <= T ==>
          At(s.charge, d, t) >= 0.0 && At(s.discharge, d, t) >= 0.0 && At(s.soc, d, t) >= 0.0)
    && (forall b, pair :: 0 <= b < |inst.buses| && pair in TPairs(inst.shiftMaxHours) ==>
          ShiftAt(s, b, pair.0, pair.1) >= 0.0)
  }

  // ---------------------------------------------------------------------
  // Objective
  // ---------------------------------------------------------------------

  /** Cgen[g] * P[g, t] summed over the horizon, for one generator. */
  function UnitGenerationCost(inst: Instance, s: Schedule, g: int): real
  {
    if 0 <= g < |inst.gens| then Sum(1, T + 1, t => inst.gens[g].cgen * At(s.p, g, t)) else 0.0
  }

  /** Cstartup[g] * u[g, t] summed over the horizon, for one generator. */
  function UnitStartupCost(inst: Instance, s: Schedule, g: int): real
  {
    if 0 <= g < |inst.gens| then Sum(1, T + 1, t => inst.gens[g].cstartup * At(s.u, g, t)) else 0.0
  }

  /** Cshutdown[g] * v[g, t] summed over the horizon, for one generator. */
  function UnitShutdownCost(inst: Instance, s: Schedule, g: int): real
  {
    if 0 <= g < |inst.gens| then Sum(1, T + 1, t => inst.gens[g].cshutdown * At(s.v, g, t)) else 0.0
  }

  function GenerationCost(inst: Instance, s: Schedule): real
  {
    Sum(0, |inst.gens|, g => UnitGenerationCost(inst, s, g))
  }

  function StartupCost(inst: Instance, s: Schedule): real
  {
    Sum(0, |inst.gens|, g => UnitStartupCost(inst, s, g))
  }

  function ShutdownCost(inst: Instance, s: Schedule): real
  {
    Sum(0, |inst.gens|, g => UnitShutdownCost(inst, s, g))
  }

  /** objective_rule: generation plus startup plus shutdown cost (no curtailment term). */
  function Cost(inst: Instance, s: Schedule): real
  {
    GenerationCost(inst, s) + StartupCost(inst, s) + ShutdownCost(inst, s)
  }

  // ---------------------------------------------------------------------
  // Power balance and demand shifting
  // ---------------------------------------------------------------------

  /** GenBus, GenBusRenewables, StorageBus, LineFrom and LineTo, each in the order of its set. */
  function GenBuses(inst: Instance): seq<Id>
  {
    seq(|inst.gens|, g requires 0 <= g < |inst.gens| => inst.gens[g].bus)
  }

  function RenewableBuses(inst: Instance): seq<Id>
  {
    seq(|inst.renewables|, r requires 0 <= r < |inst.renewables| => inst.renewables[r].bus)
  }

  function StorageBuses(inst: Instance): seq<Id>
  {
    seq(|inst.storage|, d requires 0 <= d < |inst.storage| => inst.storage[d].bus)
  }

  function LineFromBuses(inst: Instance): seq<Id>
  {
    seq(|inst.lines|, l requires 0 <= l < |inst.lines| => inst.lines[l].lineFrom)
  }

  function LineToBuses(inst: Instance): seq<Id>
  {
    seq(|inst.lines|, l requires 0 <= l < |inst.lines| => inst.lines[l].lineTo)
  }

  /**
   * `sum(x[j, t] for j in S if Bus[j] == bus)`: the total at period t of
   * variable x over the entities whose bus (keys[j]) is `bus`.
   */
  function BusTotal(keys: seq<Id>, x: seq<seq<real>>, bus: Id, t: int): real
  {
    Sum(0, |keys|, j => if 0 <= j < |keys| && keys[j] == bus then At(x, j, t) else 0.0)
  }

  /**
   * Left side of the power balance at a bus: thermal plus renewable output,
   * plus storage discharge minus charge, plus flow on lines leaving the bus
   * minus flow on lines entering it.
   */
  function Supply(inst: Instance, s: Schedule, bus: Id, t: int): real
  {
    BusTotal(GenBuses(inst), s.p, bus, t)
    + BusTotal(RenewableBuses(inst), s.pRenewables, bus, t)
    + BusTotal(StorageBuses(inst), s.discharge, bus, t)
    - BusTotal(StorageBuses(inst), s.charge, bus, t)
    + (BusTotal(LineFromBuses(inst), s.flow, bus, t) - BusTotal(LineToBuses(inst), s.flow, bus, t))
  }

  /** Demand moved into period t at bus b, over the strict window. */
  function ShiftIn(inst: Instance, s: Schedule, b: int, t: int): real
  {
    Sum(1, T + 1, k => if InWindow(inst, k, t) then ShiftAt(s, b, k, t) else 0.0)
  }

  /** Demand moved out of period t at bus b, over the strict window. */
  function ShiftOut(inst: Instance, s: Schedule, b: int, t: int): real
  {
    Sum(1, T + 1, k => if InWindow(inst, k, t) then ShiftAt(s, b, t, k) else 0.0)
  }

  function NetShift(inst: Instance, s: Schedule, b: int, t: int): real
  {
    ShiftIn(inst, s, b, t) - ShiftOut(inst, s, b, t)
  }

  function Demand(inst: Instance, b: int, t: int): real
    requires 0 <= b < |inst.buses|
  {
    SeriesAt(inst.buses[b].demand, t)
  }

  /** relaxed_power_balance_rule at bus b, period t. */
  predicate PowerBalance(inst: Instance, s: Schedule, b: int, t: int)
    requires 0 <= b < |inst.buses|
  {
    Supply(inst, s, inst.buses[b].id, t) == Demand(inst, b, t) + NetShift(inst, s, b, t)
  }

  /** demand_shift_limit_rule: what leaves period t is at most shift_max_percent of its demand. */
  predicate DemandShiftLimit(inst: Instance, s: Schedule, b: int, t: int)
    requires 0 <= b < |inst.buses|
  {
    ShiftOut(inst, s, b, t) <= inst.shiftMaxPercent * Demand(inst, b, t)
  }

  /** demand_shift_hours_rule over every declared pair: zero when |t1 - t2| > shift_max_hours, else skipped. */
  predicate DemandShiftHours(inst: Instance, s: Schedule, b: int)
  {
    forall pair :: pair in TPairs(inst.shiftMaxHours) ==>
      (Abs(pair.0 - pair.1) > inst.shiftMaxHours ==> ShiftAt(s, b, pair.0, pair.1) == 0.0)
  }

  // ---------------------------------------------------------------------
  // Generators and lines
  // ---------------------------------------------------------------------

  predicate GenLimitsMin(inst: Instance, s: Schedule, g: int, t: int)
    requires 0 <= g < |inst.gens|
  {
    At(s.p, g, t) >= inst.gens[g].pmin * At(s.y, g, t)
  }

  predicate GenLimitsMax(inst: Instance, s: Schedule, g: int, t: int)
    requires 0 <= g < |inst.gens|
  {
    At(s.p, g, t) <= inst.gens[g].pmax * At(s.y, g, t)
  }

  predicate FlowLimitsLower(inst: Instance, s: Schedule, l: int, t: int)
    requires 0 <= l < |inst.lines|
  {
    At(s.flow, l, t) >= -inst.lines[l].lineMax
  }

  predicate FlowLimitsUpper(inst: Instance, s: Schedule, l: int, t: int)
    requires 0 <= l < |inst.lines|
  {
    At(s.flow, l, t) <= inst.lines[l].lineMax
  }

  /** startup_shutdown_rule: y0 stands for the status before period 1. */
  predicate StartupShutdown(inst: Instance, s: Schedule, g: int, t: int)
    requires 0 <= g < |inst.gens|
  {
    if t == 1 then
      At(s.y, g, t) - inst.gens[g].y0 == At(s.u, g, t) - At(s.v, g, t)
    else
      At(s.y, g, t) - At(s.y, g, t - 1) == At(s.u, g, t) - At(s.v, g, t)
  }

  /** min_up_time_rule: skipped while t < MUT; otherwise startups in the last MUT periods are at most y. */
  predicate MinUpTime(inst: Instance, s: Schedule, g: int, t: int)
    requires 0 <= g < |inst.gens|
  {
    t < inst.gens[g].mut ||
    Sum(t - inst.gens[g].mut + 1, t + 1, k => At(s.u, g, k)) <= At(s.y, g, t)
  }

  /** min_down_time_rule: skipped while t < MDT; otherwise shutdowns in the last MDT periods are at most 1 - y. */
  predicate MinDownTime(inst: Instance, s: Schedule, g: int, t: int)
    requires 0 <= g < |inst.gens|
  {
    t < inst.gens[g].mdt ||
    Sum(t - inst.gens[g].mdt + 1, t + 1, k => At(s.v, g, k)) <= 1.0 - At(s.y, g, t)
  }

  /** ramp_up_rule, skipped at period 1. */
  predicate RampUp(inst: Instance, s: Schedule, g: int, t: int)
    requires 0 <= g < |inst.gens|
  {
    t == 1 || At(s.p, g, t) - At(s.p, g, t - 1) <= inst.gens[g].rup
  }

  /** ramp_down_rule, skipped at period 1. */
  predicate RampDown(inst: Instance, s: Schedule, g: int, t: int)
    requires 0 <= g < |inst.gens|
  {
    t == 1 || At(s.p, g, t - 1) - At(s.p, g, t) <= inst.gens[g].rdown
  }

  /** initial_conditions_rule: y[g, 1] is 1 when y0 is 1 and 0 otherwise. */
  predicate InitialConditions(inst: Instance, s: Schedule, g: int)
    requires 0 <= g < |inst.gens|
  {
    At(s.y, g, 1) == if inst.gens[g].y0 == 1.0 then 1.0 else 0.0
  }

  // ---------------------------------------------------------------------
  // Renewables and storage
  // ---------------------------------------------------------------------

  /** renewables_generation_limits: the profile is a percentage of capacity. */
  predicate RenewablesLimit(inst: Instance, s: Schedule, r: int, t: int)
    requires 0 <= r < |inst.renewables|
  {
    At(s.pRenewables, r, t)
      <= inst.renewables[r].pmax * SeriesAt(inst.renewables[r].profile, t) / 100.0
  }

  /**
   * Change of the state of charge in one period: charge scaled by the
   * efficiency, discharge divided by it, both over the energy capacity.
   */
  function SocDelta(st: StorageDevice, charge: real, discharge: real): real
    requires StorageParamsValid(st)
  {
    (charge * st.efficiency) / Capacity(st) - discharge / (st.efficiency * Capacity(st))
  }

  /** soc_constraint_rule: SOC_init stands for the state before period 1. */
  predicate SocRule(inst: Instance, s: Schedule, d: int, t: int)
    requires 0 <= d < |inst.storage| && StorageParamsValid(inst.storage[d])
  {
    var prev := if t == 1 then inst.storage[d].socInit else At(s.soc, d, t - 1);
    At(s.soc, d, t) == prev + SocDelta(inst.storage[d], At(s.charge, d, t), At(s.discharge, d, t))
  }

  predicate StorageDischargeLimit(inst: Instance, s: Schedule, d: int, t: int)
    requires 0 <= d < |inst.storage|
  {
    At(s.discharge, d, t) <= inst.storage[d].pmax
  }

  predicate StorageChargeLimit(inst: Instance, s: Schedule, d: int, t: int)
    requires 0 <= d < |inst.storage|
  {
    At(s.charge, d, t) <= inst.storage[d].pmax
  }

  predicate SocBound(inst: Instance, s: Schedule, d: int, t: int)
  {
    At(s.soc, d, t) <= 1.0
  }

  // ---------------------------------------------------------------------
  // Feasibility
  // ---------------------------------------------------------------------

  /** Every constraint rule of the model, at every index tuple it is built for. */
  predicate Feasible(inst: Instance, s: Schedule)
    requires ValidInstance(inst)
  {
    && WellShaped(inst, s)
    && VariableDomains(inst, s)
    && (forall b, t :: 0 <= b < |inst.buses| && 1 <= t <= T ==> PowerBalance(inst, s, b, t))
    && (forall b, t :: 0 <= b < |inst.buses| && 1 <= t <= T ==> DemandShiftLimit(inst, s, b, t))
    && (forall b :: 0 <= b < |inst.buses| ==> DemandShiftHours(inst, s, b))
    && (forall g, t :: 0 <= g < |inst.gens| && 1 <= t <= T ==> GenLimitsMin(inst, s, g, t))
    && (forall g, t :: 0 <= g < |inst.gens| && 1 <= t <= T ==> GenLimitsMax(inst, s, g, t))
    && (forall l, t :: 0 <= l < |inst.lines| && 1 <= t <= T ==> FlowLimitsLower(inst, s, l, t))
    && (forall l, t :: 0 <= l < |inst.lines| && 1 <= t <= T ==> FlowLimitsUpper(inst, s, l, t))
    && (forall g, t :: 0 <= g < |inst.gens| && 1 <= t <= T ==> StartupShutdown(inst, s, g, t))
    && (forall g, t :: 0 <= g < |inst.gens| && 1 <= t <= T ==> MinUpTime(inst, s, g, t))
    && (forall g, t :: 0 <= g < |inst.gens| && 1 <= t <= T ==> MinDownTime(inst, s, g, t))
    && (forall g, t :: 0 <= g < |inst.gens| && 1 <= t <= T ==> RampUp(inst, s, g, t))
    && (forall g, t :: 0 <= g < |inst.gens| && 1 <= t <= T ==> RampDown(inst, s, g, t))
    && (forall g :: 0 <= g < |inst.gens| ==> InitialConditions(inst, s, g))
    && (forall r, t :: 0 <= r < |inst.renewables| && 1 <= t <= T ==> RenewablesLimit(inst, s, r, t))
    && (forall d, t :: 0 <= d < |inst.storage| && 1 <= t <= T ==> SocRule(inst, s, d, t))
    && (forall d, t :: 0 <= d < |inst.storage| && 1 <= t <= T ==> StorageDischargeLimit(inst, s, d, t))
    && (forall d, t :: 0 <= d < |inst.storage| && 1 <= t <= T ==> StorageChargeLimit(inst, s, d, t))
    && (forall d, t :: 0 <= d < |inst.storage| && 1 <= t <= T ==> SocBound(inst, s, d, t))
  }
}
