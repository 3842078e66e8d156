/**
 * Result extraction of `solve_unit_commitment` (solve_uc_solar.py): from
 * an instance and the schedule the solver assigned, the per-entity time
 * series, the per-bus net-shift series, the per-storage charge-minus-
 * discharge series and the total cost, gathered into one record keyed by
 * entity id.
 */
module SolveResults {
  import opened Sums
  import opened UnitCommitmentModel
  import opened EnergyBalance

  datatype GeneratorResult = GeneratorResult(
    powerOutput: seq<real>, onOffStatus: seq<real>, startup: seq<real>, shutdown: seq<real>,
    maxCapacity: real, connectedBus: Id)

  datatype BusResult = BusResult(demand: seq<real>, shift: seq<real>)

  datatype LineResult = LineResult(flow: seq<real>, fromBus: Id, toBus: Id)

  datatype RenewableResult = RenewableResult(powerOutput: seq<real>, maxCapacity: real, connectedBus: Id)

  datatype StorageResult = StorageResult(
    chargeDischarge: seq<real>, charge: seq<real>, discharge: seq<real>, soc: seq<real>,
    connectedBus: Id)

  /** The `results_data` record. */
  datatype Results = Results(
    totalCost: real,
    generators: map<Id, GeneratorResult>,
    buses: map<Id, BusResult>,
    transmissionLines: map<Id, LineResult>,
    renewablesGenerators: map<Id, RenewableResult>,
    storage: map<Id, StorageResult>)

  /** The values of variable x for entity i, one per period, in period order. */
  function Series(x: seq<seq<real>>, i: int): (r: seq<real>)
    ensures |r| == T
    ensures forall t :: 1 <= t <= T ==> SeriesAt(r, t) == At(x, i, t)
  {
    seq(T, k => At(x, i, k + 1))
  }

  /** For a variable with a value at every period, the extracted series is exactly its values. */
  lemma SeriesIsLossless(x: seq<seq<real>>, n: int, i: int)
    requires Shaped(x, n) && 0 <= i < n
    ensures Series(x, i) == x[i]
  {
    assert forall k :: 0 <= k < T ==> Series(x, i)[k] == SeriesAt(Series(x, i), k + 1);
  }

  /**
   * The bus `shift` series: per period, shifts received from the periods of
   * the strict window minus shifts sent to them.
   */
  function BusShiftSeries(inst: Instance, s: Schedule, b: int): seq<real>
  {
    seq(T, i =>
      Sum(1, T + 1, k => if k != i + 1 && Abs(k - (i + 1)) < inst.shiftMaxHours then ShiftAt(s, b, k, i + 1) else 0.0)
      - Sum(1, T + 1, k => if k != i + 1 && Abs(k - (i + 1)) < inst.shiftMaxHours then ShiftAt(s, b, i + 1, k) else 0.0))
  }

  /** The storage `charge_discharge` series. */
  function ChargeDischargeSeries(s: Schedule, d: int): seq<real>
  {
    seq(T, i => At(s.charge, d, i + 1) - At(s.discharge, d, i + 1))
  }

  function GeneratorEntry(inst: Instance, s: Schedule, g: int): GeneratorResult
    requires 0 <= g < |inst.gens|
  {
    GeneratorResult(Series(s.p, g), Series(s.y, g), Series(s.u, g), Series(s.v, g),
                    inst.gens[g].pmax, inst.gens[g].bus)
  }

  function BusEntry(inst: Instance, s: Schedule, b: int): BusResult
    requires 0 <= b < |inst.buses|
  {
    BusResult(seq(T, i => Demand(inst, b, i + 1)), BusShiftSeries(inst, s, b))
  }

  function LineEntry(inst: Instance, s: Schedule, l: int): LineResult
    requires 0 <= l < |inst.lines|
  {
    LineResult(Series(s.flow, l), inst.lines[l].lineFrom, inst.lines[l].lineTo)
  }

  function RenewableEntry(inst: Instance, s: Schedule, r: int): RenewableResult
    requires 0 <= r < |inst.renewables|
  {
    RenewableResult(Series(s.pRenewables, r), inst.renewables[r].pmax, inst.renewables[r].bus)
  }

  function StorageEntry(inst: Instance, s: Schedule, d: int): StorageResult
    requires 0 <= d < |inst.storage|
  {
    StorageResult(ChargeDischargeSeries(s, d), Series(s.charge, d), Series(s.discharge, d),
                  Series(s.soc, d), inst.storage[d].bus)
  }

  /** A bus's reported shift at period t is the net shift of its power-balance rule. */
  lemma BusShiftMatchesBalance(inst: Instance, s: Schedule, b: int, t: int)
    requires 1 <= t <= T
    ensures |BusShiftSeries(inst, s, b)| == T
    ensures SeriesAt(BusShiftSeries(inst, s, b), t) == NetShift(inst, s, b, t)
  {
    SumExt(1, T + 1, k => if k != t && Abs(k - t) < inst.shiftMaxHours then ShiftAt(s, b, k, t) else 0.0,
                     k => if InWindow(inst, k, t) then ShiftAt(s, b, k, t) else 0.0);
    SumExt(1, T + 1, k => if k != t && Abs(k - t) < inst.shiftMaxHours then ShiftAt(s, b, t, k) else 0.0,
                     k => if InWindow(inst, k, t) then ShiftAt(s, b, t, k) else 0.0);
  }

  /**
   * Over the horizon a bus's shift series sums to zero, for any assignment of
   * the shift variables: the window is symmetric, so every counted pair is
   * received once and sent once.
   */
  lemma BusShiftSumsToZero(inst: Instance, s: Schedule, b: int)
    ensures Sum(1, T + 1, t => SeriesAt(BusShiftSeries(inst, s, b), t)) == 0.0
  {
    forall t | 1 <= t < T + 1
      ensures SeriesAt(BusShiftSeries(inst, s, b), t) == NetShift(inst, s, b, t)
    {
      BusShiftMatchesBalance(inst, s, b, t);
    }
    SumExt(1, T + 1, t => SeriesAt(BusShiftSeries(inst, s, b), t), t => NetShift(inst, s, b, t));
    NetShiftCancelsOverHorizon(inst, s, b);
  }

  /** Over the horizon, the charge-minus-discharge series totals charge minus discharge. */
  lemma ChargeDischargeTotal(s: Schedule, d: int)
    ensures Sum(1, T + 1, t => SeriesAt(ChargeDischargeSeries(s, d), t))
         == Sum(1, T + 1, t => At(s.charge, d, t)) - Sum(1, T + 1, t => At(s.discharge, d, t))
  {
    SumSub(1, T + 1, t => At(s.charge, d, t), t => At(s.discharge, d, t),
           t => SeriesAt(ChargeDischargeSeries(s, d), t));
  }

  /**
   * For a lossless device (efficiency 1) the reported charge-minus-discharge
   * series drives the state of charge: in every period of a feasible
   * schedule SOC moves from its previous value (SOC_init before period 1) by
   * that period's reported value over the energy capacity.
   */
  lemma LosslessSocFollowsChargeDischarge(inst: Instance, s: Schedule, d: int, t: int)
    requires ValidInstance(inst) && Feasible(inst, s)
    requires 0 <= d < |inst.storage| && 1 <= t <= T && inst.storage[d].efficiency == 1.0
    ensures At(s.soc, d, t)
         == (if t == 1 then inst.storage[d].socInit else At(s.soc, d, t - 1))
          + SeriesAt(ChargeDischargeSeries(s, d), t) / Capacity(inst.storage[d])
  {
    var st := inst.storage[d];
    assert SocRule(inst, s, d, t);
    LosslessDelta(st, At(s.charge, d, t), At(s.discharge, d, t));
  }

  /** With efficiency 1, a period's SOC change is charge minus discharge over capacity. */
  lemma LosslessDelta(st: StorageDevice, x: real, y: real)
    requires StorageParamsValid(st) && st.efficiency == 1.0
    ensures SocDelta(st, x, y) == (x - y) / Capacity(st)
  {
  }

  /**
   * Builds `results_data`: the total cost and one entry per generator, bus,
   * line, renewable and storage device, keyed by its id.
   */
  method ExtractResults(inst: Instance, s: Schedule) returns (r: Results)
    requires DistinctIds(inst)
    ensures r.totalCost == Cost(inst, s)
    ensures r.generators.Keys == set g | 0 <= g < |inst.gens| :: inst.gens[g].id
    ensures forall g :: 0 <= g < |inst.gens| ==> r.generators[inst.gens[g].id] == GeneratorEntry(inst, s, g)
    ensures r.buses.Keys == set b | 0 <= b < |inst.buses| :: inst.buses[b].id
    ensures forall b :: 0 <= b < |inst.buses| ==> r.buses[inst.buses[b].id] == BusEntry(inst, s, b)
    ensures r.transmissionLines.Keys == set l | 0 <= l < |inst.lines| :: inst.lines[l].id
    ensures forall l :: 0 <= l < |inst.lines| ==> r.transmissionLines[inst.lines[l].id] == LineEntry(inst, s, l)
    ensures r.renewablesGenerators.Keys == set n | 0 <= n < |inst.renewables| :: inst.renewables[n].id
    ensures forall n :: 0 <= n < |inst.renewables| ==>
      r.renewablesGenerators[inst.renewables[n].id] == RenewableEntry(inst, s, n)
    ensures r.storage.Keys == set d | 0 <= d < |inst.storage| :: inst.storage[d].id
    ensures forall d :: 0 <= d < |inst.storage| ==> r.storage[inst.storage[d].id] == StorageEntry(inst, s, d)
  {
    var generators: map<Id, GeneratorResult> := map[];
    for g := 0 to |inst.gens|
      invariant generators.Keys == set j | 0 <= j < g :: inst.gens[j].id
      invariant forall j :: 0 <= j < g ==> generators[inst.gens[j].id] == GeneratorEntry(inst, s, j)
    {
      generators := generators[inst.gens[g].id := GeneratorEntry(inst, s, g)];
    }

    var buses: map<Id, BusResult> := map[];
    for b := 0 to |inst.buses|
      invariant buses.Keys == set j | 0 <= j < b :: inst.buses[j].id
      invariant forall j :: 0 <= j < b ==> buses[inst.buses[j].id] == BusEntry(inst, s, j)
    {
      buses := buses[inst.buses[b].id := BusEntry(inst, s, b)];
    }

    var lines: map<Id, LineResult> := map[];
    for l := 0 to |inst.lines|
      invariant lines.Keys == set j | 0 <= j < l :: inst.lines[j].id
      invariant forall j :: 0 <= j < l ==> lines[inst.lines[j].id] == LineEntry(inst, s, j)
    {
      lines := lines[inst.lines[l].id := LineEntry(inst, s, l)];
    }

    var renewables: map<Id, RenewableResult> := map[];
    for n := 0 to |inst.renewables|
      invariant renewables.Keys == set j | 0 <= j < n :: inst.renewables[j].id
      invariant forall j :: 0 <= j < n ==> renewables[inst.renewables[j].id] == RenewableEntry(inst, s, j)
    {
      renewables := renewables[inst.renewables[n].id := RenewableEntry(inst, s, n)];
    }

    var storage: map<Id, StorageResult> := map[];
    for d := 0 to |inst.storage|
      invariant storage.Keys == set j | 0 <= j < d :: inst.storage[j].id
      invariant forall j :: 0 <= j < d ==> storage[inst.storage[j].id] == StorageEntry(inst, s, j)
    {
      storage := storage[inst.storage[d].id := StorageEntry(inst, s, d)];
    }

    r := Results(Cost(inst, s), generators, buses, lines, renewables, storage);
  }
}
