/**
 * System-wide consequences of the per-bus power-balance rule: summed over
 * all buses, line flows cancel, so total generation plus storage discharge
 * minus charge meets total demand plus total net shift in every period; and
 * since the shift window is symmetric, net shift cancels over the horizon,
 * so over the whole day supply equals demand.
 */
module EnergyBalance {
  import opened Sums
  import opened UnitCommitmentModel

  /** Every GenBus, GenBusRenewables, LineFrom and LineTo names a bus of B. */
  predicate ReferencesResolve(inst: Instance)
  {
    && (forall g :: 0 <= g < |inst.gens| ==> inst.gens[g].bus in BusIds(inst))
    && (forall r :: 0 <= r < |inst.renewables| ==> inst.renewables[r].bus in BusIds(inst))
    && (forall l :: 0 <= l < |inst.lines| ==>
          inst.lines[l].lineFrom in BusIds(inst) && inst.lines[l].lineTo in BusIds(inst))
  }

  /** The total of variable x over all n entities at period t. */
  function SystemTotal(x: seq<seq<real>>, n: int, t: int): real
  {
    Sum(0, n, j => At(x, j, t))
  }

  /** Generation plus storage discharge minus charge, over the whole system, at period t. */
  function SystemSupply(inst: Instance, s: Schedule, t: int): real
  {
    SystemTotal(s.p, |inst.gens|, t) + SystemTotal(s.pRenewables, |inst.renewables|, t)
    + SystemTotal(s.discharge, |inst.storage|, t) - SystemTotal(s.charge, |inst.storage|, t)
  }

  function TotalDemand(inst: Instance, t: int): real
  {
    Sum(0, |inst.buses|, b => if 0 <= b < |inst.buses| then Demand(inst, b, t) else 0.0)
  }

  function TotalNetShift(inst: Instance, s: Schedule, t: int): real
  {
    Sum(0, |inst.buses|, b => NetShift(inst, s, b, t))
  }

  /**
   * Summing a per-bus total over every bus of B counts each entity once,
   * when bus ids are distinct and every entity's bus is among them.
   */
  lemma RegroupByBus(ids: seq<Id>, keys: seq<Id>, x: seq<seq<real>>, t: int)
    requires forall b1, b2 :: 0 <= b1 < b2 < |ids| ==> ids[b1] != ids[b2]
    requires forall j :: 0 <= j < |keys| ==> keys[j] in ids
    ensures Sum(0, |ids|, b => if 0 <= b < |ids| then BusTotal(keys, x, ids[b], t) else 0.0)
         == Sum(0, |keys|, j => At(x, j, t))
  {
    var F := (b: int, j: int) =>
      if 0 <= b < |ids| && 0 <= j < |keys| && keys[j] == ids[b] then At(x, j, t) else 0.0;
    forall b | 0 <= b < |ids|
      ensures BusTotal(keys, x, ids[b], t) == Sum(0, |keys|, j => F(b, j))
    {
      SumExt(0, |keys|, j => if 0 <= j < |keys| && keys[j] == ids[b] then At(x, j, t) else 0.0,
                        j => F(b, j));
    }
    SumExt(0, |ids|, b => if 0 <= b < |ids| then BusTotal(keys, x, ids[b], t) else 0.0,
                     b => Sum(0, |keys|, j => F(b, j)));
    SumSwap(0, |ids|, 0, |keys|, F);
    forall j | 0 <= j < |keys|
      ensures Sum(0, |ids|, b => F(b, j)) == At(x, j, t)
    {
      var m :| 0 <= m < |ids| && ids[m] == keys[j];
      SumSingleTerm(0, |ids|, b => F(b, j), m);
    }
    SumExt(0, |keys|, j => Sum(0, |ids|, b => F(b, j)), j => At(x, j, t));
  }

  /** Supply summed over the buses of B. */
  function BusSupplyTotal(inst: Instance, s: Schedule, t: int): real
  {
    var ids := BusIds(inst);
    Sum(0, |ids|, b => if 0 <= b < |ids| then Supply(inst, s, ids[b], t) else 0.0)
  }

  /** Summed over all buses, the supply side of the balance is system supply: line flows cancel. */
  lemma BusSupplyTotalIsSystemSupply(inst: Instance, s: Schedule, t: int)
    requires ValidInstance(inst) && ReferencesResolve(inst)
    ensures BusSupplyTotal(inst, s, t) == SystemSupply(inst, s, t)
  {
    var ids := BusIds(inst);
    var n := |ids|;
    var th := b => if 0 <= b < n then BusTotal(GenBuses(inst), s.p, ids[b], t) else 0.0;
    var re := b => if 0 <= b < n then BusTotal(RenewableBuses(inst), s.pRenewables, ids[b], t) else 0.0;
    var di := b => if 0 <= b < n then BusTotal(StorageBuses(inst), s.discharge, ids[b], t) else 0.0;
    var ch := b => if 0 <= b < n then BusTotal(StorageBuses(inst), s.charge, ids[b], t) else 0.0;
    var ff := b => if 0 <= b < n then BusTotal(LineFromBuses(inst), s.flow, ids[b], t) else 0.0;
    var ft := b => if 0 <= b < n then BusTotal(LineToBuses(inst), s.flow, ids[b], t) else 0.0;
    var a1 := b => th(b) + re(b);
    var a2 := b => a1(b) + di(b);
    var a3 := b => a2(b) - ch(b);
    var a4 := b => ff(b) - ft(b);
    var total := b => if 0 <= b < n then Supply(inst, s, ids[b], t) else 0.0;
    SumAdd(0, n, th, re, a1);
    SumAdd(0, n, a1, di, a2);
    SumSub(0, n, a2, ch, a3);
    SumSub(0, n, ff, ft, a4);
    SumAdd(0, n, a3, a4, total);

    assert forall b1, b2 :: 0 <= b1 < b2 < n ==> ids[b1] != ids[b2];
    RegroupByBus(ids, GenBuses(inst), s.p, t);
    RegroupByBus(ids, RenewableBuses(inst), s.pRenewables, t);
    RegroupByBus(ids, StorageBuses(inst), s.discharge, t);
    RegroupByBus(ids, StorageBuses(inst), s.charge, t);
    RegroupByBus(ids, LineFromBuses(inst), s.flow, t);
    RegroupByBus(ids, LineToBuses(inst), s.flow, t);
  }

  /**
   * In every period of a feasible schedule, system generation plus discharge
   * minus charge equals total demand plus total net shift.
   */
  lemma SystemBalance(inst: Instance, s: Schedule, t: int)
    requires ValidInstance(inst) && ReferencesResolve(inst) && Feasible(inst, s)
    requires 1 <= t <= T
    ensures SystemSupply(inst, s, t) == TotalDemand(inst, t) + TotalNetShift(inst, s, t)
  {
    var ids := BusIds(inst);
    var n := |ids|;
    forall b | 0 <= b < n
      ensures Supply(inst, s, ids[b], t) == Demand(inst, b, t) + NetShift(inst, s, b, t)
    {
      assert PowerBalance(inst, s, b, t);
    }
    SumAdd(0, n, b => if 0 <= b < n then Demand(inst, b, t) else 0.0, b => NetShift(inst, s, b, t),
           b => if 0 <= b < n then Supply(inst, s, ids[b], t) else 0.0);
    BusSupplyTotalIsSystemSupply(inst, s, t);
  }

  /**
   * At every bus, net shift sums to zero over the horizon, for any values of
   * the shift variables: the window is symmetric, so every counted pair is
   * received once and sent once.
   */
  lemma NetShiftCancelsOverHorizon(inst: Instance, s: Schedule, b: int)
    ensures Sum(1, T + 1, t => NetShift(inst, s, b, t)) == 0.0
  {
    var F := (i: int, j: int) => if InWindow(inst, i, j) then ShiftAt(s, b, i, j) else 0.0;
    var received := t => Sum(1, T + 1, k => F(k, t));
    var sent := t => Sum(1, T + 1, k => F(t, k));
    forall t | 1 <= t < T + 1
      ensures NetShift(inst, s, b, t) == received(t) - sent(t)
    {
      SumExt(1, T + 1, k => if InWindow(inst, k, t) then ShiftAt(s, b, k, t) else 0.0, k => F(k, t));
      SumExt(1, T + 1, k => if InWindow(inst, k, t) then ShiftAt(s, b, t, k) else 0.0, k => F(t, k));
    }
    SumSub(1, T + 1, received, sent, t => NetShift(inst, s, b, t));
    SumSwap(1, T + 1, 1, T + 1, F);
    SumExt(1, T + 1, sent, i => Sum(1, T + 1, j => F(i, j)));
    SumExt(1, T + 1, received, j => Sum(1, T + 1, i => F(i, j)));
  }

  /** Net shift at bus b summed over the horizon. */
  function HorizonNetShift(inst: Instance, s: Schedule, b: int): real
  {
    Sum(1, T + 1, t => NetShift(inst, s, b, t))
  }

  /** Summed over all buses and all periods, net shift is zero. */
  lemma TotalNetShiftCancels(inst: Instance, s: Schedule)
    ensures Sum(1, T + 1, t => TotalNetShift(inst, s, t)) == 0.0
  {
    var n := |inst.buses|;
    var F := (b: int, t: int) => NetShift(inst, s, b, t);
    SumSwap(0, n, 1, T + 1, F);
    forall b | 0 <= b < n
      ensures HorizonNetShift(inst, s, b) == 0.0
      ensures Sum(1, T + 1, t => F(b, t)) == HorizonNetShift(inst, s, b)
    {
      NetShiftCancelsOverHorizon(inst, s, b);
      SumExt(1, T + 1, t => F(b, t), t => NetShift(inst, s, b, t));
    }
    SumExt(0, n, b => Sum(1, T + 1, t => F(b, t)), b => HorizonNetShift(inst, s, b));
    SumZero(0, n, b => HorizonNetShift(inst, s, b));
    forall t | 1 <= t < T + 1
      ensures TotalNetShift(inst, s, t) == Sum(0, n, b => F(b, t))
    {
      SumExt(0, n, b => NetShift(inst, s, b, t), b => F(b, t));
    }
    SumExt(1, T + 1, t => TotalNetShift(inst, s, t), t => Sum(0, n, b => F(b, t)));
  }

  /**
   * Over the whole horizon of a feasible schedule, system generation plus
   * discharge minus charge equals total demand: shifting only moves demand
   * between periods.
   */
  lemma HorizonEnergyBalance(inst: Instance, s: Schedule)
    requires ValidInstance(inst) && ReferencesResolve(inst) && Feasible(inst, s)
    ensures Sum(1, T + 1, t => SystemSupply(inst, s, t)) == Sum(1, T + 1, t => TotalDemand(inst, t))
  {
    forall t | 1 <= t < T + 1
      ensures SystemSupply(inst, s, t) == TotalDemand(inst, t) + TotalNetShift(inst, s, t)
    {
      SystemBalance(inst, s, t);
    }
    SumAdd(1, T + 1, t => TotalDemand(inst, t), t => TotalNetShift(inst, s, t), t => SystemSupply(inst, s, t));
    TotalNetShiftCancels(inst, s);
  }
}
