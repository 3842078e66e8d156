/**
 * Consequences of the unit-commitment constraint rules: what the shift-pair
 * set and the shift window admit, what a feasible schedule promises about
 * generator output, commitment, minimum up/down times, ramps, storage and
 * cost, and closed forms of the two recursions (commitment status and state
 * of charge).
 */
module UnitCommitmentProperties {
  import opened Sums
  import opened UnitCommitmentModel

  // ---------------------------------------------------------------------
  // Shift pairs and the shift window
  // ---------------------------------------------------------------------

  /** With shift_max_hours = 0 (or less) no shift pair is declared. */
  lemma TPairsEmptyWithoutHours(maxHours: int)
    requires maxHours <= 0
    ensures TPairs(maxHours) == {}
  {
  }

  /** The declared pairs are closed under reversal and grow with shift_max_hours. */
  lemma TPairsSymmetricAndMonotone(h1: int, h2: int, t1: int, t2: int)
    requires h1 <= h2
    ensures (t1, t2) in TPairs(h1) <==> (t2, t1) in TPairs(h1)
    ensures (t1, t2) in TPairs(h1) ==> (t1, t2) in TPairs(h2)
  {
  }

  /** Every variable the balance and limit sums read is a declared pair, in both orders. */
  lemma WindowPairsDeclared(inst: Instance, k: int, t: int)
    requires 1 <= k <= T && 1 <= t <= T
    requires InWindow(inst, k, t)
    ensures (k, t) in TPairs(inst.shiftMaxHours) && (t, k) in TPairs(inst.shiftMaxHours)
  {
  }

  /**
   * Pairs exactly shift_max_hours apart are declared but lie outside the
   * strict window; in particular shift_max_hours = 1 declares the adjacent
   * pairs and counts none of them.
   */
  lemma BoundaryPairsDeclaredNotCounted(inst: Instance, t1: int, t2: int)
    requires 1 <= t1 <= T && 1 <= t2 <= T && Abs(t1 - t2) == inst.shiftMaxHours
    requires inst.shiftMaxHours > 0
    ensures (t1, t2) in TPairs(inst.shiftMaxHours)
    ensures !InWindow(inst, t1, t2) && !InWindow(inst, t2, t1)
  {
  }

  /** The DemandShiftHours rule is skipped for every declared pair, whatever the schedule. */
  lemma DemandShiftHoursNeverBinds(inst: Instance, s: Schedule, b: int)
    ensures DemandShiftHours(inst, s, b)
  {
  }

  /** The schedule with shift[b, (t1, t2)] replaced by x. */
  function WithShift(s: Schedule, b: int, t1: int, t2: int, x: real): (r: Schedule)
    requires 0 <= b < |s.shift|
    ensures |r.shift| == |s.shift| && r.shift[b].Keys == s.shift[b].Keys + {(t1, t2)}
    ensures ShiftAt(r, b, t1, t2) == x
    ensures forall p :: p in s.shift[b] && p != (t1, t2) ==> r.shift[b][p] == s.shift[b][p]
    ensures forall c :: 0 <= c < |s.shift| && c != b ==> r.shift[c] == s.shift[c]
    ensures r.(shift := s.shift) == s
  {
    s.(shift := s.shift[b := s.shift[b][(t1, t2) := x]])
  }

  /**
   * A pair at least shift_max_hours apart is read by no balance and no shift
   * limit: changing its variable changes no ShiftIn and no ShiftOut.
   */
  lemma {:induction false} OutOfWindowPairUnread(inst: Instance, s: Schedule, b: int, t1: int, t2: int, x: real)
    requires 0 <= b < |s.shift|
    requires Abs(t1 - t2) >= inst.shiftMaxHours
    ensures forall c, t :: ShiftIn(inst, WithShift(s, b, t1, t2, x), c, t) == ShiftIn(inst, s, c, t)
    ensures forall c, t :: ShiftOut(inst, WithShift(s, b, t1, t2, x), c, t) == ShiftOut(inst, s, c, t)
  {
    var s' := WithShift(s, b, t1, t2, x);
    forall c, t
      ensures ShiftIn(inst, s', c, t) == ShiftIn(inst, s, c, t)
      ensures ShiftOut(inst, s', c, t) == ShiftOut(inst, s, c, t)
    {
      SumExt(1, T + 1, k => if InWindow(inst, k, t) then ShiftAt(s', c, k, t) else 0.0,
                       k => if InWindow(inst, k, t) then ShiftAt(s, c, k, t) else 0.0);
      SumExt(1, T + 1, k => if InWindow(inst, k, t) then ShiftAt(s', c, t, k) else 0.0,
                       k => if InWindow(inst, k, t) then ShiftAt(s, c, t, k) else 0.0);
    }
  }

  /** With shift_max_hours <= 1 the window is empty: no demand is shifted in or out of any period. */
  lemma NoShiftWithinShortWindow(inst: Instance, s: Schedule, b: int, t: int)
    requires inst.shiftMaxHours <= 1
    ensures ShiftIn(inst, s, b, t) == 0.0 && ShiftOut(inst, s, b, t) == 0.0
  {
    SumZero(1, T + 1, k => if InWindow(inst, k, t) then ShiftAt(s, b, k, t) else 0.0);
    SumZero(1, T + 1, k => if InWindow(inst, k, t) then ShiftAt(s, b, t, k) else 0.0);
  }

  /** shift_max_percent = 0 forces every counted shift to zero. */
  lemma ZeroPercentForbidsShift(inst: Instance, s: Schedule, b: int, t: int, k: int)
    requires ValidInstance(inst) && Feasible(inst, s)
    requires inst.shiftMaxPercent == 0.0
    requires 0 <= b < |inst.buses| && 1 <= t <= T && 1 <= k <= T && InWindow(inst, k, t)
    ensures ShiftAt(s, b, t, k) == 0.0 && ShiftAt(s, b, k, t) == 0.0
  {
    var outTerm := j => if InWindow(inst, j, t) then ShiftAt(s, b, t, j) else 0.0;
    forall j | 1 <= j < T + 1
      ensures outTerm(j) >= 0.0
    {
      if InWindow(inst, j, t) {
        WindowPairsDeclared(inst, j, t);
      }
    }
    assert DemandShiftLimit(inst, s, b, t);
    SumNonposForcesZero(1, T + 1, outTerm);
    assert outTerm(k) == 0.0;
    // the same argument at period k covers the pair (k, t)
    var backTerm := j => if InWindow(inst, j, k) then ShiftAt(s, b, k, j) else 0.0;
    forall j | 1 <= j < T + 1
      ensures backTerm(j) >= 0.0
    {
      if InWindow(inst, j, k) {
        WindowPairsDeclared(inst, j, k);
      }
    }
    assert DemandShiftLimit(inst, s, b, k);
    SumNonposForcesZero(1, T + 1, backTerm);
    assert backTerm(t) == 0.0;
  }

  // ---------------------------------------------------------------------
  // Generators and lines
  // ---------------------------------------------------------------------

  /** A unit that is off produces nothing; a unit that is on produces between Pmin and Pmax. */
  lemma GeneratorOutputBounds(inst: Instance, s: Schedule, g: int, t: int)
    requires ValidInstance(inst) && Feasible(inst, s)
    requires 0 <= g < |inst.gens| && 1 <= t <= T
    ensures At(s.y, g, t) == 0.0 ==> At(s.p, g, t) == 0.0
    ensures At(s.y, g, t) == 1.0 ==> inst.gens[g].pmin <= At(s.p, g, t) <= inst.gens[g].pmax
  {
    assert GenLimitsMin(inst, s, g, t) && GenLimitsMax(inst, s, g, t);
  }

  /** Flow stays within +-LineMax, so a feasible schedule has no line with negative LineMax. */
  lemma FlowWithinLimits(inst: Instance, s: Schedule, l: int, t: int)
    requires ValidInstance(inst) && Feasible(inst, s)
    requires 0 <= l < |inst.lines| && 1 <= t <= T
    ensures -inst.lines[l].lineMax <= At(s.flow, l, t) <= inst.lines[l].lineMax
    ensures inst.lines[l].lineMax >= 0.0
  {
    assert FlowLimitsLower(inst, s, l, t) && FlowLimitsUpper(inst, s, l, t);
  }

  /** Output changes between consecutive periods are bounded by Rup and Rdown from period 2 on. */
  lemma RampLimited(inst: Instance, s: Schedule, g: int, t: int)
    requires ValidInstance(inst) && Feasible(inst, s)
    requires 0 <= g < |inst.gens| && 2 <= t <= T
    ensures At(s.p, g, t) - At(s.p, g, t - 1) <= inst.gens[g].rup
    ensures At(s.p, g, t - 1) - At(s.p, g, t) <= inst.gens[g].rdown
  {
    assert RampUp(inst, s, g, t) && RampDown(inst, s, g, t);
  }

  /** Renewable output lies between zero and its profile share of capacity. */
  lemma RenewableWithinProfile(inst: Instance, s: Schedule, r: int, t: int)
    requires ValidInstance(inst) && Feasible(inst, s)
    requires 0 <= r < |inst.renewables| && 1 <= t <= T
    ensures 0.0 <= At(s.pRenewables, r, t)
                <= inst.renewables[r].pmax * inst.renewables[r].profile[t - 1] / 100.0
  {
    assert RenewablesLimit(inst, s, r, t);
  }

  // ---------------------------------------------------------------------
  // Commitment logic
  // ---------------------------------------------------------------------

  /** Startups minus shutdowns of generator g over periods 1..t. */
  function NetSwitches(s: Schedule, g: int, t: int): real
  {
    Sum(1, t + 1, k => At(s.u, g, k) - At(s.v, g, k))
  }

  lemma {:induction false} CommitmentPrefix(inst: Instance, s: Schedule, g: int, t: int)
    requires 0 <= g < |inst.gens| && 1 <= t <= T
    requires forall k :: 1 <= k <= t ==> StartupShutdown(inst, s, g, k)
    ensures At(s.y, g, t) == inst.gens[g].y0 + NetSwitches(s, g, t)
  {
    assert StartupShutdown(inst, s, g, t);
    assert NetSwitches(s, g, t) == NetSwitches(s, g, t - 1) + (At(s.u, g, t) - At(s.v, g, t));
    if t > 1 {
      CommitmentPrefix(inst, s, g, t - 1);
    }
  }

  /**
   * The commitment rule holds at every period exactly when the status is the
   * initial status plus the startups minus the shutdowns so far.
   */
  lemma CommitmentClosedForm(inst: Instance, s: Schedule, g: int)
    requires 0 <= g < |inst.gens|
    ensures (forall t :: 1 <= t <= T ==> StartupShutdown(inst, s, g, t))
        <==> (forall t :: 1 <= t <= T ==> At(s.y, g, t) == inst.gens[g].y0 + NetSwitches(s, g, t))
  {
    if forall t :: 1 <= t <= T ==> StartupShutdown(inst, s, g, t) {
      forall t | 1 <= t <= T
        ensures At(s.y, g, t) == inst.gens[g].y0 + NetSwitches(s, g, t)
      {
        CommitmentPrefix(inst, s, g, t);
      }
    }
    if forall t :: 1 <= t <= T ==> At(s.y, g, t) == inst.gens[g].y0 + NetSwitches(s, g, t) {
      forall t | 1 <= t <= T
        ensures StartupShutdown(inst, s, g, t)
      {
        assert NetSwitches(s, g, t) == NetSwitches(s, g, t - 1) + (At(s.u, g, t) - At(s.v, g, t));
      }
    }
  }

  /** With a binary initial status, the first period starts up exactly when it shuts down. */
  lemma FirstPeriodSwitchesCancel(inst: Instance, s: Schedule, g: int)
    requires ValidInstance(inst) && Feasible(inst, s)
    requires 0 <= g < |inst.gens| && Binary(inst.gens[g].y0)
    ensures At(s.u, g, 1) == At(s.v, g, 1)
    ensures At(s.y, g, 1) == inst.gens[g].y0
  {
    assert InitialConditions(inst, s, g) && StartupShutdown(inst, s, g, 1);
  }

  /** Once the minimum-up-time rule applies, a unit started within the last MUT periods is on. */
  lemma RecentStartupKeepsUnitOn(inst: Instance, s: Schedule, g: int, t: int, k: int)
    requires ValidInstance(inst) && Feasible(inst, s)
    requires 0 <= g < |inst.gens| && 1 <= t <= T && inst.gens[g].mut <= t
    requires t - inst.gens[g].mut < k <= t && At(s.u, g, k) == 1.0
    ensures At(s.y, g, t) == 1.0
  {
    var lo := t - inst.gens[g].mut + 1;
    forall j | lo <= j < t + 1
      ensures At(s.u, g, j) >= 0.0
    {
      assert Binary(At(s.u, g, j));
    }
    SumAtLeastTerm(lo, t + 1, j => At(s.u, g, j), k);
    assert MinUpTime(inst, s, g, t);
    assert Binary(At(s.y, g, t));
  }

  /** Once the minimum-down-time rule applies, a unit shut down within the last MDT periods is off. */
  lemma RecentShutdownKeepsUnitOff(inst: Instance, s: Schedule, g: int, t: int, k: int)
    requires ValidInstance(inst) && Feasible(inst, s)
    requires 0 <= g < |inst.gens| && 1 <= t <= T && inst.gens[g].mdt <= t
    requires t - inst.gens[g].mdt < k <= t && At(s.v, g, k) == 1.0
    ensures At(s.y, g, t) == 0.0
  {
    var lo := t - inst.gens[g].mdt + 1;
    forall j | lo <= j < t + 1
      ensures At(s.v, g, j) >= 0.0
    {
      assert Binary(At(s.v, g, j));
    }
    SumAtLeastTerm(lo, t + 1, j => At(s.v, g, j), k);
    assert MinDownTime(inst, s, g, t);
    assert Binary(At(s.y, g, t));
  }

  /**
   * Where both the minimum-up and minimum-down rules apply, a unit never
   * starts up and shuts down in the same period.
   */
  lemma NoSimultaneousSwitch(inst: Instance, s: Schedule, g: int, t: int)
    requires ValidInstance(inst) && Feasible(inst, s)
    requires 0 <= g < |inst.gens| && 1 <= t <= T
    requires 1 <= inst.gens[g].mut <= t && 1 <= inst.gens[g].mdt <= t
    ensures !(At(s.u, g, t) == 1.0 && At(s.v, g, t) == 1.0)
  {
    if At(s.u, g, t) == 1.0 && At(s.v, g, t) == 1.0 {
      RecentStartupKeepsUnitOn(inst, s, g, t, t);
      RecentShutdownKeepsUnitOff(inst, s, g, t, t);
    }
  }

  // ---------------------------------------------------------------------
  // Storage
  // ---------------------------------------------------------------------

  /** The state of charge implied by SOC_init and the charges and discharges of periods 1..t. */
  function SocTrajectory(st: StorageDevice, s: Schedule, d: int, t: int): real
    requires StorageParamsValid(st)
  {
    st.socInit + Sum(1, t + 1, k => SocDelta(st, At(s.charge, d, k), At(s.discharge, d, k)))
  }

  lemma {:induction false} SocPrefix(inst: Instance, s: Schedule, d: int, t: int)
    requires 0 <= d < |inst.storage| && StorageParamsValid(inst.storage[d]) && 1 <= t <= T
    requires forall k :: 1 <= k <= t ==> SocRule(inst, s, d, k)
    ensures At(s.soc, d, t) == SocTrajectory(inst.storage[d], s, d, t)
  {
    assert SocRule(inst, s, d, t);
    var st := inst.storage[d];
    assert SocTrajectory(st, s, d, t)
        == SocTrajectory(st, s, d, t - 1) + SocDelta(st, At(s.charge, d, t), At(s.discharge, d, t));
    if t > 1 {
      SocPrefix(inst, s, d, t - 1);
    }
  }

  /**
   * The state-of-charge rule holds at every period exactly when each SOC is
   * SOC_init plus the scaled charges minus the scaled discharges so far.
   */
  lemma SocClosedForm(inst: Instance, s: Schedule, d: int)
    requires 0 <= d < |inst.storage| && StorageParamsValid(inst.storage[d])
    ensures (forall t :: 1 <= t <= T ==> SocRule(inst, s, d, t))
        <==> (forall t :: 1 <= t <= T ==> At(s.soc, d, t) == SocTrajectory(inst.storage[d], s, d, t))
  {
    var st := inst.storage[d];
    if forall t :: 1 <= t <= T ==> SocRule(inst, s, d, t) {
      forall t | 1 <= t <= T
        ensures At(s.soc, d, t) == SocTrajectory(st, s, d, t)
      {
        SocPrefix(inst, s, d, t);
      }
    }
    if forall t :: 1 <= t <= T ==> At(s.soc, d, t) == SocTrajectory(st, s, d, t) {
      forall t | 1 <= t <= T
        ensures SocRule(inst, s, d, t)
      {
        var step := SocDelta(st, At(s.charge, d, t), At(s.discharge, d, t));
        assert SocTrajectory(st, s, d, t) == SocTrajectory(st, s, d, t - 1) + step;
      }
    }
  }

  /** State of charge stays in [0, 1]; charge and discharge stay in [0, Pmax_storage]. */
  lemma StorageWithinBounds(inst: Instance, s: Schedule, d: int, t: int)
    requires ValidInstance(inst) && Feasible(inst, s)
    requires 0 <= d < |inst.storage| && 1 <= t <= T
    ensures 0.0 <= At(s.soc, d, t) <= 1.0
    ensures 0.0 <= At(s.charge, d, t) <= inst.storage[d].pmax
    ensures 0.0 <= At(s.discharge, d, t) <= inst.storage[d].pmax
  {
    assert SocBound(inst, s, d, t);
    assert StorageChargeLimit(inst, s, d, t) && StorageDischargeLimit(inst, s, d, t);
  }

  /**
   * Efficiency is applied on both sides: after charging x, discharging
   * x * efficiency^2 returns the state of charge to where it was.
   */
  lemma RoundTripEfficiencySquared(st: StorageDevice, x: real)
    requires StorageParamsValid(st)
    ensures SocDelta(st, x, 0.0) + SocDelta(st, 0.0, x * st.efficiency * st.efficiency) == 0.0
  {
    var e, c := st.efficiency, Capacity(st);
    assert (x * e * e) / (e * c) == (x * e) / c by {
      assert (x * e * e) / (e * c) * (e * c) == x * e * e;
      assert (x * e) / c * (e * c) == x * e * e;
    }
  }

  // ---------------------------------------------------------------------
  // Objective
  // ---------------------------------------------------------------------

  /** With non-negative cost coefficients, every schedule within the variable domains has non-negative cost. */
  lemma CostNonnegative(inst: Instance, s: Schedule)
    requires VariableDomains(inst, s)
    requires forall g :: 0 <= g < |inst.gens| ==>
      inst.gens[g].cgen >= 0.0 && inst.gens[g].cstartup >= 0.0 && inst.gens[g].cshutdown >= 0.0
    ensures Cost(inst, s) >= 0.0
  {
    var n := |inst.gens|;
    forall g | 0 <= g < n
      ensures UnitGenerationCost(inst, s, g) >= 0.0
      ensures UnitStartupCost(inst, s, g) >= 0.0
      ensures UnitShutdownCost(inst, s, g) >= 0.0
    {
      var gen := inst.gens[g];
      forall t | 1 <= t < T + 1
        ensures gen.cgen * At(s.p, g, t) >= 0.0
        ensures gen.cstartup * At(s.u, g, t) >= 0.0
        ensures gen.cshutdown * At(s.v, g, t) >= 0.0
      {
        assert Binary(At(s.u, g, t)) && Binary(At(s.v, g, t));
      }
      SumNonneg(1, T + 1, t => gen.cgen * At(s.p, g, t));
      SumNonneg(1, T + 1, t => gen.cstartup * At(s.u, g, t));
      SumNonneg(1, T + 1, t => gen.cshutdown * At(s.v, g, t));
    }
    SumNonneg(0, n, g => UnitGenerationCost(inst, s, g));
    SumNonneg(0, n, g => UnitStartupCost(inst, s, g));
    SumNonneg(0, n, g => UnitShutdownCost(inst, s, g));
  }

  // ---------------------------------------------------------------------
  // A feasible instance
  // ---------------------------------------------------------------------

  /**
   * One bus with a flat demand of 10 served by one unit that stays on at 10;
   * shifts of up to 2 hours are allowed but none is made.
   */
  function SingleUnitInstance(): Instance
  {
    Instance(
      [Generator("G1", 5.0, 20.0, 2.0, 0.0, 0.0, 1, 1, 20.0, 20.0, 1.0, "B1")],
      [], [], [Bus("B1", seq(T, _ => 10.0))], [],
      0.2, 2)
  }

  function SingleUnitSchedule(): Schedule
  {
    var on := [seq(T, _ => 1.0)];
    var off := [seq(T, _ => 0.0)];
    Schedule(on, off, off, [seq(T, _ => 10.0)], [], [], [], [], [], [map p | p in TPairs(2) :: 0.0])
  }

  /** The single-unit schedule satisfies every rule of the single-unit instance. */
  lemma SingleUnitScheduleFeasible()
    ensures ValidInstance(SingleUnitInstance())
    ensures Feasible(SingleUnitInstance(), SingleUnitSchedule())
  {
    SingleUnitShapes();
    SingleUnitBusRules();
    SingleUnitGeneratorRules();
  }

  lemma SingleUnitBusRules()
    ensures forall b, t :: 0 <= b < |SingleUnitInstance().buses| && 1 <= t <= T ==>
      && PowerBalance(SingleUnitInstance(), SingleUnitSchedule(), b, t)
      && DemandShiftLimit(SingleUnitInstance(), SingleUnitSchedule(), b, t)
  {
    forall b, t | 0 <= b < |SingleUnitInstance().buses| && 1 <= t <= T
      ensures PowerBalance(SingleUnitInstance(), SingleUnitSchedule(), b, t)
      ensures DemandShiftLimit(SingleUnitInstance(), SingleUnitSchedule(), b, t)
    {
      SingleUnitBalance(t);
    }
  }

  lemma SingleUnitGeneratorRules()
    ensures forall g, t :: 0 <= g < |SingleUnitInstance().gens| && 1 <= t <= T ==>
      && StartupShutdown(SingleUnitInstance(), SingleUnitSchedule(), g, t)
      && MinUpTime(SingleUnitInstance(), SingleUnitSchedule(), g, t)
      && MinDownTime(SingleUnitInstance(), SingleUnitSchedule(), g, t)
      && GenLimitsMin(SingleUnitInstance(), SingleUnitSchedule(), g, t)
      && GenLimitsMax(SingleUnitInstance(), SingleUnitSchedule(), g, t)
      && RampUp(SingleUnitInstance(), SingleUnitSchedule(), g, t)
      && RampDown(SingleUnitInstance(), SingleUnitSchedule(), g, t)
    ensures forall g :: 0 <= g < |SingleUnitInstance().gens| ==>
      InitialConditions(SingleUnitInstance(), SingleUnitSchedule(), g)
  {
    SingleUnitLimits();
    forall g, t | 0 <= g < |SingleUnitInstance().gens| && 1 <= t <= T
      ensures StartupShutdown(SingleUnitInstance(), SingleUnitSchedule(), g, t)
      ensures MinUpTime(SingleUnitInstance(), SingleUnitSchedule(), g, t)
      ensures MinDownTime(SingleUnitInstance(), SingleUnitSchedule(), g, t)
    {
      SingleUnitCommitment(t);
    }
  }

  /** The single-unit schedule costs 24 periods x 10 MW x 2.0 per MW, with no startup or shutdown cost. */
  lemma SingleUnitCost()
    ensures Cost(SingleUnitInstance(), SingleUnitSchedule()) == 480.0
  {
    var inst, s := SingleUnitInstance(), SingleUnitSchedule();
    var gen := inst.gens[0];
    SumConst(1, T + 1, t => gen.cgen * At(s.p, 0, t), 20.0);
    SumZero(1, T + 1, t => gen.cstartup * At(s.u, 0, t));
    SumZero(1, T + 1, t => gen.cshutdown * At(s.v, 0, t));
    assert UnitGenerationCost(inst, s, 0) == 480.0;
    assert UnitStartupCost(inst, s, 0) == 0.0;
    assert UnitShutdownCost(inst, s, 0) == 0.0;
  }

  lemma SingleUnitShapes()
    ensures ValidInstance(SingleUnitInstance())
    ensures WellShaped(SingleUnitInstance(), SingleUnitSchedule())
    ensures VariableDomains(SingleUnitInstance(), SingleUnitSchedule())
  {
    SingleUnitValid();
    SingleUnitDomains();
  }

  lemma SingleUnitValid()
    ensures ValidInstance(SingleUnitInstance())
  {
  }

  lemma SingleUnitDomains()
    ensures WellShaped(SingleUnitInstance(), SingleUnitSchedule())
    ensures VariableDomains(SingleUnitInstance(), SingleUnitSchedule())
  {
    var s := SingleUnitSchedule();
    assert forall b, pair :: 0 <= b < 1 && pair in TPairs(2) ==> ShiftAt(s, b, pair.0, pair.1) == 0.0;
  }

  lemma SingleUnitLimits()
    ensures forall t :: 1 <= t <= T ==>
      && GenLimitsMin(SingleUnitInstance(), SingleUnitSchedule(), 0, t)
      && GenLimitsMax(SingleUnitInstance(), SingleUnitSchedule(), 0, t)
      && RampUp(SingleUnitInstance(), SingleUnitSchedule(), 0, t)
      && RampDown(SingleUnitInstance(), SingleUnitSchedule(), 0, t)
    ensures InitialConditions(SingleUnitInstance(), SingleUnitSchedule(), 0)
  {
  }

  lemma SingleUnitBalance(t: int)
    requires 1 <= t <= T
    ensures PowerBalance(SingleUnitInstance(), SingleUnitSchedule(), 0, t)
    ensures DemandShiftLimit(SingleUnitInstance(), SingleUnitSchedule(), 0, t)
  {
    var inst, s := SingleUnitInstance(), SingleUnitSchedule();
    SumZero(1, T + 1, k => if InWindow(inst, k, t) then ShiftAt(s, 0, k, t) else 0.0);
    SumZero(1, T + 1, k => if InWindow(inst, k, t) then ShiftAt(s, 0, t, k) else 0.0);
    assert BusTotal(GenBuses(inst), s.p, "B1", t) == 10.0;
    assert Demand(inst, 0, t) == 10.0;
  }

  lemma SingleUnitCommitment(t: int)
    requires 1 <= t <= T
    ensures StartupShutdown(SingleUnitInstance(), SingleUnitSchedule(), 0, t)
    ensures MinUpTime(SingleUnitInstance(), SingleUnitSchedule(), 0, t)
    ensures MinDownTime(SingleUnitInstance(), SingleUnitSchedule(), 0, t)
  {
    var inst, s := SingleUnitInstance(), SingleUnitSchedule();
    assert Sum(t, t + 1, k => At(s.u, 0, k)) == 0.0;
    assert Sum(t, t + 1, k => At(s.v, 0, k)) == 0.0;
  }
}
