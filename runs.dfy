/**
 * One simulated day as a sequence of segments started from the state
 * doInitialSchedules leaves.  Under every interleaving the day keeps `Wf`;
 * when no specialist segment overtakes a referred customer's own
 * resumption, it also keeps `Ordered`: the stall counter is exact and every
 * customer is balked, lost, fixed or still open.
 */
module Runs {
  import opened Queues
  import opened ShopState
  import opened Scheduler
  import opened Invariants
  import CustomerProcess
  import MechanicProcess
  import SpecialistProcess
  import GeneratorProcess
  import WfProofs
  import OrderedProofs

  /** Every segment of `steps` is enabled at the point where it runs. */
  predicate Runnable(cfg: Config, s: State, steps: seq<Step>)
    decreases |steps|
  {
    steps == [] || (Enabled(s, steps[0]) && Runnable(cfg, Apply(cfg, s, steps[0]), steps[1..]))
  }

  /** The state after running `steps` from `s`. */
  function Run(cfg: Config, s: State, steps: seq<Step>): State
    requires Runnable(cfg, s, steps)
    decreases |steps|
  {
    if steps == [] then s else Run(cfg, Apply(cfg, s, steps[0]), steps[1..])
  }

  /** Every segment of `steps` is enabled and settled at the point where it runs. */
  ghost predicate SettledRun(cfg: Config, s: State, steps: seq<Step>)
    decreases |steps|
  {
    steps == [] || (Enabled(s, steps[0]) && Settled(s, steps[0]) && SettledRun(cfg, Apply(cfg, s, steps[0]), steps[1..]))
  }

  /** The state doInitialSchedules leaves satisfies both invariants. */
  lemma ScheduledOrdered(cfg: Config)
    ensures Ordered(cfg, Scheduled(cfg))
  {
    var s := Scheduled(cfg);
    assert s.customers == [];
    assert Count(s.customers, HoldsStall) == 0 && Count(s.customers, IsOpen) == 0;
  }

  /** Wf holds after any run from a Wf state, whatever order the segments take. */
  lemma {:induction false} RunKeepsWf(cfg: Config, s: State, steps: seq<Step>)
    requires Wf(cfg, s) && Runnable(cfg, s, steps)
    ensures Wf(cfg, Run(cfg, s, steps))
    decreases |steps|
  {
    if steps != [] {
      WfProofs.StepPreservesWf(cfg, s, steps[0]);
      RunKeepsWf(cfg, Apply(cfg, s, steps[0]), steps[1..]);
    }
  }

  /** Ordered holds after any settled run from an Ordered state. */
  lemma {:induction false} SettledRunKeepsOrdered(cfg: Config, s: State, steps: seq<Step>)
    requires Ordered(cfg, s) && SettledRun(cfg, s, steps)
    ensures Runnable(cfg, s, steps)
    ensures Ordered(cfg, Run(cfg, s, steps))
    decreases |steps|
  {
    if steps != [] {
      OrderedProofs.StepPreservesOrdered(cfg, s, steps[0]);
      SettledRunKeepsOrdered(cfg, Apply(cfg, s, steps[0]), steps[1..]);
    }
  }

  /**
   * At every point of a day, whatever the interleaving: the stall counter
   * never exceeds the number of stalls, the counters are not negative, each
   * line holds distinct customers in the right phase and response times are
   * not negative.
   */
  lemma DayKeepsWf(cfg: Config, steps: seq<Step>)
    requires Runnable(cfg, Scheduled(cfg), steps)
    ensures var s := Run(cfg, Scheduled(cfg), steps);
      && s.stallsInUse <= cfg.numStalls
      && s.totalCustomers >= 0 && s.totalBalked >= 0 && s.totalLost >= 0 && s.fullyFixed >= 0
      && Distinct(s.waitingForMechanic) && Distinct(s.idleMechanics) && Distinct(s.idleSpecialists)
      && (forall i :: 0 <= i < |s.responseTimes| ==> s.responseTimes[i] >= 0.0)
  {
    ScheduledOrdered(cfg);
    RunKeepsWf(cfg, Scheduled(cfg), steps);
  }

  /**
   * At every point of a settled day the stall counter is exactly the number
   * of customers holding a stall, hence between 0 and the number of stalls,
   * and every customer who has arrived is counted once: balked, lost, fixed
   * or still open.
   */
  lemma SettledDayAccounted(cfg: Config, steps: seq<Step>)
    requires SettledRun(cfg, Scheduled(cfg), steps)
    ensures Runnable(cfg, Scheduled(cfg), steps)
    ensures var s := Run(cfg, Scheduled(cfg), steps);
      && s.stallsInUse == Count(s.customers, HoldsStall)
      && 0 <= s.stallsInUse <= cfg.numStalls
      && s.totalCustomers == s.totalBalked + s.totalLost + s.fullyFixed + Count(s.customers, IsOpen)
  {
    ScheduledOrdered(cfg);
    SettledRunKeepsOrdered(cfg, Scheduled(cfg), steps);
  }

  /** No segment lowers the day's cost when the salaries, commissions and costs are not negative. */
  lemma StepCostMonotone(cfg: Config, s: State, step: Step)
    requires CostsNonNegative(cfg) && Enabled(s, step)
    ensures Apply(cfg, s, step).todaysCost >= s.todaysCost
  {
    match step
    case CustomerArrives(c, now, threshold) =>
    case CustomerBackFromMechanic(c, now) =>
    case CustomerBackFromSpecialist(c, now, threshold) =>
    case MechanicStarts(m, now, fixTime) =>
    case MechanicResumes(m, now, fixTime) =>
    case MechanicFinishes(m, now, referred, fixTime) =>
      var c := MechanicProcess.Conclude(cfg, s, m, now, referred);
      assert MechanicProcess.FinishRepair(cfg, s, m, now, referred, fixTime).todaysCost == c.todaysCost;
    case SpecialistStarts(p, now, fixTime) =>
    case SpecialistResumes(p, now, fixTime) =>
    case SpecialistFinishes(p, now, fixTime) =>
      var c := SpecialistProcess.Conclude(cfg, s, p, now);
      assert SpecialistProcess.FinishRepair(cfg, s, p, now, fixTime).todaysCost == c.todaysCost;
    case GeneratorStarts(now, sample) =>
    case GeneratorResumes(now, sample) =>
  }

  /** The day's cost only grows along a run. */
  lemma {:induction false} RunCostMonotone(cfg: Config, s: State, steps: seq<Step>)
    requires CostsNonNegative(cfg) && Runnable(cfg, s, steps)
    ensures Run(cfg, s, steps).todaysCost >= s.todaysCost
    decreases |steps|
  {
    if steps != [] {
      StepCostMonotone(cfg, s, steps[0]);
      RunCostMonotone(cfg, Apply(cfg, s, steps[0]), steps[1..]);
    }
  }

  /** Whatever happens during the day, its cost is at least the stall charge. */
  lemma DayCostAtLeastStalls(cfg: Config, steps: seq<Step>)
    requires CostsNonNegative(cfg) && Runnable(cfg, Scheduled(cfg), steps)
    ensures Run(cfg, Scheduled(cfg), steps).todaysCost >= StallOutlay(cfg)
  {
    RunCostMonotone(cfg, Scheduled(cfg), steps);
  }

  /**
   * Once inSystem is empty in an ordered state, no stall is in use and the
   * three counters add up to the number of customers who arrived.
   */
  lemma DrainedBalances(cfg: Config, s: State)
    requires Ordered(cfg, s) && s.inSystem == []
    ensures s.stallsInUse == 0
    ensures s.totalBalked + s.totalLost + s.fullyFixed == s.totalCustomers
  {
    forall i | 0 <= i < |s.customers| ensures !HoldsStall(s.customers[i]) && !IsOpen(s.customers[i]) {
      assert !InShop(s.customers[i]);
      assert s.customers[i].finished <==> s.customers[i].outcome != Unresolved;
    }
    CountNone(s.customers, HoldsStall);
    CountNone(s.customers, IsOpen);
  }

  /**
   * The settled order never blocks a process: when a specialist segment is
   * not settled, some referred customer has its own resumption pending,
   * and that segment is settled.
   */
  lemma SettledNeverBlocks(cfg: Config, s: State)
    requires Ordered(cfg, s) && !SpecialistLineClaimed(s)
    ensures exists c :: 0 <= c < |s.customers| && Enabled(s, CustomerBackFromMechanic(c, s.clock))
  {
    var i :| 0 <= i < |s.waitingForSpecialist| &&
      !(s.waitingForSpecialist[i] < |s.customers| && s.customers[s.waitingForSpecialist[i]].phase == WaitingSpecialist);
    var c := s.waitingForSpecialist[i];
    assert c in s.waitingForSpecialist;
    assert Enabled(s, CustomerBackFromMechanic(c, s.clock));
  }

  /** A run that starts with an enabled segment is that segment followed by the rest. */
  lemma RunCons(cfg: Config, s: State, step: Step, rest: seq<Step>)
    requires Enabled(s, step) && Runnable(cfg, Apply(cfg, s, step), rest)
    ensures Runnable(cfg, s, [step] + rest)
    ensures Run(cfg, s, [step] + rest) == Run(cfg, Apply(cfg, s, step), rest)
  {
    assert ([step] + rest)[0] == step && ([step] + rest)[1..] == rest;
  }

  /*
   * A day with the default configuration in which the specialist's repair
   * ends at the very instant the mechanic refers the next car.  The
   * specialist runs first, takes that car before its owner has claimed a
   * stall, and releases a stall nobody claimed.  `Point0` .. `Point14` are
   * the states between the segments `Seg0` .. `Seg13`.
   *
   * The trace needs two same-instant orders that a first-in-first-out
   * tie-break among equal due times would not choose: at 0.5 the second
   * customer's arrival (`Seg7`) runs before the mechanic's hold ends
   * (`Seg8`), although the hold was scheduled first; and at 0.75 the
   * specialist's zero-length hold ends (`Seg13`) before the second
   * customer resumes, although that customer was reactivated first.  It
   * shows what a free interleaving allows, not a run DESMO-J is shown to
   * produce.
   */

  const Point0: State :=
    State(0.0, [0], [0], [], [], [], 0, 0, 0, 0, 0, [], 100.0, [], [Starting], [Starting], GenStarting)

  /** Both workers start; nobody waits, so both go idle, and the first customer is due at a quarter past. */
  const Seg0: Step := MechanicStarts(0, 0.0, 1.0)

  const Point1: State :=
    State(0.0, [0], [0], [], [], [], 0, 0, 0, 0, 0, [], 200.0, [], [Passive], [Starting], GenStarting)
  const Seg1: Step := SpecialistStarts(0, 0.0, 1.0)

  const Point2: State :=
    State(0.0, [0], [0], [], [], [], 0, 0, 0, 0, 0, [], 500.0, [], [Passive], [Passive], GenStarting)
  const Seg2: Step := GeneratorStarts(0.0, 0.25)

  const Point3: State :=
    State(0.0, [0], [0], [], [], [], 0, 0, 0, 0, 0, [], 500.0, [], [Passive], [Passive], GenHolding(0.25))
  const Seg3: Step := GeneratorResumes(0.25, 0.25)

  const Point4: State :=
    State(0.25, [0], [0], [], [], [], 0, 0, 0, 0, 0, [], 500.0,
      [CustomerRec(0.25, false, Arriving, Unresolved)], [Passive], [Passive], GenHolding(0.5))

  /** The first customer goes straight to the idle mechanic; the second one arrives at half past and joins the line. */
  const Seg4: Step := CustomerArrives(0, 0.25, 1)

  const Point5: State :=
    State(0.25, [], [0], [0], [], [0], 1, 0, 0, 0, 0, [], 500.0,
      [CustomerRec(0.25, false, WaitingMechanic, Unresolved)], [Activated], [Passive], GenHolding(0.5))
  const Seg5: Step := MechanicResumes(0, 0.25, 0.25)

  const Point6: State :=
    State(0.25, [], [0], [], [], [0], 1, 0, 0, 0, 0, [], 500.0,
      [CustomerRec(0.25, false, WaitingMechanic, Unresolved)], [Holding(0, 0.5)], [Passive], GenHolding(0.5))
  const Seg6: Step := GeneratorResumes(0.5, 5.0)

  const Point7: State :=
    State(0.5, [], [0], [], [], [0], 1, 0, 0, 0, 0, [], 500.0,
      [CustomerRec(0.25, false, WaitingMechanic, Unresolved), CustomerRec(0.5, false, Arriving, Unresolved)], [Holding(0, 0.5)], [Passive], GenHolding(5.5))
  const Seg7: Step := CustomerArrives(1, 0.5, 1)

  const Point8: State :=
    State(0.5, [], [0], [1], [], [0, 1], 2, 0, 0, 0, 0, [], 500.0,
      [CustomerRec(0.25, false, WaitingMechanic, Unresolved), CustomerRec(0.5, false, WaitingMechanic, Unresolved)], [Holding(0, 0.5)], [Passive], GenHolding(5.5))

  /** At half past the first car is referred, its owner claims the only stall and wakes the specialist. */
  const Seg8: Step := MechanicFinishes(0, 0.5, true, 0.25)

  const Point9: State :=
    State(0.5, [], [0], [], [0], [0, 1], 2, 0, 0, 0, 0, [], 510.0,
      [CustomerRec(0.25, false, BackFromMechanic, Unresolved), CustomerRec(0.5, false, WaitingMechanic, Unresolved)], [Holding(1, 0.75)], [Passive], GenHolding(5.5))
  const Seg9: Step := CustomerBackFromMechanic(0, 0.5)

  const Point10: State :=
    State(0.5, [], [], [], [0], [0, 1], 2, 0, 0, 0, 1, [], 510.0,
      [CustomerRec(0.25, false, WaitingSpecialist, Unresolved), CustomerRec(0.5, false, WaitingMechanic, Unresolved)], [Holding(1, 0.75)], [Activated], GenHolding(5.5))
  const Seg10: Step := SpecialistResumes(0, 0.5, 0.25)

  const Point11: State :=
    State(0.5, [], [], [], [], [0, 1], 2, 0, 0, 0, 1, [], 510.0,
      [CustomerRec(0.25, false, WaitingSpecialist, Unresolved), CustomerRec(0.5, false, WaitingMechanic, Unresolved)], [Holding(1, 0.75)], [Holding(0, 0.75)], GenHolding(5.5))

  /** At 0.75 the mechanic refers the second car while the specialist's repair ends; the specialist runs first, takes the second car before its owner has resumed, and repairs it in no time. */
  const Seg11: Step := MechanicFinishes(0, 0.75, true, 0.25)

  const Point12: State :=
    State(0.75, [0], [], [], [1], [0, 1], 2, 0, 0, 0, 1, [], 520.0,
      [CustomerRec(0.25, false, WaitingSpecialist, Unresolved), CustomerRec(0.5, false, BackFromMechanic, Unresolved)],
      [Passive], [Holding(0, 0.75)], GenHolding(5.5))
  const Seg12: Step := SpecialistFinishes(0, 0.75, 0.0)

  const Point13: State :=
    State(0.75, [0], [], [], [], [1], 2, 0, 0, 1, 0, [0.5], 620.0,
      [CustomerRec(0.25, true, BackFromSpecialist, Fixed), CustomerRec(0.5, false, BackFromMechanic, Unresolved)],
      [Passive], [Holding(1, 0.75)], GenHolding(5.5))
  const Seg13: Step := SpecialistFinishes(0, 0.75, 0.0)

  const Point14: State :=
    State(0.75, [0], [0], [], [], [], 2, 0, 0, 2, -1, [0.5, 0.25], 720.0,
      [CustomerRec(0.25, true, BackFromSpecialist, Fixed), CustomerRec(0.5, true, BackFromMechanic, Fixed)],
      [Passive], [Passive], GenHolding(5.5))

  function Overtaking(): seq<Step> {
    [Seg0, Seg1, Seg2] + ([Seg3, Seg4, Seg5] + ([Seg6, Seg7, Seg8] + ([Seg9, Seg10, Seg11] + ([Seg12, Seg13] + []))))
  }

  lemma Seg0Runs()
    ensures Enabled(Point0, Seg0) && Apply(Defaults, Point0, Seg0) == Point1
  {
  }

  lemma Seg1Runs()
    ensures Enabled(Point1, Seg1) && Apply(Defaults, Point1, Seg1) == Point2
  {
  }

  lemma Seg2Runs()
    ensures Enabled(Point2, Seg2) && Apply(Defaults, Point2, Seg2) == Point3
  {
  }

  lemma Seg3Runs()
    ensures Enabled(Point3, Seg3) && Apply(Defaults, Point3, Seg3) == Point4
  {
  }

  lemma Seg4Runs()
    ensures Enabled(Point4, Seg4) && Apply(Defaults, Point4, Seg4) == Point5
  {
  }

  lemma Seg5Runs()
    ensures Enabled(Point5, Seg5) && Apply(Defaults, Point5, Seg5) == Point6
  {
  }

  lemma Seg6Runs()
    ensures Enabled(Point6, Seg6) && Apply(Defaults, Point6, Seg6) == Point7
  {
  }

  lemma Seg7Runs()
    ensures Enabled(Point7, Seg7) && Apply(Defaults, Point7, Seg7) == Point8
  {
  }

  lemma Seg8Runs()
    ensures Enabled(Point8, Seg8) && Apply(Defaults, Point8, Seg8) == Point9
  {
  }

  lemma Seg9Runs()
    ensures Enabled(Point9, Seg9) && Apply(Defaults, Point9, Seg9) == Point10
  {
  }

  lemma Seg10Runs()
    ensures Enabled(Point10, Seg10) && Apply(Defaults, Point10, Seg10) == Point11
  {
  }

  lemma Seg11Runs()
    ensures Enabled(Point11, Seg11) && Apply(Defaults, Point11, Seg11) == Point12
  {
  }

  lemma Seg12Runs()
    ensures Enabled(Point12, Seg12) && Apply(Defaults, Point12, Seg12) == Point13
  {
  }

  lemma Seg13Runs()
    ensures Enabled(Point13, Seg13) && Apply(Defaults, Point13, Seg13) == Point14
  {
  }

  /** `Seg12` .. `Seg13` lead from `Point12` to `Point14`, whatever follows them. */
  lemma RunsFrom12(rest: seq<Step>)
    requires Runnable(Defaults, Point14, rest)
    ensures Runnable(Defaults, Point12, [Seg12, Seg13] + rest)
    ensures Run(Defaults, Point12, [Seg12, Seg13] + rest) == Run(Defaults, Point14, rest)
  {
    var r := rest;
    Seg13Runs(); RunCons(Defaults, Point13, Seg13, r); r := [Seg13] + r;
    Seg12Runs(); RunCons(Defaults, Point12, Seg12, r); r := [Seg12] + r;
    assert r == [Seg12, Seg13] + rest;
  }

  /** `Seg9` .. `Seg11` lead from `Point9` to `Point12`, whatever follows them. */
  lemma RunsFrom9(rest: seq<Step>)
    requires Runnable(Defaults, Point12, rest)
    ensures Runnable(Defaults, Point9, [Seg9, Seg10, Seg11] + rest)
    ensures Run(Defaults, Point9, [Seg9, Seg10, Seg11] + rest) == Run(Defaults, Point12, rest)
  {
    var r := rest;
    Seg11Runs(); RunCons(Defaults, Point11, Seg11, r); r := [Seg11] + r;
    Seg10Runs(); RunCons(Defaults, Point10, Seg10, r); r := [Seg10] + r;
    Seg9Runs(); RunCons(Defaults, Point9, Seg9, r); r := [Seg9] + r;
    assert r == [Seg9, Seg10, Seg11] + rest;
  }

  /** `Seg6` .. `Seg8` lead from `Point6` to `Point9`, whatever follows them. */
  lemma RunsFrom6(rest: seq<Step>)
    requires Runnable(Defaults, Point9, rest)
    ensures Runnable(Defaults, Point6, [Seg6, Seg7, Seg8] + rest)
    ensures Run(Defaults, Point6, [Seg6, Seg7, Seg8] + rest) == Run(Defaults, Point9, rest)
  {
    var r := rest;
    Seg8Runs(); RunCons(Defaults, Point8, Seg8, r); r := [Seg8] + r;
    Seg7Runs(); RunCons(Defaults, Point7, Seg7, r); r := [Seg7] + r;
    Seg6Runs(); RunCons(Defaults, Point6, Seg6, r); r := [Seg6] + r;
    assert r == [Seg6, Seg7, Seg8] + rest;
  }

  /** `Seg3` .. `Seg5` lead from `Point3` to `Point6`, whatever follows them. */
  lemma RunsFrom3(rest: seq<Step>)
    requires Runnable(Defaults, Point6, rest)
    ensures Runnable(Defaults, Point3, [Seg3, Seg4, Seg5] + rest)
    ensures Run(Defaults, Point3, [Seg3, Seg4, Seg5] + rest) == Run(Defaults, Point6, rest)
  {
    var r := rest;
    Seg5Runs(); RunCons(Defaults, Point5, Seg5, r); r := [Seg5] + r;
    Seg4Runs(); RunCons(Defaults, Point4, Seg4, r); r := [Seg4] + r;
    Seg3Runs(); RunCons(Defaults, Point3, Seg3, r); r := [Seg3] + r;
    assert r == [Seg3, Seg4, Seg5] + rest;
  }

  /** `Seg0` .. `Seg2` lead from `Point0` to `Point3`, whatever follows them. */
  lemma RunsFrom0(rest: seq<Step>)
    requires Runnable(Defaults, Point3, rest)
    ensures Runnable(Defaults, Point0, [Seg0, Seg1, Seg2] + rest)
    ensures Run(Defaults, Point0, [Seg0, Seg1, Seg2] + rest) == Run(Defaults, Point3, rest)
  {
    var r := rest;
    Seg2Runs(); RunCons(Defaults, Point2, Seg2, r); r := [Seg2] + r;
    Seg1Runs(); RunCons(Defaults, Point1, Seg1, r); r := [Seg1] + r;
    Seg0Runs(); RunCons(Defaults, Point0, Seg0, r); r := [Seg0] + r;
    assert r == [Seg0, Seg1, Seg2] + rest;
  }

  /** The whole of `Overtaking` leads from the state doInitialSchedules leaves to `Point14`. */
  lemma RunsFromStart()
    ensures Runnable(Defaults, Scheduled(Defaults), Overtaking())
    ensures Run(Defaults, Scheduled(Defaults), Overtaking()) == Point14
  {
    assert Ids(1) == [0];
    assert Scheduled(Defaults) == Point0;
    var r0: seq<Step> := [];
    var r12 := [Seg12, Seg13] + r0;
    var r9 := [Seg9, Seg10, Seg11] + r12;
    var r6 := [Seg6, Seg7, Seg8] + r9;
    var r3 := [Seg3, Seg4, Seg5] + r6;
    var r := [Seg0, Seg1, Seg2] + r3;
    RunsFrom12(r0);
    RunsFrom9(r12);
    RunsFrom6(r9);
    RunsFrom3(r6);
    RunsFrom0(r3);
    assert r == Overtaking();
  }

  /**
   * Without the settled order the stall counter goes negative: every
   * segment of `Overtaking` is enabled at its point, and the day ends with
   * stallsInUse at -1 although no customer holds a stall.  The order of its
   * same-instant segments is one the free scheduler admits, not one a
   * first-in-first-out tie-break would pick.
   */
  lemma OvertakingUnderflows()
    ensures Runnable(Defaults, Scheduled(Defaults), Overtaking())
    ensures Run(Defaults, Scheduled(Defaults), Overtaking()).stallsInUse == -1
    ensures Count(Run(Defaults, Scheduled(Defaults), Overtaking()).customers, HoldsStall) == 0
  {
    RunsFromStart();
    var cs := Point14.customers;
    assert cs[..1][..0] == [];
    assert Count(cs, HoldsStall) == 0;
  }

  /** The overtaking segment: the specialist looks at its line while the owner of the car at its head has not resumed. */
  lemma OvertakingIsUnsettled()
    ensures !Settled(Point12, Seg12)
  {
    assert Point12.waitingForSpecialist[0] == 1;
  }
}
