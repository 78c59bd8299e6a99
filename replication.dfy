/**
 * ReplicationModel: the batch of independent simulated days.  Each run is
 * seeded from its run number, stops once the shop is past closing and
 * empty, and contributes one observation to every confidence calculator
 * only when the values read back from it pass a sanity check; the batch
 * stops at the first run that fails.
 *
 * What one run computes is the day modelled by `Runs`; here it arrives as
 * a `RunOutcome` chosen by the seed, together with the time-weighted queue
 * statistics DESMO-J computes for it.
 */
module Replication {
  import opened ShopState
  import opened Scheduler
  import opened Invariants
  import Runs

  /** NUM_REPLICATIONS. */
  const NumReplications: int := 100

  // ---- The stopping condition ----

  /** Stop.check(): strictly past closing time, and nobody left in the system. */
  predicate Stop(cfg: Config, s: State) {
    s.clock > cfg.operationHours as real && s.inSystem == []
  }

  /**
   * A settled day that the stopping condition ends has released every
   * stall and accounted for every customer as balked, lost or fully fixed.
   */
  lemma StoppedDayBalances(cfg: Config, steps: seq<Step>)
    requires Runs.SettledRun(cfg, Scheduled(cfg), steps) && Runs.Runnable(cfg, Scheduled(cfg), steps)
    requires Stop(cfg, Runs.Run(cfg, Scheduled(cfg), steps))
    ensures var s := Runs.Run(cfg, Scheduled(cfg), steps);
      && s.stallsInUse == 0
      && s.totalBalked + s.totalLost + s.fullyFixed == s.totalCustomers
  {
    Runs.ScheduledOrdered(cfg);
    Runs.SettledRunKeepsOrdered(cfg, Scheduled(cfg), steps);
    Runs.DrainedBalances(cfg, Runs.Run(cfg, Scheduled(cfg), steps));
  }

  // ---- The seed ----

  /** The seed of run `runNumber`: `979 + 2*runNumber` evaluated in `int`. */
  function Seed(runNumber: int): (r: int)
    ensures -0x8000_0000 <= r < 0x8000_0000
    ensures -490 <= runNumber < 0x3FFF_FE17 ==> r == 979 + 2 * runNumber
  {
    Int32(979 + 2 * runNumber)
  }

  /** Every seed is odd, wrap-around or not. */
  lemma SeedOdd(runNumber: int)
    ensures Seed(runNumber) % 2 == 1
  {
  }

  /** Distinct non-negative run numbers get distinct seeds, even where the sum wraps. */
  lemma SeedInjective(i: int, j: int)
    requires 0 <= i < 0x8000_0000 && 0 <= j < 0x8000_0000
    requires Seed(i) == Seed(j)
    ensures i == j
  {
  }

  /** The runs of one batch, 1..NUM_REPLICATIONS, all get different seeds. */
  lemma BatchSeedsDistinct(i: int, j: int)
    requires 1 <= i <= NumReplications && 1 <= j <= NumReplications && i != j
    ensures Seed(i) != Seed(j)
  {
  }

  // ---- Utilization ----

  /** A Java `double` quotient: a real number, or one of the results of a division by zero. */
  datatype UtilValue = Rate(v: real) | PosInf | NegInf | NaN

  /**
   * (maxLength - averageLength) / maxLength of an idle queue: the fraction
   * of the peak idle capacity that was busy on average.
   */
  function Utilization(average: real, max: int): (u: UtilValue)
    ensures u.Rate? <==> max != 0
    ensures u.Rate? ==> u.v * max as real == max as real - average
    ensures max > 0 && 0.0 <= average <= max as real ==> u.Rate? && 0.0 <= u.v <= 1.0
    ensures max == 0 && average == 0.0 ==> u == NaN
  {
    var busy := max as real - average;
    if max != 0 then Rate(busy / max as real)
    else if busy > 0.0 then PosInf
    else if busy < 0.0 then NegInf
    else NaN
  }

  /** `u < 0` on a double: false for NaN and for positive infinity. */
  predicate BelowZero(u: UtilValue) {
    match u
    case Rate(v) => v < 0.0
    case NegInf => true
    case PosInf => false
    case NaN => false
  }

  // ---- Reading back one run ----

  /** The time-weighted and tally statistics DESMO-J keeps for one run. */
  datatype LibraryStats = LibraryStats(
    responseMean: real,
    waitingAverage: real,
    idleMechanicsAverage: real,
    idleMechanicsMax: int,
    idleSpecialistsAverage: real,
    idleSpecialistsMax: int)

  /** The values runSimulation reads back after the experiment has finished. */
  datatype Snapshot = Snapshot(
    endTime: real,
    todaysCost: real,
    totalCustomers: int,
    totalBalked: int,
    totalLost: int,
    fullyFixed: int,
    responseTime: real,
    avgCustomersWaiting: real,
    mechanicUtil: UtilValue,
    specialistUtil: UtilValue)

  /** The read-back: counters and cost from the shop, means and utilizations from the statistics. */
  function Extract(s: State, st: LibraryStats): Snapshot {
    Snapshot(s.clock, s.todaysCost, s.totalCustomers, s.totalBalked, s.totalLost, s.fullyFixed,
             st.responseMean, st.waitingAverage,
             Utilization(st.idleMechanicsAverage, st.idleMechanicsMax),
             Utilization(st.idleSpecialistsAverage, st.idleSpecialistsMax))
  }

  /**
   * The check against bad values: the run must have lasted until hour 6
   * (a literal, whatever the operating hours) and no value may be below
   * zero.  A NaN utilization is not below zero.
   */
  predicate Valid(snap: Snapshot) {
    !(|| snap.endTime < 6.0
      || snap.todaysCost < 0.0 || snap.totalCustomers < 0
      || snap.totalBalked < 0 || snap.totalLost < 0
      || snap.fullyFixed < 0 || snap.responseTime < 0.0
      || BelowZero(snap.mechanicUtil) || BelowZero(snap.specialistUtil)
      || snap.avgCustomersWaiting < 0.0)
  }

  /** The part of the check that only the library's statistics can fail. */
  predicate StatsPass(st: LibraryStats) {
    && st.responseMean >= 0.0 && st.waitingAverage >= 0.0
    && !BelowZero(Utilization(st.idleMechanicsAverage, st.idleMechanicsMax))
    && !BelowZero(Utilization(st.idleSpecialistsAverage, st.idleSpecialistsMax))
  }

  /**
   * On any day the shop model can produce, with costs that are not
   * negative, the counters never fail the check, and neither does the cost
   * while NUM_STALLS * STALL_COST fits in an `int`: a run is then accepted
   * exactly when it ended at hour 6 or later and the library's statistics
   * are not negative.  Without that, a wrapped stall charge can make the
   * cost fail the check.
   */
  lemma DayValidity(cfg: Config, steps: seq<Step>, st: LibraryStats)
    requires CostsNonNegative(cfg) && Runs.Runnable(cfg, Scheduled(cfg), steps)
    ensures var s := Runs.Run(cfg, Scheduled(cfg), steps);
      Valid(Extract(s, st)) <==> s.clock >= 6.0 && StatsPass(st) && s.todaysCost >= 0.0
    ensures var s := Runs.Run(cfg, Scheduled(cfg), steps);
      OutlayFits(cfg) ==> (Valid(Extract(s, st)) <==> s.clock >= 6.0 && StatsPass(st))
  {
    Runs.DayKeepsWf(cfg, steps);
    Runs.DayCostAtLeastStalls(cfg, steps);
  }

  /** Every value the occupancy of an idle queue can give passes the utilization part of the check. */
  lemma OccupancyNeverBelowZero(average: real, max: int)
    requires 0 <= max && 0.0 <= average <= max as real
    ensures !BelowZero(Utilization(average, max))
  {
  }

  /** A queue that was never occupied gives a NaN utilization, and the check lets it through. */
  lemma EmptyQueueUtilizationPasses(snap: Snapshot)
    requires snap.mechanicUtil == Utilization(0.0, 0)
    ensures snap.mechanicUtil == NaN && !BelowZero(snap.mechanicUtil)
  {
  }

  // ---- The batch ----

  /** How one experiment ends: with an exception or an error flag, or finished with its final state. */
  datatype RunOutcome = Aborted | Finished(final: State, stats: LibraryStats)

  /** runSimulation returns true: the experiment finished and its values passed the check. */
  predicate Accepts(o: RunOutcome) {
    o.Finished? && Valid(Extract(o.final, o.stats))
  }

  /** The snapshot an accepted run adds to the confidence calculators. */
  function Observation(o: RunOutcome): Snapshot
    requires o.Finished?
  {
    Extract(o.final, o.stats)
  }

  /**
   * The observations runs `i..n` add when the outcome of each run is the
   * one its seed determines: one per run, up to the first run that fails.
   */
  function Batch(outcomeOf: int -> RunOutcome, i: int, n: int): (r: seq<Snapshot>)
    ensures |r| <= if i > n then 0 else n - i + 1
    ensures r != [] <==> i <= n && Accepts(outcomeOf(Seed(i)))
    decreases n - i
  {
    if i > n then []
    else if Accepts(outcomeOf(Seed(i))) then [Observation(outcomeOf(Seed(i)))] + Batch(outcomeOf, i + 1, n)
    else []
  }

  /** Every run in `i..n` is accepted. */
  predicate AllAccepted(outcomeOf: int -> RunOutcome, i: int, n: int) {
    forall j :: i <= j <= n ==> Accepts(outcomeOf(Seed(j)))
  }

  /**
   * If runs `i..k-1` are accepted and run `k` is the first that is not (or
   * `k` is past the end), the batch from `i` holds exactly the
   * observations of runs `i..k-1`, in run order.
   */
  lemma {:induction false} BatchUpToFirstFailure(outcomeOf: int -> RunOutcome, i: int, k: int, n: int)
    requires i <= k <= n + 1
    requires AllAccepted(outcomeOf, i, k - 1)
    requires k <= n ==> !Accepts(outcomeOf(Seed(k)))
    ensures |Batch(outcomeOf, i, n)| == k - i
    ensures forall j :: i <= j < k ==> Batch(outcomeOf, i, n)[j - i] == Observation(outcomeOf(Seed(j)))
    decreases k - i
  {
    if i < k {
      BatchUpToFirstFailure(outcomeOf, i + 1, k, n);
      assert Batch(outcomeOf, i, n) == [Observation(outcomeOf(Seed(i)))] + Batch(outcomeOf, i + 1, n);
    }
  }

  /** The replication model: the confidence calculators, as the sequence of observations they received. */
  class ReplicationModel {
    /** NUM_REPLICATIONS at the time the batch runs. */
    const numReplications: int
    /** One entry per update() round of the nine confidence calculators. */
    var observations: seq<Snapshot>

    /** init(): every confidence calculator starts without observations. */
    constructor (numReplications: int)
      ensures this.numReplications == numReplications && observations == []
    {
      this.numReplications := numReplications;
      observations := [];
    }

    /**
     * runSimulation(runNumber): the experiment seeded for this run, then
     * the check; every calculator gets one observation exactly when the
     * run is accepted.
     */
    method RunSimulation(runNumber: int, outcomeOf: int -> RunOutcome) returns (ok: bool)
      modifies this
      ensures ok == Accepts(outcomeOf(Seed(runNumber)))
      ensures observations == old(observations) + (if ok then [Observation(outcomeOf(Seed(runNumber)))] else [])
    {
      var outcome := outcomeOf(Seed(runNumber));
      if outcome.Aborted? {
        return false;
      }
      var snap := Extract(outcome.final, outcome.stats);
      if !Valid(snap) {
        return false;
      }
      observations := observations + [snap];
      return true;
    }

    /** doInitialSchedules(): runs 1..NUM_REPLICATIONS in order, stopping at the first failure. */
    method DoInitialSchedules(outcomeOf: int -> RunOutcome) returns (noErrors: bool)
      modifies this
      ensures noErrors == AllAccepted(outcomeOf, 1, numReplications)
      ensures observations == old(observations) + Batch(outcomeOf, 1, numReplications)
    {
      noErrors := true;
      var i := 1;
      while i <= numReplications
        invariant 1 <= i <= if numReplications < 1 then 1 else numReplications + 1
        invariant AllAccepted(outcomeOf, 1, i - 1)
        invariant old(observations) + Batch(outcomeOf, 1, numReplications) == observations + Batch(outcomeOf, i, numReplications)
        decreases numReplications - i
      {
        noErrors := RunSimulation(i, outcomeOf);
        if !noErrors {
          break;
        }
        i := i + 1;
      }
    }
  }
}
