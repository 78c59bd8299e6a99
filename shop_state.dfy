/**
 * The data of one simulated day of the auto body shop: the configuration
 * the Driver writes into AutoBodyShop's static fields, the five process
 * queues, the counters, the cost aggregate, the customers and the place
 * each process has reached in its life cycle.
 */
module ShopState {
  import opened Queues

  /** The configurable constants of AutoBodyShop (OPERATION_HOURS ... SPECIALIST_COMMISSION). */
  datatype Config = Config(
    operationHours: int,
    stallCost: int,
    lossCost: int,
    numMechanics: nat,
    mechanicSalary: real,
    mechanicCommission: real,
    numSpecialists: nat,
    numStalls: nat,
    specialistSalary: real,
    specialistCommission: real)

  /** The values the static fields start with. */
  const Defaults: Config := Config(6, 100, 400, 1, 100.0, 10.0, 1, 1, 300.0, 100.0)

  /** Means, in hours, of the fixed exponential distributions. */
  const Interarrival8To10: real := 15.0 / 60.0
  const Interarrival10To4: real := 6.0 / 60.0
  const Interarrival4To8: real := 9.0 / 60.0
  const MechanicFixTime: real := 8.0 / 60.0
  const SpecialistFixTime: real := 25.0 / 60.0
  /** Success probability of the referral Bernoulli draw. */
  const MechanicReferRate: real := 0.4
  /** Inclusive bounds of the discrete uniform balk threshold. */
  const BalkLow: int := 1
  const BalkHigh: int := 8

  /** Every salary, commission and cost is non-negative. */
  predicate CostsNonNegative(cfg: Config) {
    && cfg.stallCost >= 0 && cfg.lossCost >= 0
    && cfg.mechanicSalary >= 0.0 && cfg.mechanicCommission >= 0.0
    && cfg.specialistSalary >= 0.0 && cfg.specialistCommission >= 0.0
  }

  /** What the Driver's drop-down menus let a user choose. */
  predicate OfferedByDriver(cfg: Config) {
    && 6 <= cfg.operationHours <= 12
    && 100 <= cfg.stallCost <= 500
    && 400 <= cfg.lossCost <= 700
    && 1 <= cfg.numMechanics <= 10
    && 10.0 <= cfg.mechanicCommission <= 50.0
    && 100.0 <= cfg.mechanicSalary <= 300.0
    && 1 <= cfg.numSpecialists <= 5
    && 1 <= cfg.numStalls <= 5
    && 50.0 <= cfg.specialistCommission <= 100.0
    && 300.0 <= cfg.specialistSalary <= 500.0
  }

  /** The cost of one customer lost to another shop. */
  function LossCost(cfg: Config): real {
    cfg.lossCost as real
  }

  /** Java `int` arithmetic: the result wraps around modulo 2^32 into [-2^31, 2^31). */
  function Int32(x: int): (r: int)
    ensures -0x8000_0000 <= r < 0x8000_0000
    ensures (r - x) % 0x1_0000_0000 == 0
    ensures -0x8000_0000 <= x < 0x8000_0000 ==> r == x
  {
    (x + 0x8000_0000) % 0x1_0000_0000 - 0x8000_0000
  }

  /** NUM_STALLS * STALL_COST does not leave the range of `int`. */
  predicate OutlayFits(cfg: Config) {
    -0x8000_0000 <= cfg.numStalls * cfg.stallCost < 0x8000_0000
  }

  /**
   * The stall charge of doInitialSchedules: the `int` product
   * NUM_STALLS * STALL_COST, wrapped as Java wraps it, converted to double.
   */
  function StallOutlay(cfg: Config): (r: real)
    ensures OutlayFits(cfg) ==> r == (cfg.numStalls * cfg.stallCost) as real
    ensures OutlayFits(cfg) && cfg.stallCost >= 0 ==> r >= 0.0
  {
    Int32(cfg.numStalls * cfg.stallCost) as real
  }

  /** Every configuration the Driver offers charges the exact product, at most 5 * 500. */
  lemma DriverOutlayFits(cfg: Config)
    requires OfferedByDriver(cfg)
    ensures OutlayFits(cfg)
    ensures 100.0 <= StallOutlay(cfg) <= 2500.0
  {
  }

  /**
   * Non-negative costs do not keep the stall charge non-negative: with 3
   * stalls at 2^30 each the `int` product wraps to -2^30.
   */
  lemma WrappedOutlayIsNegative()
    ensures var cfg := Defaults.(numStalls := 3, stallCost := 0x4000_0000);
      CostsNonNegative(cfg) && !OutlayFits(cfg) && StallOutlay(cfg) == -0x4000_0000 as real
  {
  }

  /**
   * Where a customer's lifeCycle stands.  Arriving: created and activated
   * by the Generator.  WaitingMechanic: passivated after joining the
   * mechanic line.  BackFromMechanic: reactivated by its mechanic.
   * WaitingSpecialist: passivated holding a stall.  BackFromSpecialist:
   * reactivated by its specialist.  Departed: the life cycle has ended.
   */
  datatype Phase = Arriving | WaitingMechanic | BackFromMechanic | WaitingSpecialist | BackFromSpecialist | Departed

  /** Which counter, if any, has been charged for a customer. */
  datatype Outcome = Unresolved | Balked | Lost | Fixed

  /** A Customer process: its arrivalTime and finished fields, its phase and its recorded outcome. */
  datatype CustomerRec = CustomerRec(arrivalTime: real, finished: bool, phase: Phase, outcome: Outcome)

  /**
   * Where a Mechanic or Specialist process stands.  Starting: activated by
   * doInitialSchedules, its lifeCycle not yet begun.  Running: executing
   * (only inside a segment).  Passive: passivated in its idle queue.
   * Activated: reactivated out of the idle queue.  Holding: serving
   * `customer` until the simulated time `due`.
   */
  datatype WorkerPc = Starting | Running | Passive | Activated | Holding(customer: nat, due: real)

  /** Where the Generator process stands. */
  datatype GeneratorPc = NotCreated | GenStarting | GenRunning | GenHolding(due: real) | GenDone

  datatype State = State(
    clock: real,
    idleMechanics: seq<nat>,
    idleSpecialists: seq<nat>,
    waitingForMechanic: seq<nat>,
    waitingForSpecialist: seq<nat>,
    inSystem: seq<nat>,
    totalCustomers: int,
    totalBalked: int,
    totalLost: int,
    fullyFixed: int,
    stallsInUse: int,
    responseTimes: seq<real>,
    todaysCost: real,
    customers: seq<CustomerRec>,
    mechanics: seq<WorkerPc>,
    specialists: seq<WorkerPc>,
    generator: GeneratorPc)

  /** The state init() leaves: every queue empty, every counter and the cost zero, no process yet. */
  function Initialized(): (s: State)
    ensures s.idleMechanics == s.idleSpecialists == s.waitingForMechanic == s.waitingForSpecialist == s.inSystem == []
    ensures s.totalCustomers == s.totalBalked == s.totalLost == s.fullyFixed == s.stallsInUse == 0
    ensures s.todaysCost == 0.0 && s.responseTimes == []
  {
    State(0.0, [], [], [], [], [], 0, 0, 0, 0, 0, [], 0.0, [], [], [], NotCreated)
  }

  /** `n` workers, each activated and not yet started. */
  function StartingWorkers(n: nat): (r: seq<WorkerPc>)
    ensures |r| == n
    ensures forall i :: 0 <= i < n ==> r[i] == Starting
  {
    seq(n, _ => Starting)
  }

  /**
   * The state doInitialSchedules leaves after init(): mechanics 0..n-1 and
   * specialists 0..m-1 in their idle queues and activated, one Generator
   * activated, and the stall charge as the only cost.
   */
  function Scheduled(cfg: Config): (s: State)
    ensures s.waitingForMechanic == s.waitingForSpecialist == s.inSystem == [] && s.customers == []
    ensures s.totalCustomers == s.totalBalked == s.totalLost == s.fullyFixed == s.stallsInUse == 0
    ensures |s.idleMechanics| == |s.mechanics| == cfg.numMechanics
    ensures forall i :: 0 <= i < cfg.numMechanics ==> s.idleMechanics[i] == i && s.mechanics[i] == Starting
    ensures |s.idleSpecialists| == |s.specialists| == cfg.numSpecialists
    ensures forall i :: 0 <= i < cfg.numSpecialists ==> s.idleSpecialists[i] == i && s.specialists[i] == Starting
    ensures s.generator == GenStarting && s.todaysCost == StallOutlay(cfg)
  {
    Initialized().(
      idleMechanics := Ids(cfg.numMechanics),
      mechanics := StartingWorkers(cfg.numMechanics),
      idleSpecialists := Ids(cfg.numSpecialists),
      specialists := StartingWorkers(cfg.numSpecialists),
      generator := GenStarting,
      todaysCost := StallOutlay(cfg))
  }

  /** activate(): a passive process is scheduled; one already scheduled (or ended) is left as it is. */
  function Activate(w: WorkerPc): (r: WorkerPc)
    ensures w == Passive ==> r == Activated
    ensures w != Passive ==> r == w
  {
    if w == Passive then Activated else w
  }

  /** activate() on the worker with id `w`. */
  function ActivateWorker(ws: seq<WorkerPc>, w: nat): (r: seq<WorkerPc>)
    ensures |r| == |ws|
    ensures forall i :: 0 <= i < |ws| ==> r[i] == if i == w then Activate(ws[i]) else ws[i]
  {
    if w < |ws| then ws[w := Activate(ws[w])] else ws
  }

  /** activate() on a customer: each passivate resumes at its own point; a scheduled or ended customer stays as it is. */
  function Awaken(r: CustomerRec): (r': CustomerRec)
    ensures r'.arrivalTime == r.arrivalTime && r'.finished == r.finished && r'.outcome == r.outcome
    ensures r.phase == WaitingMechanic ==> r'.phase == BackFromMechanic
    ensures r.phase == WaitingSpecialist ==> r'.phase == BackFromSpecialist
    ensures r.phase != WaitingMechanic && r.phase != WaitingSpecialist ==> r'.phase == r.phase
  {
    match r.phase
    case WaitingMechanic => r.(phase := BackFromMechanic)
    case WaitingSpecialist => r.(phase := BackFromSpecialist)
    case _ => r
  }

  /** Customers that have arrived and whose outcome no counter has recorded yet. */
  predicate IsOpen(r: CustomerRec) {
    r.phase != Arriving && r.outcome == Unresolved
  }

  /** Customers that occupy a specialist stall. */
  predicate HoldsStall(r: CustomerRec) {
    r.phase == WaitingSpecialist
  }

  /** The number of customers satisfying `p`. */
  function Count(cs: seq<CustomerRec>, p: CustomerRec -> bool): (n: nat)
    ensures n <= |cs|
  {
    if cs == [] then 0 else Count(cs[..|cs| - 1], p) + (if p(cs[|cs| - 1]) then 1 else 0)
  }

  lemma CountAppend(cs: seq<CustomerRec>, x: CustomerRec, p: CustomerRec -> bool)
    ensures Count(cs + [x], p) == Count(cs, p) + (if p(x) then 1 else 0)
  {
    assert (cs + [x])[..|cs|] == cs;
  }

  /** Replacing one customer changes the count by that customer's contribution only. */
  lemma {:induction false} CountUpdate(cs: seq<CustomerRec>, i: nat, x: CustomerRec, p: CustomerRec -> bool)
    requires i < |cs|
    ensures Count(cs[i := x], p) == Count(cs, p) - (if p(cs[i]) then 1 else 0) + (if p(x) then 1 else 0)
  {
    var n := |cs| - 1;
    if i < n {
      CountUpdate(cs[..n], i, x, p);
      assert cs[i := x][..n] == cs[..n][i := x];
    } else {
      assert cs[i := x][..n] == cs[..n];
    }
  }

  /** No customer satisfies `p`: the count is zero. */
  lemma {:induction false} CountNone(cs: seq<CustomerRec>, p: CustomerRec -> bool)
    requires forall i :: 0 <= i < |cs| ==> !p(cs[i])
    ensures Count(cs, p) == 0
  {
    if cs != [] {
      CountNone(cs[..|cs| - 1], p);
    }
  }
}
