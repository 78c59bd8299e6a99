/**
 * Generator.lifeCycle: while the clock is before closing time, choose the
 * interarrival distribution by time of day, hold, then create and activate
 * one customer.
 */
module GeneratorProcess {
  import opened ShopState

  /** The time-of-day bands of the loop body (8-10, 10-4, 4-8 and after). */
  datatype Band = Opening | Midday | Evening | AfterHours

  /** The band the clock `t` (hours since opening) falls in. */
  function BandAt(t: real): (b: Band)
    ensures b == Opening <==> t < 2.0
    ensures b == Midday <==> 2.0 <= t < 8.0
    ensures b == Evening <==> 8.0 <= t < 12.0
    ensures b == AfterHours <==> 12.0 <= t
  {
    if t < 2.0 then Opening
    else if t < 8.0 then Midday
    else if t < 12.0 then Evening
    else AfterHours
  }

  /**
   * The mean of the exponential distribution sampled in each band; no
   * distribution after hours.  Cars come most often at midday and least
   * often in the opening hours.
   */
  function BandMean(b: Band): (mean: real)
    requires b != AfterHours
    ensures Interarrival10To4 <= mean <= Interarrival8To10
    ensures b == Midday <==> mean == Interarrival10To4
    ensures b == Opening <==> mean == Interarrival8To10
  {
    match b
    case Opening => Interarrival8To10
    case Midday => Interarrival10To4
    case Evening => Interarrival4To8
  }

  /**
   * The hold before the next arrival: `sample` is the draw taken from the
   * band's distribution; after hours nothing is drawn and the gap stays 0.
   */
  function Gap(t: real, sample: real): (gap: real)
    ensures BandAt(t) != AfterHours ==> gap == sample
    ensures BandAt(t) == AfterHours ==> gap == 0.0
  {
    if BandAt(t) == AfterHours then 0.0 else sample
  }

  /** With the shop closing at or before hour 12, every loop iteration finds a band with a distribution. */
  lemma BandWhileOpen(cfg: Config, t: real, sample: real)
    requires cfg.operationHours <= 12
    requires t < cfg.operationHours as real
    ensures BandAt(t) != AfterHours
    ensures Gap(t, sample) == sample
  {
  }

  /** The loop test: before closing, hold for the next gap; otherwise the life cycle ends. */
  function Loop(cfg: Config, s: State, now: real, sample: real): (r: State)
    ensures r == s.(generator := r.generator)
    ensures now < cfg.operationHours as real ==> r.generator == GenHolding(now + Gap(now, sample))
    ensures now >= cfg.operationHours as real ==> r.generator == GenDone
  {
    if now < cfg.operationHours as real then s.(generator := GenHolding(now + Gap(now, sample)))
    else s.(generator := GenDone)
  }

  /** First run: the loop test at the time the Generator is started; nobody is created yet. */
  function Start(cfg: Config, s: State, now: real, sample: real): (r: State)
    ensures r.clock == now && r.customers == s.customers
    ensures now < cfg.operationHours as real ==> r.generator == GenHolding(now + Gap(now, sample))
    ensures now >= cfg.operationHours as real ==> r.generator == GenDone
  {
    Loop(cfg, s.(clock := now, generator := GenRunning), now, sample)
  }

  /** The customer created at the end of a hold: arrival at the current clock, not finished. */
  function Newcomer(now: real): CustomerRec {
    CustomerRec(now, false, Arriving, Unresolved)
  }

  /** Resumption after the hold: one new customer, activated, then the loop test. */
  function Resume(cfg: Config, s: State, now: real, sample: real): (r: State)
    ensures r.customers == s.customers + [Newcomer(now)]
    ensures r.customers[|s.customers|].arrivalTime == now == r.clock
  {
    Loop(cfg, s.(clock := now, generator := GenRunning, customers := s.customers + [Newcomer(now)]), now, sample)
  }
}
