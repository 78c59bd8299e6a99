/**
 * Mechanic.lifeCycle: the salary charge and first look at the line, the
 * look at the line after being woken from the idle queue, and the end of
 * a repair (referral, lost or fixed; reactivation; commission) followed by
 * the next look at the line.
 */
module MechanicProcess {
  import opened Queues
  import opened ShopState

  /** What the end of a repair means for the customer. */
  datatype Verdict = FixedByMechanic | SentToSpecialist | LostToCompetitor

  /** A referred customer who has been in the shop strictly longer than this many hours goes elsewhere. */
  const PatienceHours: real := 0.5

  /** The referral rule; exactly one verdict applies, and half an hour on the dot still reaches the specialist. */
  function AfterRepair(referred: bool, elapsed: real): (v: Verdict)
    ensures v == LostToCompetitor <==> referred && elapsed > PatienceHours
    ensures v == SentToSpecialist <==> referred && elapsed <= PatienceHours
    ensures v == FixedByMechanic <==> !referred
  {
    if referred then
      if elapsed > PatienceHours then LostToCompetitor else SentToSpecialist
    else FixedByMechanic
  }

  /**
   * The loop test of the mechanic: with nobody waiting, join the idle
   * queue and passivate; otherwise take the head of the line and hold for
   * the repair time.
   */
  function Seek(s: State, m: nat, now: real, fixTime: real): (r: State)
    requires m < |s.mechanics|
    ensures |r.mechanics| == |s.mechanics|
    ensures forall i :: 0 <= i < |s.mechanics| && i != m ==> r.mechanics[i] == s.mechanics[i]
    ensures s.waitingForMechanic == [] ==>
              r.mechanics[m] == Passive && r.idleMechanics == Enlist(s.idleMechanics, m) && r.waitingForMechanic == []
    ensures s.waitingForMechanic != [] ==>
              && r.mechanics[m] == Holding(s.waitingForMechanic[0], now + fixTime)
              && r.waitingForMechanic == s.waitingForMechanic[1..]
              && r.idleMechanics == s.idleMechanics
    ensures r == s.(idleMechanics := r.idleMechanics, waitingForMechanic := r.waitingForMechanic, mechanics := r.mechanics)
  {
    if s.waitingForMechanic == [] then
      s.(idleMechanics := Enlist(s.idleMechanics, m), mechanics := s.mechanics[m := Passive])
    else
      s.(waitingForMechanic := s.waitingForMechanic[1..],
         mechanics := s.mechanics[m := Holding(s.waitingForMechanic[0], now + fixTime)])
  }

  /** First run of the life cycle: the day's salary, then the loop test. */
  function Start(cfg: Config, s: State, m: nat, now: real, fixTime: real): (r: State)
    requires m < |s.mechanics|
    ensures r.todaysCost == s.todaysCost + cfg.mechanicSalary
  {
    Seek(s.(clock := now, todaysCost := s.todaysCost + cfg.mechanicSalary, mechanics := s.mechanics[m := Running]),
         m, now, fixTime)
  }

  /** Resumption after passivate: back to the loop test, no charge. */
  function Resume(s: State, m: nat, now: real, fixTime: real): (r: State)
    requires m < |s.mechanics|
    ensures r.todaysCost == s.todaysCost
  {
    Seek(s.(clock := now, mechanics := s.mechanics[m := Running]), m, now, fixTime)
  }

  /** The customer a holding mechanic is repairing. */
  function Served(s: State, m: nat): nat
    requires m < |s.mechanics| && s.mechanics[m].Holding?
  {
    s.mechanics[m].customer
  }

  /** The bookkeeping after the hold, before the next loop test. */
  function Conclude(cfg: Config, s: State, m: nat, now: real, referred: bool): (r: State)
    requires m < |s.mechanics| && s.mechanics[m].Holding? && Served(s, m) < |s.customers|
    ensures r.clock == now
    ensures |r.customers| == |s.customers| && |r.mechanics| == |s.mechanics|
    ensures forall i :: 0 <= i < |s.customers| && i != Served(s, m) ==> r.customers[i] == s.customers[i]
    ensures r.mechanics == s.mechanics[m := Running]
    ensures
      var c := Served(s, m);
      var rec := s.customers[c];
      var v := AfterRepair(referred, now - rec.arrivalTime);
      && r.customers[c].phase == Awaken(rec).phase
      && r.customers[c].arrivalTime == rec.arrivalTime
      && (v == LostToCompetitor ==>
            && r.customers[c].finished && r.customers[c].outcome == Lost
            && r.totalLost == s.totalLost + 1 && r.fullyFixed == s.fullyFixed
            && r.waitingForSpecialist == s.waitingForSpecialist && r.responseTimes == s.responseTimes
            && r.todaysCost == s.todaysCost + LossCost(cfg) + cfg.mechanicCommission)
      && (v == SentToSpecialist ==>
            && r.customers[c].finished == rec.finished && r.customers[c].outcome == rec.outcome
            && r.totalLost == s.totalLost && r.fullyFixed == s.fullyFixed
            && r.waitingForSpecialist == s.waitingForSpecialist + [c] && r.responseTimes == s.responseTimes
            && r.todaysCost == s.todaysCost + cfg.mechanicCommission)
      && (v == FixedByMechanic ==>
            && r.customers[c].finished && r.customers[c].outcome == Fixed
            && r.totalLost == s.totalLost && r.fullyFixed == s.fullyFixed + 1
            && r.waitingForSpecialist == s.waitingForSpecialist
            && r.responseTimes == s.responseTimes + [now - rec.arrivalTime]
            && r.todaysCost == s.todaysCost + cfg.mechanicCommission)
    ensures && r.totalCustomers == s.totalCustomers && r.totalBalked == s.totalBalked && r.stallsInUse == s.stallsInUse
            && r.waitingForMechanic == s.waitingForMechanic && r.idleMechanics == s.idleMechanics
            && r.inSystem == s.inSystem && r.idleSpecialists == s.idleSpecialists
            && r.specialists == s.specialists && r.generator == s.generator
  {
    var c := Served(s, m);
    var s0 := s.(clock := now, mechanics := s.mechanics[m := Running]);
    var rec := s0.customers[c];
    var s1 :=
      match AfterRepair(referred, now - rec.arrivalTime)
      case LostToCompetitor =>
        s0.(customers := s0.customers[c := rec.(finished := true, outcome := Lost)],
            totalLost := s0.totalLost + 1,
            todaysCost := s0.todaysCost + LossCost(cfg))
      case SentToSpecialist =>
        s0.(waitingForSpecialist := s0.waitingForSpecialist + [c])
      case FixedByMechanic =>
        s0.(customers := s0.customers[c := rec.(finished := true, outcome := Fixed)],
            fullyFixed := s0.fullyFixed + 1,
            responseTimes := s0.responseTimes + [now - rec.arrivalTime]);
    s1.(customers := s1.customers[c := Awaken(s1.customers[c])],
        todaysCost := s1.todaysCost + cfg.mechanicCommission)
  }

  /** Resumption after the hold: outcome, reactivation, commission, then the loop test. */
  function FinishRepair(cfg: Config, s: State, m: nat, now: real, referred: bool, fixTime: real): (r: State)
    requires m < |s.mechanics| && s.mechanics[m].Holding? && Served(s, m) < |s.customers|
    ensures r.clock == now && |r.customers| == |s.customers| && |r.mechanics| == |s.mechanics|
    ensures r.totalLost + r.fullyFixed + |r.waitingForSpecialist| == s.totalLost + s.fullyFixed + |s.waitingForSpecialist| + 1
    ensures r.customers[Served(s, m)].phase == Awaken(s.customers[Served(s, m)]).phase
    ensures r.mechanics[m] == Passive || r.mechanics[m].Holding?
    ensures cfg.lossCost >= 0 ==> r.todaysCost >= s.todaysCost + cfg.mechanicCommission
  {
    Seek(Conclude(cfg, s, m, now, referred), m, now, fixTime)
  }
}
