/**
 * Specialist.lifeCycle: the salary charge and first look at the
 * specialist line, the look after being woken from the idle queue, and
 * the end of a repair (fixed, response time, leaving the shop, stall
 * release, reactivation, commission) followed by the next look.
 */
module SpecialistProcess {
  import opened Queues
  import opened ShopState

  /**
   * The loop test of the specialist: with nobody in the specialist line,
   * join the idle queue and passivate; otherwise take the head of the line
   * and hold for the repair time.
   */
  function Seek(s: State, p: nat, now: real, fixTime: real): (r: State)
    requires p < |s.specialists|
    ensures |r.specialists| == |s.specialists|
    ensures forall i :: 0 <= i < |s.specialists| && i != p ==> r.specialists[i] == s.specialists[i]
    ensures s.waitingForSpecialist == [] ==>
              r.specialists[p] == Passive && r.idleSpecialists == Enlist(s.idleSpecialists, p) && r.waitingForSpecialist == []
    ensures s.waitingForSpecialist != [] ==>
              && r.specialists[p] == Holding(s.waitingForSpecialist[0], now + fixTime)
              && r.waitingForSpecialist == s.waitingForSpecialist[1..]
              && r.idleSpecialists == s.idleSpecialists
    ensures r == s.(idleSpecialists := r.idleSpecialists, waitingForSpecialist := r.waitingForSpecialist, specialists := r.specialists)
  {
    if s.waitingForSpecialist == [] then
      s.(idleSpecialists := Enlist(s.idleSpecialists, p), specialists := s.specialists[p := Passive])
    else
      s.(waitingForSpecialist := s.waitingForSpecialist[1..],
         specialists := s.specialists[p := Holding(s.waitingForSpecialist[0], now + fixTime)])
  }

  /** First run of the life cycle: the day's salary, then the loop test. */
  function Start(cfg: Config, s: State, p: nat, now: real, fixTime: real): (r: State)
    requires p < |s.specialists|
    ensures r.todaysCost == s.todaysCost + cfg.specialistSalary
  {
    Seek(s.(clock := now, todaysCost := s.todaysCost + cfg.specialistSalary, specialists := s.specialists[p := Running]),
         p, now, fixTime)
  }

  /** Resumption after passivate: back to the loop test, no charge. */
  function Resume(s: State, p: nat, now: real, fixTime: real): (r: State)
    requires p < |s.specialists|
    ensures r.todaysCost == s.todaysCost
  {
    Seek(s.(clock := now, specialists := s.specialists[p := Running]), p, now, fixTime)
  }

  /** The customer a holding specialist is repairing. */
  function Served(s: State, p: nat): nat
    requires p < |s.specialists| && s.specialists[p].Holding?
  {
    s.specialists[p].customer
  }

  /**
   * The bookkeeping after the hold, before the next loop test: the car is
   * always fully fixed here; a specialist never refers, never records a
   * loss or a balk, and its only charge is one commission.
   */
  function Conclude(cfg: Config, s: State, p: nat, now: real): (r: State)
    requires p < |s.specialists| && s.specialists[p].Holding? && Served(s, p) < |s.customers|
    ensures r.clock == now
    ensures |r.customers| == |s.customers|
    ensures forall i :: 0 <= i < |s.customers| && i != Served(s, p) ==> r.customers[i] == s.customers[i]
    ensures r.specialists == s.specialists[p := Running]
    ensures
      var c := Served(s, p);
      var rec := s.customers[c];
      && r.customers[c] == Awaken(rec).(finished := true, outcome := Fixed)
      && r.fullyFixed == s.fullyFixed + 1
      && r.responseTimes == s.responseTimes + [now - rec.arrivalTime]
      && r.inSystem == Remove(s.inSystem, c)
      && r.stallsInUse == s.stallsInUse - 1
      && r.todaysCost == s.todaysCost + cfg.specialistCommission
    ensures && r.totalCustomers == s.totalCustomers && r.totalBalked == s.totalBalked && r.totalLost == s.totalLost
            && r.waitingForMechanic == s.waitingForMechanic && r.waitingForSpecialist == s.waitingForSpecialist
            && r.idleMechanics == s.idleMechanics && r.idleSpecialists == s.idleSpecialists
            && r.mechanics == s.mechanics && r.generator == s.generator
  {
    var c := Served(s, p);
    var s0 := s.(clock := now, specialists := s.specialists[p := Running]);
    var rec := s0.customers[c];
    var s1 := s0.(fullyFixed := s0.fullyFixed + 1,
                  responseTimes := s0.responseTimes + [now - rec.arrivalTime],
                  customers := s0.customers[c := rec.(finished := true, outcome := Fixed)],
                  inSystem := Remove(s0.inSystem, c),
                  stallsInUse := s0.stallsInUse - 1);
    s1.(customers := s1.customers[c := Awaken(s1.customers[c])],
        todaysCost := s1.todaysCost + cfg.specialistCommission)
  }

  /** Resumption after the hold: completion, then the loop test. */
  function FinishRepair(cfg: Config, s: State, p: nat, now: real, fixTime: real): (r: State)
    requires p < |s.specialists| && s.specialists[p].Holding? && Served(s, p) < |s.customers|
    ensures r.clock == now && |r.customers| == |s.customers| && |r.specialists| == |s.specialists|
    ensures r.fullyFixed == s.fullyFixed + 1 && r.stallsInUse == s.stallsInUse - 1
    ensures r.customers[Served(s, p)].finished && r.customers[Served(s, p)].outcome == Fixed
    ensures r.specialists[p] == Passive || r.specialists[p].Holding?
    ensures r.todaysCost == s.todaysCost + cfg.specialistCommission
  {
    Seek(Conclude(cfg, s, p, now), p, now, fixTime)
  }
}
