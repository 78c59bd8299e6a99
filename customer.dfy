/**
 * Customer.lifeCycle, cut at its two passivate calls into three atomic
 * segments: arrival (with the balk decision), the resumption after the
 * mechanic (with the stall claim), and the resumption after the specialist.
 */
module CustomerProcess {
  import opened Queues
  import opened ShopState

  /**
   * The balk rule: with `othersWaiting` cars ahead in the mechanic line
   * and a threshold drawn from [1, 8], the customer leaves when the
   * threshold is at most the number of cars ahead.
   */
  function Balks(threshold: int, othersWaiting: int): (balks: bool)
    ensures BalkLow <= threshold && othersWaiting < BalkLow ==> !balks
    ensures threshold <= BalkHigh && othersWaiting >= BalkHigh ==> balks
  {
    threshold <= othersWaiting
  }

  /** Balking is monotone in congestion: a customer who balks with k cars ahead also balks with more. */
  lemma BalkMonotone(threshold: int, k: int, k': int)
    requires k <= k'
    ensures Balks(threshold, k) ==> Balks(threshold, k')
  {
  }

  /** Whether the arriving customer balks, given the state before it joins the line. */
  function BalksOnArrival(s: State, threshold: int): bool {
    s.idleMechanics == [] && Balks(threshold, |s.waitingForMechanic|)
  }

  /** The body of the `while (!finished)` loop up to the first passivate. */
  function ArrivalBody(cfg: Config, s: State, c: nat, threshold: int): (r: State)
    requires c < |s.customers|
    ensures |r.customers| == |s.customers|
    ensures r.clock == s.clock
    ensures r.totalCustomers == s.totalCustomers + 1
    ensures r.customers[c] == s.customers[c].(
              finished := s.customers[c].finished || BalksOnArrival(s, threshold),
              phase := if BalksOnArrival(s, threshold) then Departed else WaitingMechanic,
              outcome := if BalksOnArrival(s, threshold) then Balked else s.customers[c].outcome)
    ensures forall i :: 0 <= i < |s.customers| && i != c ==> r.customers[i] == s.customers[i]
    ensures r.idleMechanics == if s.idleMechanics != [] then s.idleMechanics[1..] else s.idleMechanics
    ensures r.mechanics == if s.idleMechanics != [] then ActivateWorker(s.mechanics, s.idleMechanics[0]) else s.mechanics
    ensures !BalksOnArrival(s, threshold) ==>
              && r.waitingForMechanic == s.waitingForMechanic + [c]
              && r.inSystem == s.inSystem + [c]
              && r.totalBalked == s.totalBalked && r.todaysCost == s.todaysCost
    ensures BalksOnArrival(s, threshold) ==>
              && r.waitingForMechanic == Remove(s.waitingForMechanic + [c], c)
              && r.inSystem == Remove(s.inSystem + [c], c)
              && r.totalBalked == s.totalBalked + 1 && r.todaysCost == s.todaysCost + LossCost(cfg)
    ensures && r.totalLost == s.totalLost && r.fullyFixed == s.fullyFixed && r.stallsInUse == s.stallsInUse
            && r.waitingForSpecialist == s.waitingForSpecialist && r.idleSpecialists == s.idleSpecialists
            && r.specialists == s.specialists && r.generator == s.generator && r.responseTimes == s.responseTimes
  {
    var rec := s.customers[c];
    var joined := s.(totalCustomers := s.totalCustomers + 1,
                     inSystem := s.inSystem + [c],
                     waitingForMechanic := s.waitingForMechanic + [c]);
    if joined.idleMechanics != [] then
      joined.(idleMechanics := joined.idleMechanics[1..],
              mechanics := ActivateWorker(joined.mechanics, joined.idleMechanics[0]),
              customers := joined.customers[c := rec.(phase := WaitingMechanic)])
    else if Balks(threshold, |joined.waitingForMechanic| - 1) then
      joined.(waitingForMechanic := Remove(joined.waitingForMechanic, c),
              totalBalked := joined.totalBalked + 1,
              todaysCost := joined.todaysCost + LossCost(cfg),
              inSystem := Remove(joined.inSystem, c),
              customers := joined.customers[c := rec.(finished := true, phase := Departed, outcome := Balked)])
    else
      joined.(customers := joined.customers[c := rec.(phase := WaitingMechanic)])
  }

  /**
   * The first segment of a customer activated by the Generator: it runs at
   * the activation time, is counted once, and ends either in the mechanic
   * line or, having balked, outside the shop.
   */
  function Arrive(cfg: Config, s: State, c: nat, now: real, threshold: int): (r: State)
    requires c < |s.customers|
    ensures r.clock == now && r.totalCustomers == s.totalCustomers + 1 && |r.customers| == |s.customers|
    ensures r.customers[c].phase == WaitingMechanic || r.customers[c].phase == Departed
    ensures r.customers[c].arrivalTime == s.customers[c].arrivalTime
    ensures r.totalBalked + r.totalLost + r.fullyFixed == s.totalBalked + s.totalLost + s.fullyFixed
              + (if r.customers[c].phase == Departed then 1 else 0)
  {
    ArrivalBody(cfg, s.(clock := now), c, threshold)
  }

  /**
   * The segment after the mechanic reactivates the customer: leave if
   * already finished; otherwise leave as lost when every stall is in use,
   * or claim a stall and wake the first idle specialist.
   */
  function BackFromMechanic(cfg: Config, s: State, c: nat, now: real): (r: State)
    requires c < |s.customers|
    ensures |r.customers| == |s.customers| && r.clock == now
    ensures forall i :: 0 <= i < |s.customers| && i != c ==> r.customers[i] == s.customers[i]
    ensures r.customers[c].arrivalTime == s.customers[c].arrivalTime
    ensures s.customers[c].finished ==>
              && r.customers[c] == s.customers[c].(phase := Departed)
              && r.inSystem == Remove(s.inSystem, c)
              && r.totalLost == s.totalLost && r.stallsInUse == s.stallsInUse && r.todaysCost == s.todaysCost
              && r.waitingForSpecialist == s.waitingForSpecialist && r.idleSpecialists == s.idleSpecialists
    ensures !s.customers[c].finished && s.stallsInUse >= cfg.numStalls ==>
              && r.customers[c] == s.customers[c].(finished := true, phase := Departed, outcome := Lost)
              && r.waitingForSpecialist == Remove(s.waitingForSpecialist, c)
              && r.inSystem == Remove(s.inSystem, c)
              && r.totalLost == s.totalLost + 1 && r.todaysCost == s.todaysCost + LossCost(cfg)
              && r.stallsInUse == s.stallsInUse && r.idleSpecialists == s.idleSpecialists
    ensures !s.customers[c].finished && s.stallsInUse < cfg.numStalls ==>
              && r.customers[c] == s.customers[c].(phase := WaitingSpecialist)
              && r.stallsInUse == s.stallsInUse + 1
              && r.inSystem == s.inSystem && r.waitingForSpecialist == s.waitingForSpecialist
              && r.totalLost == s.totalLost && r.todaysCost == s.todaysCost
    ensures r.idleSpecialists != s.idleSpecialists ==>
              s.idleSpecialists != [] && r.stallsInUse == s.stallsInUse + 1 && r.idleSpecialists == s.idleSpecialists[1..]
              && r.specialists == ActivateWorker(s.specialists, s.idleSpecialists[0])
    ensures r.idleSpecialists == s.idleSpecialists ==> r.specialists == s.specialists
    ensures r.stallsInUse > s.stallsInUse ==> r.stallsInUse <= cfg.numStalls
    ensures && r.totalCustomers == s.totalCustomers && r.totalBalked == s.totalBalked && r.fullyFixed == s.fullyFixed
            && r.waitingForMechanic == s.waitingForMechanic && r.idleMechanics == s.idleMechanics
            && r.mechanics == s.mechanics && r.generator == s.generator && r.responseTimes == s.responseTimes
  {
    var s0 := s.(clock := now);
    var rec := s0.customers[c];
    if rec.finished then
      s0.(inSystem := Remove(s0.inSystem, c),
          customers := s0.customers[c := rec.(phase := Departed)])
    else if s0.stallsInUse >= cfg.numStalls then
      s0.(waitingForSpecialist := Remove(s0.waitingForSpecialist, c),
          totalLost := s0.totalLost + 1,
          todaysCost := s0.todaysCost + LossCost(cfg),
          inSystem := Remove(s0.inSystem, c),
          customers := s0.customers[c := rec.(finished := true, phase := Departed, outcome := Lost)])
    else
      var claimed := s0.(stallsInUse := s0.stallsInUse + 1,
                         customers := s0.customers[c := rec.(phase := WaitingSpecialist)]);
      if claimed.idleSpecialists != [] then
        claimed.(idleSpecialists := claimed.idleSpecialists[1..],
                 specialists := ActivateWorker(claimed.specialists, claimed.idleSpecialists[0]))
      else
        claimed
  }

  /**
   * The segment after the specialist reactivates the customer: the loop
   * test `while (!finished)` ends the life cycle, or, for a customer not
   * finished, runs the loop body again.
   */
  function BackFromSpecialist(cfg: Config, s: State, c: nat, now: real, threshold: int): (r: State)
    requires c < |s.customers|
    ensures s.customers[c].finished ==> r == s.(clock := now, customers := s.customers[c := s.customers[c].(phase := Departed)])
  {
    var s0 := s.(clock := now);
    var rec := s0.customers[c];
    if rec.finished then s0.(customers := s0.customers[c := rec.(phase := Departed)])
    else ArrivalBody(cfg, s0, c, threshold)
  }
}
