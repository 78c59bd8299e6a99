/**
 * What every reachable state of the shop satisfies.  `Wf` holds whatever
 * order the scheduler picks; `Ordered` adds the exact stall count and
 * customer conservation, and holds as long as no specialist segment runs
 * ahead of a referred customer's own resumption (`Scheduler.Settled`).
 */
module Invariants {
  import opened Queues
  import opened ShopState
  import opened Scheduler
  import CustomerProcess
  import MechanicProcess
  import SpecialistProcess
  import GeneratorProcess

  /** A customer in the mechanic line or with a mechanic. */
  predicate WaitsForMechanic(r: CustomerRec) {
    r.phase == WaitingMechanic && !r.finished && r.outcome == Unresolved
  }

  /** A customer whose time with the mechanic is over. */
  predicate PastMechanic(r: CustomerRec) {
    r.phase != Arriving && r.phase != WaitingMechanic
  }

  /** A referred customer: resumed or about to resume after the mechanic, or holding a stall. */
  predicate Referred(r: CustomerRec) {
    (r.phase == BackFromMechanic || r.phase == WaitingSpecialist) && !r.finished && r.outcome == Unresolved
  }

  /** A customer holding a stall and not yet fixed. */
  predicate InStall(r: CustomerRec) {
    r.phase == WaitingSpecialist && !r.finished && r.outcome == Unresolved
  }

  /** A customer between joining the mechanic line and leaving the shop. */
  predicate InShop(r: CustomerRec) {
    r.phase == WaitingMechanic || r.phase == BackFromMechanic || r.phase == WaitingSpecialist
  }

  ghost predicate CountersSane(cfg: Config, s: State) {
    && s.totalCustomers >= 0 && s.totalBalked >= 0 && s.totalLost >= 0 && s.fullyFixed >= 0
    && s.stallsInUse <= cfg.numStalls as int
  }

  ghost predicate IdleSane(s: State) {
    && Distinct(s.idleMechanics) && IdsBelow(s.idleMechanics, |s.mechanics|)
    && Distinct(s.idleSpecialists) && IdsBelow(s.idleSpecialists, |s.specialists|)
  }

  ghost predicate MechanicLineSane(s: State) {
    && Distinct(s.waitingForMechanic)
    && forall c :: c in s.waitingForMechanic ==> c < |s.customers| && WaitsForMechanic(s.customers[c])
  }

  ghost predicate MechanicsHoldSane(s: State) {
    && (forall m :: 0 <= m < |s.mechanics| && s.mechanics[m].Holding? ==>
          && s.mechanics[m].customer < |s.customers| && WaitsForMechanic(s.customers[s.mechanics[m].customer])
          && s.mechanics[m].customer !in s.waitingForMechanic)
    && (forall m, m' ::
          (0 <= m < |s.mechanics| && 0 <= m' < |s.mechanics| && m != m' && s.mechanics[m].Holding? && s.mechanics[m'].Holding?) ==>
          s.mechanics[m].customer != s.mechanics[m'].customer)
  }

  ghost predicate SpecialistSideSane(s: State) {
    && (forall c :: c in s.waitingForSpecialist ==> c < |s.customers| && PastMechanic(s.customers[c]))
    && (forall p :: 0 <= p < |s.specialists| && s.specialists[p].Holding? ==>
          s.specialists[p].customer < |s.customers| && PastMechanic(s.customers[s.specialists[p].customer]))
  }

  /** Arrival times are in the past, a customer still arriving has nothing recorded, and the specialist only hands back finished cars. */
  ghost predicate RecordsSane(s: State) {
    forall c :: 0 <= c < |s.customers| ==>
      && s.customers[c].arrivalTime <= s.clock
      && (s.customers[c].phase == Arriving ==> !s.customers[c].finished && s.customers[c].outcome == Unresolved)
      && (s.customers[c].phase == BackFromSpecialist ==> s.customers[c].finished)
  }

  ghost predicate ResponsesSane(s: State) {
    forall i :: 0 <= i < |s.responseTimes| ==> s.responseTimes[i] >= 0.0
  }

  /** The invariant that holds under every interleaving. */
  ghost predicate Wf(cfg: Config, s: State) {
    && CountersSane(cfg, s) && IdleSane(s) && MechanicLineSane(s) && MechanicsHoldSane(s)
    && SpecialistSideSane(s) && RecordsSane(s) && ResponsesSane(s)
  }

  ghost predicate SpecialistLineSane(s: State) {
    && Distinct(s.waitingForSpecialist)
    && forall c :: c in s.waitingForSpecialist ==> c < |s.customers| && Referred(s.customers[c])
  }

  ghost predicate SpecialistsHoldSane(s: State) {
    && (forall p :: 0 <= p < |s.specialists| && s.specialists[p].Holding? ==>
          && s.specialists[p].customer < |s.customers| && InStall(s.customers[s.specialists[p].customer])
          && s.specialists[p].customer !in s.waitingForSpecialist)
    && (forall p, p' ::
          (0 <= p < |s.specialists| && 0 <= p' < |s.specialists| && p != p' && s.specialists[p].Holding? && s.specialists[p'].Holding?) ==>
          s.specialists[p].customer != s.specialists[p'].customer)
  }

  /** inSystem holds exactly the customers between joining the line and leaving, once each. */
  ghost predicate PresenceExact(s: State) {
    && Distinct(s.inSystem)
    && (forall c :: c in s.inSystem ==> c < |s.customers| && InShop(s.customers[c]))
    && (forall c :: 0 <= c < |s.customers| && InShop(s.customers[c]) ==> c in s.inSystem)
  }

  /** `finished` is set exactly when a counter has recorded the customer, and no one leaves unrecorded. */
  ghost predicate OutcomesSane(s: State) {
    forall c :: 0 <= c < |s.customers| ==>
      && (s.customers[c].finished <==> s.customers[c].outcome != Unresolved)
      && (s.customers[c].phase == Departed ==> s.customers[c].finished)
  }

  ghost predicate StallsCounted(s: State) {
    s.stallsInUse == Count(s.customers, HoldsStall)
  }

  ghost predicate Conserved(s: State) {
    s.totalCustomers == s.totalBalked + s.totalLost + s.fullyFixed + Count(s.customers, IsOpen)
  }

  /** The part of `Ordered` that depends on the order of segments. */
  ghost predicate Accounted(s: State) {
    && SpecialistLineSane(s) && SpecialistsHoldSane(s) && PresenceExact(s)
    && OutcomesSane(s) && StallsCounted(s) && Conserved(s)
  }

  /** The invariant of every settled run. */
  ghost predicate Ordered(cfg: Config, s: State) {
    Wf(cfg, s) && Accounted(s)
  }
}
