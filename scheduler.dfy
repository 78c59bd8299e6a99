/**
 * The DESMO-J scheduler seen from the shop: at each point it resumes one
 * process that has a pending resumption, with the random samples that
 * segment draws.  Which process runs is left open; a hold ends exactly at
 * its due time and the clock never goes back.
 */
module Scheduler {
  import opened ShopState
  import CustomerProcess
  import MechanicProcess
  import SpecialistProcess
  import GeneratorProcess

  /** One atomic segment of one process, with its resumption time and the samples it draws. */
  datatype Step =
    | CustomerArrives(c: nat, now: real, threshold: int)
    | CustomerBackFromMechanic(c: nat, now: real)
    | CustomerBackFromSpecialist(c: nat, now: real, threshold: int)
    | MechanicStarts(m: nat, now: real, fixTime: real)
    | MechanicResumes(m: nat, now: real, fixTime: real)
    | MechanicFinishes(m: nat, now: real, referred: bool, fixTime: real)
    | SpecialistStarts(p: nat, now: real, fixTime: real)
    | SpecialistResumes(p: nat, now: real, fixTime: real)
    | SpecialistFinishes(p: nat, now: real, fixTime: real)
    | GeneratorStarts(now: real, sample: real)
    | GeneratorResumes(now: real, sample: real)

  /** A balk threshold the uniform distribution on [1, 8] can return. */
  predicate ThresholdInRange(threshold: int) {
    BalkLow <= threshold <= BalkHigh
  }

  /** The process the step resumes is waiting at that resumption point, and the samples are in range. */
  predicate Enabled(s: State, step: Step) {
    && step.now >= s.clock
    && match step
       case CustomerArrives(c, _, threshold) =>
         c < |s.customers| && s.customers[c].phase == Arriving && ThresholdInRange(threshold)
       case CustomerBackFromMechanic(c, _) =>
         c < |s.customers| && s.customers[c].phase == BackFromMechanic
       case CustomerBackFromSpecialist(c, _, threshold) =>
         c < |s.customers| && s.customers[c].phase == BackFromSpecialist && ThresholdInRange(threshold)
       case MechanicStarts(m, _, fixTime) =>
         m < |s.mechanics| && s.mechanics[m] == Starting && fixTime >= 0.0
       case MechanicResumes(m, _, fixTime) =>
         m < |s.mechanics| && s.mechanics[m] == Activated && fixTime >= 0.0
       case MechanicFinishes(m, now, _, fixTime) =>
         && m < |s.mechanics| && s.mechanics[m].Holding? && s.mechanics[m].due == now
         && s.mechanics[m].customer < |s.customers| && fixTime >= 0.0
       case SpecialistStarts(p, _, fixTime) =>
         p < |s.specialists| && s.specialists[p] == Starting && fixTime >= 0.0
       case SpecialistResumes(p, _, fixTime) =>
         p < |s.specialists| && s.specialists[p] == Activated && fixTime >= 0.0
       case SpecialistFinishes(p, now, fixTime) =>
         && p < |s.specialists| && s.specialists[p].Holding? && s.specialists[p].due == now
         && s.specialists[p].customer < |s.customers| && fixTime >= 0.0
       case GeneratorStarts(_, sample) =>
         s.generator == GenStarting && sample >= 0.0
       case GeneratorResumes(now, sample) =>
         s.generator.GenHolding? && s.generator.due == now && sample >= 0.0
  }

  /** Whether the step runs a specialist segment, each of which ends by taking the head of the specialist line. */
  predicate RunsSpecialist(step: Step) {
    step.SpecialistStarts? || step.SpecialistResumes? || step.SpecialistFinishes?
  }

  /** Every customer in the specialist line has already claimed its stall. */
  ghost predicate SpecialistLineClaimed(s: State) {
    forall i :: 0 <= i < |s.waitingForSpecialist| ==>
      s.waitingForSpecialist[i] < |s.customers| && s.customers[s.waitingForSpecialist[i]].phase == WaitingSpecialist
  }

  /**
   * The ordering the shop's counters rely on: a specialist only looks at
   * the specialist line when every customer in it has already claimed its
   * stall, i.e. no referred customer is still waiting for its own
   * resumption.
   */
  ghost predicate Settled(s: State, step: Step) {
    RunsSpecialist(step) ==> SpecialistLineClaimed(s)
  }

  /**
   * The state after the segment the step runs: the clock moves to the
   * resumption time, and customers are only ever added.
   */
  function Apply(cfg: Config, s: State, step: Step): (r: State)
    requires Enabled(s, step)
    ensures r.clock == step.now >= s.clock
    ensures |r.customers| == |s.customers| + (if step.GeneratorResumes? then 1 else 0)
  {
    match step
    case CustomerArrives(c, now, threshold) => CustomerProcess.Arrive(cfg, s, c, now, threshold)
    case CustomerBackFromMechanic(c, now) => CustomerProcess.BackFromMechanic(cfg, s, c, now)
    case CustomerBackFromSpecialist(c, now, threshold) => CustomerProcess.BackFromSpecialist(cfg, s, c, now, threshold)
    case MechanicStarts(m, now, fixTime) => MechanicProcess.Start(cfg, s, m, now, fixTime)
    case MechanicResumes(m, now, fixTime) => MechanicProcess.Resume(s, m, now, fixTime)
    case MechanicFinishes(m, now, referred, fixTime) => MechanicProcess.FinishRepair(cfg, s, m, now, referred, fixTime)
    case SpecialistStarts(p, now, fixTime) => SpecialistProcess.Start(cfg, s, p, now, fixTime)
    case SpecialistResumes(p, now, fixTime) => SpecialistProcess.Resume(s, p, now, fixTime)
    case SpecialistFinishes(p, now, fixTime) => SpecialistProcess.FinishRepair(cfg, s, p, now, fixTime)
    case GeneratorStarts(now, sample) => GeneratorProcess.Start(cfg, s, now, sample)
    case GeneratorResumes(now, sample) => GeneratorProcess.Resume(cfg, s, now, sample)
  }
}
