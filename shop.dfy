/**
 * AutoBodyShop as an object: the configuration, the five process queues,
 * the counters and the cost aggregate are fields that each life-cycle
 * segment updates in place.  Every method is proved to leave exactly the
 * state the corresponding pure segment function describes, so the
 * invariants proved about those functions hold of the object.
 */
module Shop {
  import opened Queues
  import opened ShopState
  import opened Scheduler
  import opened Invariants
  import CustomerProcess
  import MechanicProcess
  import SpecialistProcess
  import GeneratorProcess
  import WfProofs
  import OrderedProofs
  import Runs

  class AutoBodyShop {
    /** The static configuration fields the Driver sets before a run. */
    const cfg: Config

    var clock: real
    var idleMechanics: seq<nat>
    var idleSpecialists: seq<nat>
    var waitingForMechanic: seq<nat>
    var waitingForSpecialist: seq<nat>
    var inSystem: seq<nat>
    var totalCustomers: int
    var totalBalked: int
    var totalLost: int
    var fullyFixed: int
    var stallsInUse: int
    var responseTimes: seq<real>
    var todaysCost: real
    /** The Customer processes by id, with their own `arrivalTime` and `finished` fields. */
    var customers: seq<CustomerRec>
    /** The Mechanic and Specialist processes by id, and the Generator. */
    var mechanics: seq<WorkerPc>
    var specialists: seq<WorkerPc>
    var generator: GeneratorPc

    /** The fields as one value. */
    function Model(): State
      reads this
    {
      State(clock, idleMechanics, idleSpecialists, waitingForMechanic, waitingForSpecialist, inSystem,
            totalCustomers, totalBalked, totalLost, fullyFixed, stallsInUse, responseTimes, todaysCost,
            customers, mechanics, specialists, generator)
    }

    /** init(): every queue empty, every counter and the cost zero. */
    constructor Init(cfg: Config)
      ensures this.cfg == cfg
      ensures Model() == Initialized()
    {
      this.cfg := cfg;
      clock := 0.0;
      idleMechanics := [];
      idleSpecialists := [];
      waitingForMechanic := [];
      waitingForSpecialist := [];
      inSystem := [];
      totalCustomers := 0;
      totalBalked := 0;
      totalLost := 0;
      fullyFixed := 0;
      stallsInUse := 0;
      responseTimes := [];
      todaysCost := 0.0;
      customers := [];
      mechanics := [];
      specialists := [];
      generator := NotCreated;
    }

    // ---- Shared updates ----
    // Each of these changes at most two fields; the segments below are
    // sequences of them.

    /** todaysCost.update(amount). */
    method Charge(amount: real)
      modifies this
      ensures Model() == old(Model()).(todaysCost := old(todaysCost) + amount)
    {
      todaysCost := todaysCost + amount;
    }

    /** Where the customer's life cycle is suspended. */
    method SetPhase(c: nat, phase: Phase)
      requires c < |customers|
      modifies this
      ensures Model() == old(Model()).(customers := old(customers)[c := old(customers)[c].(phase := phase)])
    {
      customers := customers[c := customers[c].(phase := phase)];
    }

    /** finished = true with the customer's outcome, while it is still in the system. */
    method Close(c: nat, outcome: Outcome)
      requires c < |customers|
      modifies this
      ensures Model() == old(Model()).(customers := old(customers)[c := old(customers)[c].(finished := true, outcome := outcome)])
    {
      customers := customers[c := customers[c].(finished := true, outcome := outcome)];
    }

    /** A customer that gives up: finished with its outcome, and out of inSystem. */
    method Leave(c: nat, outcome: Outcome)
      requires c < |customers|
      modifies this
      ensures Model() == old(Model()).(inSystem := Remove(old(inSystem), c),
                                       customers := old(customers)[c := old(customers)[c].(finished := true, phase := Departed, outcome := outcome)])
    {
      inSystem := Remove(inSystem, c);
      customers := customers[c := customers[c].(finished := true, phase := Departed, outcome := outcome)];
    }

    /** totalLost.update() and the loss charged. */
    method RecordLoss()
      modifies this
      ensures Model() == old(Model()).(totalLost := old(totalLost) + 1, todaysCost := old(todaysCost) + LossCost(cfg))
    {
      totalLost := totalLost + 1;
      Charge(LossCost(cfg));
    }

    /** fullyFixed.update() and responseTimes.update(now - arrivalTime). */
    method RecordFix(c: nat, now: real)
      requires c < |customers|
      modifies this
      ensures Model() == old(Model()).(fullyFixed := old(fullyFixed) + 1,
                                       responseTimes := old(responseTimes) + [now - old(customers)[c].arrivalTime])
    {
      fullyFixed := fullyFixed + 1;
      responseTimes := responseTimes + [now - customers[c].arrivalTime];
    }

    /** activate() on the repaired customer. */
    method Reactivate(c: nat)
      requires c < |customers|
      modifies this
      ensures Model() == old(Model()).(customers := old(customers)[c := Awaken(old(customers)[c])])
    {
      customers := customers[c := Awaken(customers[c])];
    }

    // ---- Initial schedules ----

    /** `numMechanics` mechanics created, each inserted into idleMechanics and activated. */
    method CreateMechanics()
      requires idleMechanics == [] && mechanics == []
      modifies this
      ensures Model() == old(Model()).(idleMechanics := Ids(cfg.numMechanics), mechanics := StartingWorkers(cfg.numMechanics))
    {
      for i := 0 to cfg.numMechanics
        invariant idleMechanics == Ids(i) && mechanics == StartingWorkers(i)
        invariant Model() == old(Model()).(idleMechanics := idleMechanics, mechanics := mechanics)
      {
        idleMechanics := idleMechanics + [i];
        mechanics := mechanics + [Starting];
      }
    }

    /** `numSpecialists` specialists created, each inserted into idleSpecialists and activated. */
    method CreateSpecialists()
      requires idleSpecialists == [] && specialists == []
      modifies this
      ensures Model() == old(Model()).(idleSpecialists := Ids(cfg.numSpecialists), specialists := StartingWorkers(cfg.numSpecialists))
    {
      for i := 0 to cfg.numSpecialists
        invariant idleSpecialists == Ids(i) && specialists == StartingWorkers(i)
        invariant Model() == old(Model()).(idleSpecialists := idleSpecialists, specialists := specialists)
      {
        idleSpecialists := idleSpecialists + [i];
        specialists := specialists + [Starting];
      }
    }

    /**
     * doInitialSchedules(): create, enqueue and activate every mechanic and
     * every specialist, activate one Generator, and charge the stalls.
     */
    method DoInitialSchedules()
      requires Model() == Initialized()
      modifies this
      ensures Model() == Scheduled(cfg)
    {
      CreateMechanics();
      CreateSpecialists();
      generator := GenStarting;
      Charge(StallOutlay(cfg));
    }

    // ---- Customer ----

    /** totalCustomers.update(), inSystem.insert and waitingForMechanic.insert. */
    method JoinLine(c: nat)
      modifies this
      ensures Model() == old(Model()).(totalCustomers := old(totalCustomers) + 1,
                                       inSystem := old(inSystem) + [c],
                                       waitingForMechanic := old(waitingForMechanic) + [c])
    {
      totalCustomers := totalCustomers + 1;
      inSystem := inSystem + [c];
      waitingForMechanic := waitingForMechanic + [c];
    }

    /** idleMechanics.removeFirst() and activate() on that mechanic. */
    method WakeIdleMechanic()
      requires idleMechanics != []
      modifies this
      ensures Model() == old(Model()).(idleMechanics := old(idleMechanics)[1..],
                                       mechanics := ActivateWorker(old(mechanics), old(idleMechanics)[0]))
    {
      var m := idleMechanics[0];
      idleMechanics := idleMechanics[1..];
      mechanics := ActivateWorker(mechanics, m);
    }

    /** idleSpecialists.removeFirst() and activate() on that specialist. */
    method WakeIdleSpecialist()
      requires idleSpecialists != []
      modifies this
      ensures Model() == old(Model()).(idleSpecialists := old(idleSpecialists)[1..],
                                       specialists := ActivateWorker(old(specialists), old(idleSpecialists)[0]))
    {
      var p := idleSpecialists[0];
      idleSpecialists := idleSpecialists[1..];
      specialists := ActivateWorker(specialists, p);
    }

    /** The balk: finished, out of both queues, one more balk and one loss charged. */
    method Balk(c: nat)
      requires c < |customers|
      modifies this
      ensures Model() == old(Model()).(waitingForMechanic := Remove(old(waitingForMechanic), c),
                                       totalBalked := old(totalBalked) + 1,
                                       todaysCost := old(todaysCost) + LossCost(cfg),
                                       inSystem := Remove(old(inSystem), c),
                                       customers := old(customers)[c := old(customers)[c].(finished := true, phase := Departed, outcome := Balked)])
    {
      waitingForMechanic := Remove(waitingForMechanic, c);
      totalBalked := totalBalked + 1;
      Charge(LossCost(cfg));
      Leave(c, Balked);
    }

    /** The body of the customer's `while (!finished)` loop up to its first passivate. */
    method ArrivalBody(c: nat, threshold: int)
      requires c < |customers|
      modifies this
      ensures Model() == CustomerProcess.ArrivalBody(cfg, old(Model()), c, threshold)
    {
      JoinLine(c);
      if idleMechanics != [] {
        WakeIdleMechanic();
        SetPhase(c, WaitingMechanic);
      } else if CustomerProcess.Balks(threshold, |waitingForMechanic| - 1) {
        Balk(c);
      } else {
        SetPhase(c, WaitingMechanic);
      }
    }

    /** The customer's first segment, when the Generator has activated it. */
    method CustomerArrives(c: nat, now: real, threshold: int)
      requires c < |customers|
      modifies this
      ensures Model() == CustomerProcess.Arrive(cfg, old(Model()), c, now, threshold)
    {
      clock := now;
      ArrivalBody(c, threshold);
    }

    /** Every stall taken: out of the specialist line, lost, one loss charged. */
    method LoseToFullStalls(c: nat)
      requires c < |customers|
      modifies this
      ensures Model() == old(Model()).(waitingForSpecialist := Remove(old(waitingForSpecialist), c),
                                       totalLost := old(totalLost) + 1,
                                       todaysCost := old(todaysCost) + LossCost(cfg),
                                       inSystem := Remove(old(inSystem), c),
                                       customers := old(customers)[c := old(customers)[c].(finished := true, phase := Departed, outcome := Lost)])
    {
      waitingForSpecialist := Remove(waitingForSpecialist, c);
      RecordLoss();
      Leave(c, Lost);
    }

    /** stallsInUse.update(1), waking an idle specialist if there is one; the customer then passivates. */
    method ClaimStall(c: nat)
      requires c < |customers|
      modifies this
      ensures var claimed := old(Model()).(stallsInUse := old(stallsInUse) + 1,
                                           customers := old(customers)[c := old(customers)[c].(phase := WaitingSpecialist)]);
              Model() == if claimed.idleSpecialists != [] then
                           claimed.(idleSpecialists := claimed.idleSpecialists[1..],
                                    specialists := ActivateWorker(claimed.specialists, claimed.idleSpecialists[0]))
                         else claimed
    {
      stallsInUse := stallsInUse + 1;
      SetPhase(c, WaitingSpecialist);
      if idleSpecialists != [] {
        WakeIdleSpecialist();
      }
    }

    /** The customer's segment after its mechanic reactivates it. */
    method CustomerBackFromMechanic(c: nat, now: real)
      requires c < |customers|
      modifies this
      ensures Model() == CustomerProcess.BackFromMechanic(cfg, old(Model()), c, now)
    {
      clock := now;
      if customers[c].finished {
        inSystem := Remove(inSystem, c);
        SetPhase(c, Departed);
      } else if stallsInUse >= cfg.numStalls {
        LoseToFullStalls(c);
      } else {
        ClaimStall(c);
      }
    }

    /** The customer's segment after its specialist reactivates it: the loop test. */
    method CustomerBackFromSpecialist(c: nat, now: real, threshold: int)
      requires c < |customers|
      modifies this
      ensures Model() == CustomerProcess.BackFromSpecialist(cfg, old(Model()), c, now, threshold)
    {
      clock := now;
      if customers[c].finished {
        SetPhase(c, Departed);
      } else {
        ArrivalBody(c, threshold);
      }
    }

    // ---- Mechanic ----

    /** The mechanic's loop test: go idle, or take the head of the line and hold. */
    method MechanicSeek(m: nat, now: real, fixTime: real)
      requires m < |mechanics|
      modifies this
      ensures Model() == MechanicProcess.Seek(old(Model()), m, now, fixTime)
    {
      if waitingForMechanic == [] {
        idleMechanics := Enlist(idleMechanics, m);
        mechanics := mechanics[m := Passive];
      } else {
        var c := waitingForMechanic[0];
        waitingForMechanic := waitingForMechanic[1..];
        mechanics := mechanics[m := Holding(c, now + fixTime)];
      }
    }

    /** The scheduler hands the processor to the mechanic at `now`. */
    method RunMechanic(m: nat, now: real)
      requires m < |mechanics|
      modifies this
      ensures Model() == old(Model()).(clock := now, mechanics := old(mechanics)[m := Running])
    {
      clock := now;
      mechanics := mechanics[m := Running];
    }

    /** The mechanic's first segment: its salary, then the loop test. */
    method MechanicStarts(m: nat, now: real, fixTime: real)
      requires m < |mechanics|
      modifies this
      ensures Model() == MechanicProcess.Start(cfg, old(Model()), m, now, fixTime)
    {
      RunMechanic(m, now);
      Charge(cfg.mechanicSalary);
      MechanicSeek(m, now, fixTime);
    }

    /** The mechanic's segment after a customer wakes it from the idle queue. */
    method MechanicResumes(m: nat, now: real, fixTime: real)
      requires m < |mechanics|
      modifies this
      ensures Model() == MechanicProcess.Resume(old(Model()), m, now, fixTime)
    {
      RunMechanic(m, now);
      MechanicSeek(m, now, fixTime);
    }

    /** The three outcomes of a repair for the customer `c`. */
    method RepairOutcome(c: nat, now: real, referred: bool)
      requires c < |customers|
      modifies this
      ensures var rec := old(customers)[c];
              Model() == match MechanicProcess.AfterRepair(referred, now - rec.arrivalTime)
                         case LostToCompetitor =>
                           old(Model()).(customers := old(customers)[c := rec.(finished := true, outcome := Lost)],
                                         totalLost := old(totalLost) + 1,
                                         todaysCost := old(todaysCost) + LossCost(cfg))
                         case SentToSpecialist =>
                           old(Model()).(waitingForSpecialist := old(waitingForSpecialist) + [c])
                         case FixedByMechanic =>
                           old(Model()).(customers := old(customers)[c := rec.(finished := true, outcome := Fixed)],
                                         fullyFixed := old(fullyFixed) + 1,
                                         responseTimes := old(responseTimes) + [now - rec.arrivalTime])
    {
      match MechanicProcess.AfterRepair(referred, now - customers[c].arrivalTime)
      case LostToCompetitor =>
        RecordLoss();
        Close(c, Lost);
      case SentToSpecialist =>
        waitingForSpecialist := waitingForSpecialist + [c];
      case FixedByMechanic =>
        RecordFix(c, now);
        Close(c, Fixed);
    }

    /** The mechanic's bookkeeping after the hold, before its loop test. */
    method MechanicConcludes(m: nat, now: real, referred: bool)
      requires m < |mechanics| && mechanics[m].Holding? && mechanics[m].customer < |customers|
      modifies this
      ensures Model() == MechanicProcess.Conclude(cfg, old(Model()), m, now, referred)
    {
      var c := mechanics[m].customer;
      RunMechanic(m, now);
      RepairOutcome(c, now, referred);
      Reactivate(c);
      Charge(cfg.mechanicCommission);
    }

    /** The mechanic's segment at the end of a repair. */
    method MechanicFinishes(m: nat, now: real, referred: bool, fixTime: real)
      requires m < |mechanics| && mechanics[m].Holding? && mechanics[m].customer < |customers|
      modifies this
      ensures Model() == MechanicProcess.FinishRepair(cfg, old(Model()), m, now, referred, fixTime)
    {
      MechanicConcludes(m, now, referred);
      MechanicSeek(m, now, fixTime);
    }

    // ---- Specialist ----

    /** The specialist's loop test: go idle, or take the head of the line and hold. */
    method SpecialistSeek(p: nat, now: real, fixTime: real)
      requires p < |specialists|
      modifies this
      ensures Model() == SpecialistProcess.Seek(old(Model()), p, now, fixTime)
    {
      if waitingForSpecialist == [] {
        idleSpecialists := Enlist(idleSpecialists, p);
        specialists := specialists[p := Passive];
      } else {
        var c := waitingForSpecialist[0];
        waitingForSpecialist := waitingForSpecialist[1..];
        specialists := specialists[p := Holding(c, now + fixTime)];
      }
    }

    /** The scheduler hands the processor to the specialist at `now`. */
    method RunSpecialist(p: nat, now: real)
      requires p < |specialists|
      modifies this
      ensures Model() == old(Model()).(clock := now, specialists := old(specialists)[p := Running])
    {
      clock := now;
      specialists := specialists[p := Running];
    }

    /** The specialist's first segment: its salary, then the loop test. */
    method SpecialistStarts(p: nat, now: real, fixTime: real)
      requires p < |specialists|
      modifies this
      ensures Model() == SpecialistProcess.Start(cfg, old(Model()), p, now, fixTime)
    {
      RunSpecialist(p, now);
      Charge(cfg.specialistSalary);
      SpecialistSeek(p, now, fixTime);
    }

    /** The specialist's segment after a customer wakes it from the idle queue. */
    method SpecialistResumes(p: nat, now: real, fixTime: real)
      requires p < |specialists|
      modifies this
      ensures Model() == SpecialistProcess.Resume(old(Model()), p, now, fixTime)
    {
      RunSpecialist(p, now);
      SpecialistSeek(p, now, fixTime);
    }

    /** inSystem.remove and stallsInUse.update(-1). */
    method ReleaseStall(c: nat)
      modifies this
      ensures Model() == old(Model()).(inSystem := Remove(old(inSystem), c), stallsInUse := old(stallsInUse) - 1)
    {
      inSystem := Remove(inSystem, c);
      stallsInUse := stallsInUse - 1;
    }

    /** The specialist's bookkeeping after the hold, before its loop test. */
    method SpecialistConcludes(p: nat, now: real)
      requires p < |specialists| && specialists[p].Holding? && specialists[p].customer < |customers|
      modifies this
      ensures Model() == SpecialistProcess.Conclude(cfg, old(Model()), p, now)
    {
      var c := specialists[p].customer;
      RunSpecialist(p, now);
      RecordFix(c, now);
      Close(c, Fixed);
      ReleaseStall(c);
      Reactivate(c);
      Charge(cfg.specialistCommission);
    }

    /** The specialist's segment at the end of a repair. */
    method SpecialistFinishes(p: nat, now: real, fixTime: real)
      requires p < |specialists| && specialists[p].Holding? && specialists[p].customer < |customers|
      modifies this
      ensures Model() == SpecialistProcess.FinishRepair(cfg, old(Model()), p, now, fixTime)
    {
      SpecialistConcludes(p, now);
      SpecialistSeek(p, now, fixTime);
    }

    // ---- Generator ----

    /** The Generator's loop test: hold for the next gap while the shop is open, or end. */
    method GeneratorLoop(now: real, sample: real)
      modifies this
      ensures Model() == GeneratorProcess.Loop(cfg, old(Model()), now, sample)
    {
      if now < cfg.operationHours as real {
        generator := GenHolding(now + GeneratorProcess.Gap(now, sample));
      } else {
        generator := GenDone;
      }
    }

    /** The scheduler hands the processor to the Generator at `now`. */
    method RunGenerator(now: real)
      modifies this
      ensures Model() == old(Model()).(clock := now, generator := GenRunning)
    {
      clock := now;
      generator := GenRunning;
    }

    /** The Generator's first segment. */
    method GeneratorStarts(now: real, sample: real)
      modifies this
      ensures Model() == GeneratorProcess.Start(cfg, old(Model()), now, sample)
    {
      RunGenerator(now);
      GeneratorLoop(now, sample);
    }

    /** The Generator's segment after its hold: one new customer, then the loop test. */
    method GeneratorResumes(now: real, sample: real)
      modifies this
      ensures Model() == GeneratorProcess.Resume(cfg, old(Model()), now, sample)
    {
      RunGenerator(now);
      customers := customers + [GeneratorProcess.Newcomer(now)];
      GeneratorLoop(now, sample);
    }

    // ---- The scheduler's choice ----

    /** Resume the customer a customer step names. */
    method CustomerStep(step: Step)
      requires Enabled(Model(), step)
      requires step.CustomerArrives? || step.CustomerBackFromMechanic? || step.CustomerBackFromSpecialist?
      modifies this
      ensures Model() == Apply(cfg, old(Model()), step)
    {
      match step
      case CustomerArrives(c, now, threshold) => CustomerArrives(c, now, threshold);
      case CustomerBackFromMechanic(c, now) => CustomerBackFromMechanic(c, now);
      case CustomerBackFromSpecialist(c, now, threshold) => CustomerBackFromSpecialist(c, now, threshold);
    }

    /** Resume the mechanic a mechanic step names. */
    method MechanicStep(step: Step)
      requires Enabled(Model(), step)
      requires step.MechanicStarts? || step.MechanicResumes? || step.MechanicFinishes?
      modifies this
      ensures Model() == Apply(cfg, old(Model()), step)
    {
      match step
      case MechanicStarts(m, now, fixTime) => MechanicStarts(m, now, fixTime);
      case MechanicResumes(m, now, fixTime) => MechanicResumes(m, now, fixTime);
      case MechanicFinishes(m, now, referred, fixTime) => MechanicFinishes(m, now, referred, fixTime);
    }

    /** Resume the specialist a specialist step names. */
    method SpecialistStep(step: Step)
      requires Enabled(Model(), step) && RunsSpecialist(step)
      modifies this
      ensures Model() == Apply(cfg, old(Model()), step)
    {
      match step
      case SpecialistStarts(p, now, fixTime) => SpecialistStarts(p, now, fixTime);
      case SpecialistResumes(p, now, fixTime) => SpecialistResumes(p, now, fixTime);
      case SpecialistFinishes(p, now, fixTime) => SpecialistFinishes(p, now, fixTime);
    }

    /** Resume the Generator. */
    method GeneratorStep(step: Step)
      requires Enabled(Model(), step) && (step.GeneratorStarts? || step.GeneratorResumes?)
      modifies this
      ensures Model() == Apply(cfg, old(Model()), step)
    {
      match step
      case GeneratorStarts(now, sample) => GeneratorStarts(now, sample);
      case GeneratorResumes(now, sample) => GeneratorResumes(now, sample);
    }

    /** Resume the process `step` names: the new state is the one `Apply` describes. */
    method Dispatch(step: Step)
      requires Enabled(Model(), step)
      modifies this
      ensures Model() == Apply(cfg, old(Model()), step)
    {
      if step.CustomerArrives? || step.CustomerBackFromMechanic? || step.CustomerBackFromSpecialist? {
        CustomerStep(step);
      } else if step.MechanicStarts? || step.MechanicResumes? || step.MechanicFinishes? {
        MechanicStep(step);
      } else if RunsSpecialist(step) {
        SpecialistStep(step);
      } else {
        GeneratorStep(step);
      }
    }

    /**
     * One scheduler decision: resume the process `step` names.  `Wf` is
     * kept under any choice, `Ordered` under a settled one, and the cost
     * does not decrease.
     */
    method Resume(step: Step)
      requires Enabled(Model(), step)
      modifies this
      ensures Model() == Apply(cfg, old(Model()), step)
      ensures Wf(cfg, old(Model())) ==> Wf(cfg, Model())
      ensures Ordered(cfg, old(Model())) && Settled(old(Model()), step) ==> Ordered(cfg, Model())
      ensures CostsNonNegative(cfg) ==> todaysCost >= old(todaysCost)
    {
      ghost var s := Model();
      Dispatch(step);
      if Wf(cfg, s) {
        WfProofs.StepPreservesWf(cfg, s, step);
      }
      if Ordered(cfg, s) && Settled(s, step) {
        OrderedProofs.StepPreservesOrdered(cfg, s, step);
      }
      if CostsNonNegative(cfg) {
        Runs.StepCostMonotone(cfg, s, step);
      }
    }
  }
}
