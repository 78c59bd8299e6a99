/**
 * `Wf` is kept by every segment, whatever order the scheduler runs them
 * in.  Each segment's effect on each part of `Wf` is proved from only the
 * parts it depends on.
 */
module WfProofs {
  import opened Queues
  import opened ShopState
  import opened Scheduler
  import opened Invariants
  import CustomerProcess
  import MechanicProcess
  import SpecialistProcess
  import GeneratorProcess

  /** Waking a customer never takes it back to the mechanic. */
  lemma AwakenKeepsPastMechanic(r: CustomerRec)
    requires PastMechanic(r)
    ensures PastMechanic(Awaken(r))
  {
  }

  // ---- the loop test of a mechanic ----

  lemma MechanicSeekLine(s: State, m: nat, now: real, fixTime: real)
    requires MechanicLineSane(s) && MechanicsHoldSane(s) && m < |s.mechanics|
    ensures MechanicLineSane(MechanicProcess.Seek(s, m, now, fixTime))
    ensures MechanicsHoldSane(MechanicProcess.Seek(s, m, now, fixTime))
  {
    var r := MechanicProcess.Seek(s, m, now, fixTime);
    if s.waitingForMechanic != [] {
      var q := s.waitingForMechanic;
      DistinctTail(q);
      assert forall c :: c in q[1..] ==> c in q;
      assert r.mechanics[m].customer == q[0] && q[0] in q;
    }
  }

  lemma MechanicSeekWf(cfg: Config, s: State, m: nat, now: real, fixTime: real)
    requires Wf(cfg, s) && m < |s.mechanics|
    ensures Wf(cfg, MechanicProcess.Seek(s, m, now, fixTime))
  {
    MechanicSeekLine(s, m, now, fixTime);
  }

  // ---- the loop test of a specialist ----

  lemma SpecialistSeekSide(s: State, p: nat, now: real, fixTime: real)
    requires SpecialistSideSane(s) && p < |s.specialists|
    ensures SpecialistSideSane(SpecialistProcess.Seek(s, p, now, fixTime))
  {
    var r := SpecialistProcess.Seek(s, p, now, fixTime);
    if s.waitingForSpecialist != [] {
      var q := s.waitingForSpecialist;
      assert forall c :: c in q[1..] ==> c in q;
      assert r.specialists[p].customer == q[0] && q[0] in q;
    }
  }

  lemma SpecialistSeekWf(cfg: Config, s: State, p: nat, now: real, fixTime: real)
    requires Wf(cfg, s) && p < |s.specialists|
    ensures Wf(cfg, SpecialistProcess.Seek(s, p, now, fixTime))
  {
    SpecialistSeekSide(s, p, now, fixTime);
  }

  // ---- a customer's arrival ----

  lemma ArrivalIdle(cfg: Config, s: State, c: nat, threshold: int)
    requires IdleSane(s) && c < |s.customers|
    ensures IdleSane(CustomerProcess.ArrivalBody(cfg, s, c, threshold))
  {
    if s.idleMechanics != [] {
      DistinctTail(s.idleMechanics);
      assert forall x :: x in s.idleMechanics[1..] ==> x in s.idleMechanics;
    }
  }

  lemma ArrivalLine(cfg: Config, s: State, c: nat, threshold: int)
    requires MechanicLineSane(s) && RecordsSane(s) && c < |s.customers| && s.customers[c].phase == Arriving
    ensures MechanicLineSane(CustomerProcess.ArrivalBody(cfg, s, c, threshold))
  {
    assert c !in s.waitingForMechanic;
    if CustomerProcess.BalksOnArrival(s, threshold) {
      RemoveAppended(s.waitingForMechanic, c);
    } else {
      DistinctAppend(s.waitingForMechanic, c);
    }
  }

  lemma ArrivalHold(cfg: Config, s: State, c: nat, threshold: int)
    requires MechanicsHoldSane(s) && MechanicLineSane(s) && c < |s.customers| && s.customers[c].phase == Arriving
    ensures MechanicsHoldSane(CustomerProcess.ArrivalBody(cfg, s, c, threshold))
  {
    var r := CustomerProcess.ArrivalBody(cfg, s, c, threshold);
    assert forall m :: 0 <= m < |r.mechanics| && r.mechanics[m].Holding? ==> r.mechanics[m] == s.mechanics[m];
    assert forall x :: 0 <= x < |s.customers| && WaitsForMechanic(s.customers[x]) ==> x != c && r.customers[x] == s.customers[x];
    if CustomerProcess.BalksOnArrival(s, threshold) {
      RemoveAppended(s.waitingForMechanic, c);
    }
  }

  lemma ArrivalRest(cfg: Config, s: State, c: nat, threshold: int)
    requires SpecialistSideSane(s) && RecordsSane(s) && c < |s.customers| && s.customers[c].phase == Arriving
    ensures SpecialistSideSane(CustomerProcess.ArrivalBody(cfg, s, c, threshold))
    ensures RecordsSane(CustomerProcess.ArrivalBody(cfg, s, c, threshold))
  {
    var r := CustomerProcess.ArrivalBody(cfg, s, c, threshold);
    assert forall x :: 0 <= x < |s.customers| && PastMechanic(s.customers[x]) ==> x != c && r.customers[x] == s.customers[x];
    assert r.waitingForSpecialist == s.waitingForSpecialist && r.specialists == s.specialists;
    assert r.customers[c].arrivalTime == s.customers[c].arrivalTime && r.clock == s.clock;
    assert r.customers[c].phase != Arriving && r.customers[c].phase != BackFromSpecialist;
  }

  lemma ArrivalWf(cfg: Config, s: State, c: nat, threshold: int)
    requires Wf(cfg, s) && c < |s.customers| && s.customers[c].phase == Arriving
    ensures Wf(cfg, CustomerProcess.ArrivalBody(cfg, s, c, threshold))
  {
    ArrivalIdle(cfg, s, c, threshold);
    ArrivalLine(cfg, s, c, threshold);
    ArrivalHold(cfg, s, c, threshold);
    ArrivalRest(cfg, s, c, threshold);
  }

  // ---- a customer back from the mechanic ----

  lemma BackFromMechanicIdle(cfg: Config, s: State, c: nat, now: real)
    requires IdleSane(s) && c < |s.customers|
    ensures IdleSane(CustomerProcess.BackFromMechanic(cfg, s, c, now))
  {
    var r := CustomerProcess.BackFromMechanic(cfg, s, c, now);
    if r.idleSpecialists != s.idleSpecialists {
      DistinctTail(s.idleSpecialists);
      assert forall x :: x in s.idleSpecialists[1..] ==> x in s.idleSpecialists;
    }
  }

  lemma BackFromMechanicLine(cfg: Config, s: State, c: nat, now: real)
    requires MechanicLineSane(s) && MechanicsHoldSane(s) && c < |s.customers| && s.customers[c].phase == BackFromMechanic
    ensures MechanicLineSane(CustomerProcess.BackFromMechanic(cfg, s, c, now))
    ensures MechanicsHoldSane(CustomerProcess.BackFromMechanic(cfg, s, c, now))
  {
    var r := CustomerProcess.BackFromMechanic(cfg, s, c, now);
    assert forall x :: 0 <= x < |s.customers| && WaitsForMechanic(s.customers[x]) ==> x != c && r.customers[x] == s.customers[x];
    assert r.mechanics == s.mechanics && r.waitingForMechanic == s.waitingForMechanic;
  }

  lemma BackFromMechanicSide(cfg: Config, s: State, c: nat, now: real)
    requires SpecialistSideSane(s) && c < |s.customers| && s.customers[c].phase == BackFromMechanic
    ensures SpecialistSideSane(CustomerProcess.BackFromMechanic(cfg, s, c, now))
  {
    var r := CustomerProcess.BackFromMechanic(cfg, s, c, now);
    assert forall x :: 0 <= x < |s.customers| ==> PastMechanic(r.customers[x]) == PastMechanic(s.customers[x]);
    if !s.customers[c].finished && s.stallsInUse >= cfg.numStalls {
      RemoveMembers(s.waitingForSpecialist, c);
      assert forall x :: x in r.waitingForSpecialist ==> x in s.waitingForSpecialist;
      assert r.specialists == s.specialists;
    } else {
      assert r.waitingForSpecialist == s.waitingForSpecialist;
      forall q | 0 <= q < |r.specialists| && r.specialists[q].Holding?
        ensures r.specialists[q] == s.specialists[q]
      {
      }
    }
  }

  lemma BackFromMechanicRecords(cfg: Config, s: State, c: nat, now: real)
    requires RecordsSane(s) && c < |s.customers| && s.customers[c].phase == BackFromMechanic && now >= s.clock
    ensures RecordsSane(CustomerProcess.BackFromMechanic(cfg, s, c, now))
  {
  }

  lemma BackFromMechanicWf(cfg: Config, s: State, c: nat, now: real)
    requires Wf(cfg, s) && c < |s.customers| && s.customers[c].phase == BackFromMechanic && now >= s.clock
    ensures Wf(cfg, CustomerProcess.BackFromMechanic(cfg, s, c, now))
  {
    BackFromMechanicIdle(cfg, s, c, now);
    BackFromMechanicLine(cfg, s, c, now);
    BackFromMechanicSide(cfg, s, c, now);
    BackFromMechanicRecords(cfg, s, c, now);
  }

  // ---- a customer back from the specialist ----

  lemma BackFromSpecialistWf(cfg: Config, s: State, c: nat, now: real, threshold: int)
    requires Wf(cfg, s) && c < |s.customers| && s.customers[c].phase == BackFromSpecialist && now >= s.clock
    ensures Wf(cfg, CustomerProcess.BackFromSpecialist(cfg, s, c, now, threshold))
  {
  }

  // ---- the end of a mechanic's repair ----

  lemma MechanicConcludeLine(cfg: Config, s: State, m: nat, now: real, referred: bool)
    requires MechanicLineSane(s) && MechanicsHoldSane(s) && m < |s.mechanics| && s.mechanics[m].Holding?
    ensures MechanicProcess.Served(s, m) < |s.customers|
    ensures MechanicLineSane(MechanicProcess.Conclude(cfg, s, m, now, referred))
    ensures MechanicsHoldSane(MechanicProcess.Conclude(cfg, s, m, now, referred))
  {
  }

  lemma MechanicConcludeRest(cfg: Config, s: State, m: nat, now: real, referred: bool)
    requires SpecialistSideSane(s) && RecordsSane(s) && ResponsesSane(s) && now >= s.clock
    requires m < |s.mechanics| && s.mechanics[m].Holding? && MechanicProcess.Served(s, m) < |s.customers|
    requires WaitsForMechanic(s.customers[MechanicProcess.Served(s, m)])
    ensures SpecialistSideSane(MechanicProcess.Conclude(cfg, s, m, now, referred))
    ensures RecordsSane(MechanicProcess.Conclude(cfg, s, m, now, referred))
    ensures ResponsesSane(MechanicProcess.Conclude(cfg, s, m, now, referred))
  {
    var c := MechanicProcess.Served(s, m);
    var r := MechanicProcess.Conclude(cfg, s, m, now, referred);
    assert forall x :: x in r.waitingForSpecialist ==> x in s.waitingForSpecialist || x == c;
    assert s.customers[c].arrivalTime <= s.clock;
  }

  lemma MechanicConcludeWf(cfg: Config, s: State, m: nat, now: real, referred: bool)
    requires Wf(cfg, s) && m < |s.mechanics| && s.mechanics[m].Holding? && now >= s.clock
    ensures MechanicProcess.Served(s, m) < |s.customers|
    ensures Wf(cfg, MechanicProcess.Conclude(cfg, s, m, now, referred))
  {
    MechanicConcludeLine(cfg, s, m, now, referred);
    MechanicConcludeRest(cfg, s, m, now, referred);
  }

  // ---- the end of a specialist's repair ----

  lemma SpecialistConcludeLine(cfg: Config, s: State, p: nat, now: real)
    requires MechanicLineSane(s) && SpecialistSideSane(s)
    requires p < |s.specialists| && s.specialists[p].Holding?
    ensures MechanicLineSane(SpecialistProcess.Conclude(cfg, s, p, now))
  {
    assert SpecialistProcess.Served(s, p) !in s.waitingForMechanic;
  }

  lemma SpecialistConcludeHold(cfg: Config, s: State, p: nat, now: real)
    requires MechanicsHoldSane(s) && SpecialistSideSane(s)
    requires p < |s.specialists| && s.specialists[p].Holding?
    ensures MechanicsHoldSane(SpecialistProcess.Conclude(cfg, s, p, now))
  {
    var c := SpecialistProcess.Served(s, p);
    var r := SpecialistProcess.Conclude(cfg, s, p, now);
    assert forall x :: 0 <= x < |s.customers| && WaitsForMechanic(s.customers[x]) ==> x != c && r.customers[x] == s.customers[x];
    assert r.mechanics == s.mechanics && r.waitingForMechanic == s.waitingForMechanic;
  }

  lemma SpecialistConcludeSide(cfg: Config, s: State, p: nat, now: real)
    requires SpecialistSideSane(s) && p < |s.specialists| && s.specialists[p].Holding?
    ensures SpecialistSideSane(SpecialistProcess.Conclude(cfg, s, p, now))
  {
    var c := SpecialistProcess.Served(s, p);
    var r := SpecialistProcess.Conclude(cfg, s, p, now);
    assert PastMechanic(r.customers[c]) by {
      AwakenKeepsPastMechanic(s.customers[c]);
    }
    assert forall x :: 0 <= x < |s.customers| && PastMechanic(s.customers[x]) ==> PastMechanic(r.customers[x]);
  }

  lemma SpecialistConcludeRecords(cfg: Config, s: State, p: nat, now: real)
    requires SpecialistSideSane(s) && RecordsSane(s) && now >= s.clock
    requires p < |s.specialists| && s.specialists[p].Holding?
    ensures RecordsSane(SpecialistProcess.Conclude(cfg, s, p, now))
  {
    var c := SpecialistProcess.Served(s, p);
    var r := SpecialistProcess.Conclude(cfg, s, p, now);
    assert r.customers[c].arrivalTime == s.customers[c].arrivalTime && r.customers[c].finished;
    assert r.customers[c].phase != Arriving by {
      AwakenKeepsPastMechanic(s.customers[c]);
    }
    assert r.clock == now;
  }

  lemma SpecialistConcludeResponses(cfg: Config, s: State, p: nat, now: real)
    requires SpecialistSideSane(s) && RecordsSane(s) && ResponsesSane(s) && now >= s.clock
    requires p < |s.specialists| && s.specialists[p].Holding?
    ensures ResponsesSane(SpecialistProcess.Conclude(cfg, s, p, now))
  {
    var c := SpecialistProcess.Served(s, p);
    assert s.customers[c].arrivalTime <= s.clock;
  }

  lemma SpecialistConcludeWf(cfg: Config, s: State, p: nat, now: real)
    requires Wf(cfg, s) && p < |s.specialists| && s.specialists[p].Holding? && now >= s.clock
    ensures SpecialistProcess.Served(s, p) < |s.customers|
    ensures Wf(cfg, SpecialistProcess.Conclude(cfg, s, p, now))
  {
    SpecialistConcludeLine(cfg, s, p, now);
    SpecialistConcludeHold(cfg, s, p, now);
    SpecialistConcludeSide(cfg, s, p, now);
    SpecialistConcludeRecords(cfg, s, p, now);
    SpecialistConcludeResponses(cfg, s, p, now);
  }

  // ---- the Generator ----

  lemma GeneratorResumeWf(cfg: Config, s: State, now: real, sample: real)
    requires Wf(cfg, s) && now >= s.clock
    ensures Wf(cfg, GeneratorProcess.Resume(cfg, s, now, sample))
  {
    var r := GeneratorProcess.Resume(cfg, s, now, sample);
    assert forall c :: 0 <= c < |s.customers| ==> r.customers[c] == s.customers[c];
  }

  // ---- every step ----

  lemma CustomerStepWf(cfg: Config, s: State, step: Step)
    requires Wf(cfg, s) && Enabled(s, step)
    requires step.CustomerArrives? || step.CustomerBackFromMechanic? || step.CustomerBackFromSpecialist?
    ensures Wf(cfg, Apply(cfg, s, step))
  {
    match step
    case CustomerArrives(c, now, threshold) =>
      ArrivalWf(cfg, s.(clock := now), c, threshold);
    case CustomerBackFromMechanic(c, now) =>
      BackFromMechanicWf(cfg, s, c, now);
    case CustomerBackFromSpecialist(c, now, threshold) =>
      BackFromSpecialistWf(cfg, s, c, now, threshold);
  }

  lemma MechanicStartsWf(cfg: Config, s: State, m: nat, now: real, fixTime: real)
    requires Wf(cfg, s) && m < |s.mechanics| && s.mechanics[m] == Starting && now >= s.clock
    ensures Wf(cfg, MechanicProcess.Start(cfg, s, m, now, fixTime))
  {
    var s0 := s.(clock := now, todaysCost := s.todaysCost + cfg.mechanicSalary, mechanics := s.mechanics[m := Running]);
    assert MechanicsHoldSane(s0);
    MechanicSeekWf(cfg, s0, m, now, fixTime);
  }

  lemma MechanicResumesWf(cfg: Config, s: State, m: nat, now: real, fixTime: real)
    requires Wf(cfg, s) && m < |s.mechanics| && s.mechanics[m] == Activated && now >= s.clock
    ensures Wf(cfg, MechanicProcess.Resume(s, m, now, fixTime))
  {
    var s0 := s.(clock := now, mechanics := s.mechanics[m := Running]);
    assert MechanicsHoldSane(s0);
    MechanicSeekWf(cfg, s0, m, now, fixTime);
  }

  lemma MechanicFinishesWf(cfg: Config, s: State, m: nat, now: real, referred: bool, fixTime: real)
    requires Wf(cfg, s) && m < |s.mechanics| && s.mechanics[m].Holding? && now >= s.clock
    requires MechanicProcess.Served(s, m) < |s.customers|
    ensures Wf(cfg, MechanicProcess.FinishRepair(cfg, s, m, now, referred, fixTime))
  {
    MechanicConcludeWf(cfg, s, m, now, referred);
    MechanicSeekWf(cfg, MechanicProcess.Conclude(cfg, s, m, now, referred), m, now, fixTime);
  }

  lemma MechanicStepWf(cfg: Config, s: State, step: Step)
    requires Wf(cfg, s) && Enabled(s, step)
    requires step.MechanicStarts? || step.MechanicResumes? || step.MechanicFinishes?
    ensures Wf(cfg, Apply(cfg, s, step))
  {
    match step
    case MechanicStarts(m, now, fixTime) =>
      MechanicStartsWf(cfg, s, m, now, fixTime);
    case MechanicResumes(m, now, fixTime) =>
      MechanicResumesWf(cfg, s, m, now, fixTime);
    case MechanicFinishes(m, now, referred, fixTime) =>
      MechanicFinishesWf(cfg, s, m, now, referred, fixTime);
  }

  lemma SpecialistStartsWf(cfg: Config, s: State, p: nat, now: real, fixTime: real)
    requires Wf(cfg, s) && p < |s.specialists| && s.specialists[p] == Starting && now >= s.clock
    ensures Wf(cfg, SpecialistProcess.Start(cfg, s, p, now, fixTime))
  {
    var s0 := s.(clock := now, todaysCost := s.todaysCost + cfg.specialistSalary, specialists := s.specialists[p := Running]);
    assert SpecialistSideSane(s0);
    SpecialistSeekWf(cfg, s0, p, now, fixTime);
  }

  lemma SpecialistResumesWf(cfg: Config, s: State, p: nat, now: real, fixTime: real)
    requires Wf(cfg, s) && p < |s.specialists| && s.specialists[p] == Activated && now >= s.clock
    ensures Wf(cfg, SpecialistProcess.Resume(s, p, now, fixTime))
  {
    var s0 := s.(clock := now, specialists := s.specialists[p := Running]);
    assert SpecialistSideSane(s0);
    SpecialistSeekWf(cfg, s0, p, now, fixTime);
  }

  lemma SpecialistFinishesWf(cfg: Config, s: State, p: nat, now: real, fixTime: real)
    requires Wf(cfg, s) && p < |s.specialists| && s.specialists[p].Holding? && now >= s.clock
    requires SpecialistProcess.Served(s, p) < |s.customers|
    ensures Wf(cfg, SpecialistProcess.FinishRepair(cfg, s, p, now, fixTime))
  {
    SpecialistConcludeWf(cfg, s, p, now);
    SpecialistSeekWf(cfg, SpecialistProcess.Conclude(cfg, s, p, now), p, now, fixTime);
  }

  lemma SpecialistStepWf(cfg: Config, s: State, step: Step)
    requires Wf(cfg, s) && Enabled(s, step) && RunsSpecialist(step)
    ensures Wf(cfg, Apply(cfg, s, step))
  {
    match step
    case SpecialistStarts(p, now, fixTime) =>
      SpecialistStartsWf(cfg, s, p, now, fixTime);
    case SpecialistResumes(p, now, fixTime) =>
      SpecialistResumesWf(cfg, s, p, now, fixTime);
    case SpecialistFinishes(p, now, fixTime) =>
      SpecialistFinishesWf(cfg, s, p, now, fixTime);
  }

  /**
   * Every segment, run in any order, keeps `Wf`: in particular at most
   * NUM_STALLS stalls are ever in use and every recorded response time is
   * non-negative.
   */
  lemma StepPreservesWf(cfg: Config, s: State, step: Step)
    requires Wf(cfg, s) && Enabled(s, step)
    ensures Wf(cfg, Apply(cfg, s, step))
  {
    if step.CustomerArrives? || step.CustomerBackFromMechanic? || step.CustomerBackFromSpecialist? {
      CustomerStepWf(cfg, s, step);
    } else if step.MechanicStarts? || step.MechanicResumes? || step.MechanicFinishes? {
      MechanicStepWf(cfg, s, step);
    } else if RunsSpecialist(step) {
      SpecialistStepWf(cfg, s, step);
    } else if step.GeneratorResumes? {
      GeneratorResumeWf(cfg, s, step.now, step.sample);
    }
  }
}
