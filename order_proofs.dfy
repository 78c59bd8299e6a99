/**
 * `Ordered` is kept by every settled segment: the stall counter always
 * equals the number of customers holding a stall, inSystem lists exactly
 * the customers in the shop, and every customer who has arrived is either
 * still open or recorded by exactly one of the balked, lost and fixed
 * counters.
 */
module OrderedProofs {
  import opened Queues
  import opened ShopState
  import opened Scheduler
  import opened Invariants
  import WfProofs
  import CustomerProcess
  import MechanicProcess
  import SpecialistProcess
  import GeneratorProcess

  ghost predicate Holders(s: State) {
    SpecialistLineSane(s) && SpecialistsHoldSane(s)
  }

  ghost predicate Tallies(s: State) {
    OutcomesSane(s) && StallsCounted(s) && Conserved(s)
  }

  // ---- the loop tests ----

  lemma MechanicSeekAccounted(s: State, m: nat, now: real, fixTime: real)
    requires Accounted(s) && m < |s.mechanics|
    ensures Accounted(MechanicProcess.Seek(s, m, now, fixTime))
  {
    var r := MechanicProcess.Seek(s, m, now, fixTime);
    assert r.customers == s.customers && r.waitingForSpecialist == s.waitingForSpecialist;
    assert r.specialists == s.specialists && r.inSystem == s.inSystem;
  }

  /** A specialist that finds only stall holders in its line hands a stall holder to itself. */
  lemma SpecialistSeekHolders(s: State, p: nat, now: real, fixTime: real)
    requires Holders(s) && SpecialistLineClaimed(s) && p < |s.specialists|
    ensures Holders(SpecialistProcess.Seek(s, p, now, fixTime))
  {
    var r := SpecialistProcess.Seek(s, p, now, fixTime);
    if s.waitingForSpecialist != [] {
      var q := s.waitingForSpecialist;
      DistinctTail(q);
      assert q[0] in q;
      assert forall x :: x in q[1..] ==> x in q;
      assert InStall(s.customers[q[0]]);
      assert r.customers == s.customers;
    }
  }

  lemma SpecialistSeekAccounted(s: State, p: nat, now: real, fixTime: real)
    requires Accounted(s) && SpecialistLineClaimed(s) && p < |s.specialists|
    ensures Accounted(SpecialistProcess.Seek(s, p, now, fixTime))
  {
    SpecialistSeekHolders(s, p, now, fixTime);
    var r := SpecialistProcess.Seek(s, p, now, fixTime);
    assert r.customers == s.customers && r.inSystem == s.inSystem;
  }

  // ---- a customer's arrival ----

  lemma ArrivalHolders(cfg: Config, s: State, c: nat, threshold: int)
    requires Holders(s) && c < |s.customers| && s.customers[c].phase == Arriving
    ensures Holders(CustomerProcess.ArrivalBody(cfg, s, c, threshold))
  {
    var r := CustomerProcess.ArrivalBody(cfg, s, c, threshold);
    assert forall x :: 0 <= x < |s.customers| && Referred(s.customers[x]) ==> x != c && r.customers[x] == s.customers[x];
    assert r.waitingForSpecialist == s.waitingForSpecialist && r.specialists == s.specialists;
  }

  lemma ArrivalPresence(cfg: Config, s: State, c: nat, threshold: int)
    requires PresenceExact(s) && c < |s.customers| && s.customers[c].phase == Arriving
    ensures PresenceExact(CustomerProcess.ArrivalBody(cfg, s, c, threshold))
  {
    var r := CustomerProcess.ArrivalBody(cfg, s, c, threshold);
    assert c !in s.inSystem;
    assert forall x :: 0 <= x < |s.customers| && x != c ==> r.customers[x] == s.customers[x];
    if CustomerProcess.BalksOnArrival(s, threshold) {
      RemoveAppended(s.inSystem, c);
      assert r.inSystem == s.inSystem;
      assert !InShop(r.customers[c]);
      forall x | x in r.inSystem ensures x < |r.customers| && InShop(r.customers[x]) {
        assert x != c;
      }
    } else {
      DistinctAppend(s.inSystem, c);
      assert r.inSystem == s.inSystem + [c];
      assert InShop(r.customers[c]);
      forall x | x in r.inSystem ensures x < |r.customers| && InShop(r.customers[x]) {
        if x != c {
          assert x in s.inSystem;
        }
      }
    }
  }

  lemma ArrivalTallies(cfg: Config, s: State, c: nat, threshold: int)
    requires Tallies(s) && RecordsSane(s) && c < |s.customers| && s.customers[c].phase == Arriving
    ensures Tallies(CustomerProcess.ArrivalBody(cfg, s, c, threshold))
  {
    var r := CustomerProcess.ArrivalBody(cfg, s, c, threshold);
    assert r.customers == s.customers[c := r.customers[c]];
    CountUpdate(s.customers, c, r.customers[c], HoldsStall);
    CountUpdate(s.customers, c, r.customers[c], IsOpen);
    assert !s.customers[c].finished && s.customers[c].outcome == Unresolved;
  }

  lemma ArrivalAccounted(cfg: Config, s: State, c: nat, threshold: int)
    requires Ordered(cfg, s) && c < |s.customers| && s.customers[c].phase == Arriving
    ensures Accounted(CustomerProcess.ArrivalBody(cfg, s, c, threshold))
  {
    ArrivalHolders(cfg, s, c, threshold);
    ArrivalPresence(cfg, s, c, threshold);
    ArrivalTallies(cfg, s, c, threshold);
  }

  // ---- a customer back from the mechanic ----

  lemma BackFromMechanicHolders(cfg: Config, s: State, c: nat, now: real)
    requires Holders(s) && c < |s.customers| && s.customers[c].phase == BackFromMechanic
    ensures Holders(CustomerProcess.BackFromMechanic(cfg, s, c, now))
  {
    var r := CustomerProcess.BackFromMechanic(cfg, s, c, now);
    RemoveDistinct(s.waitingForSpecialist, c);
    assert forall x :: 0 <= x < |s.customers| && InStall(s.customers[x]) ==> x != c && r.customers[x] == s.customers[x];
    assert forall x :: 0 <= x < |s.customers| && x != c ==> r.customers[x] == s.customers[x];
    forall q | 0 <= q < |r.specialists| && r.specialists[q].Holding?
      ensures r.specialists[q] == s.specialists[q]
    {
    }
    if c in s.waitingForSpecialist && !s.customers[c].finished && s.stallsInUse < cfg.numStalls {
      assert Referred(s.customers[c]);
      assert Referred(r.customers[c]);
    }
  }

  lemma BackFromMechanicPresence(cfg: Config, s: State, c: nat, now: real)
    requires PresenceExact(s) && c < |s.customers| && s.customers[c].phase == BackFromMechanic
    ensures PresenceExact(CustomerProcess.BackFromMechanic(cfg, s, c, now))
  {
    var r := CustomerProcess.BackFromMechanic(cfg, s, c, now);
    RemoveDistinct(s.inSystem, c);
    assert forall x :: 0 <= x < |s.customers| && x != c ==> r.customers[x] == s.customers[x];
  }

  lemma BackFromMechanicTallies(cfg: Config, s: State, c: nat, now: real)
    requires Tallies(s) && c < |s.customers| && s.customers[c].phase == BackFromMechanic
    ensures Tallies(CustomerProcess.BackFromMechanic(cfg, s, c, now))
  {
    var r := CustomerProcess.BackFromMechanic(cfg, s, c, now);
    var rec := s.customers[c];
    assert r.customers == s.customers[c := r.customers[c]];
    CountUpdate(s.customers, c, r.customers[c], HoldsStall);
    CountUpdate(s.customers, c, r.customers[c], IsOpen);
    assert !HoldsStall(rec);
    if rec.finished {
      assert !IsOpen(rec) && !IsOpen(r.customers[c]) && !HoldsStall(r.customers[c]);
    } else if s.stallsInUse >= cfg.numStalls {
      assert IsOpen(rec) && !IsOpen(r.customers[c]) && !HoldsStall(r.customers[c]);
    } else {
      assert IsOpen(rec) && IsOpen(r.customers[c]) && HoldsStall(r.customers[c]);
    }
    assert forall x :: 0 <= x < |s.customers| && x != c ==> r.customers[x] == s.customers[x];
  }

  lemma BackFromMechanicAccounted(cfg: Config, s: State, c: nat, now: real)
    requires Accounted(s) && c < |s.customers| && s.customers[c].phase == BackFromMechanic
    ensures Accounted(CustomerProcess.BackFromMechanic(cfg, s, c, now))
  {
    BackFromMechanicHolders(cfg, s, c, now);
    BackFromMechanicPresence(cfg, s, c, now);
    BackFromMechanicTallies(cfg, s, c, now);
  }

  // ---- a customer back from the specialist ----

  lemma BackFromSpecialistAccounted(cfg: Config, s: State, c: nat, now: real, threshold: int)
    requires Accounted(s) && RecordsSane(s) && c < |s.customers| && s.customers[c].phase == BackFromSpecialist
    ensures Accounted(CustomerProcess.BackFromSpecialist(cfg, s, c, now, threshold))
  {
    var r := CustomerProcess.BackFromSpecialist(cfg, s, c, now, threshold);
    assert s.customers[c].finished;
    assert r.customers == s.customers[c := r.customers[c]] && r.customers[c].outcome == s.customers[c].outcome;
    assert forall x :: 0 <= x < |s.customers| && x != c ==> r.customers[x] == s.customers[x];
    assert !InShop(s.customers[c]) && !InShop(r.customers[c]);
    assert !Referred(s.customers[c]) && !InStall(s.customers[c]);
    CountUpdate(s.customers, c, r.customers[c], HoldsStall);
    CountUpdate(s.customers, c, r.customers[c], IsOpen);
  }

  // ---- the end of a mechanic's repair ----

  lemma MechanicConcludeHolders(cfg: Config, s: State, m: nat, now: real, referred: bool)
    requires Holders(s) && m < |s.mechanics| && s.mechanics[m].Holding? && MechanicProcess.Served(s, m) < |s.customers|
    requires WaitsForMechanic(s.customers[MechanicProcess.Served(s, m)])
    ensures Holders(MechanicProcess.Conclude(cfg, s, m, now, referred))
  {
    var c := MechanicProcess.Served(s, m);
    var r := MechanicProcess.Conclude(cfg, s, m, now, referred);
    assert c !in s.waitingForSpecialist;
    assert forall x :: 0 <= x < |s.customers| && x != c ==> r.customers[x] == s.customers[x];
    assert forall x :: 0 <= x < |s.customers| && InStall(s.customers[x]) ==> x != c;
    if r.waitingForSpecialist != s.waitingForSpecialist {
      DistinctAppend(s.waitingForSpecialist, c);
      assert Referred(r.customers[c]);
    }
  }

  lemma MechanicConcludePresence(cfg: Config, s: State, m: nat, now: real, referred: bool)
    requires PresenceExact(s) && m < |s.mechanics| && s.mechanics[m].Holding? && MechanicProcess.Served(s, m) < |s.customers|
    requires WaitsForMechanic(s.customers[MechanicProcess.Served(s, m)])
    ensures PresenceExact(MechanicProcess.Conclude(cfg, s, m, now, referred))
  {
    var c := MechanicProcess.Served(s, m);
    var r := MechanicProcess.Conclude(cfg, s, m, now, referred);
    assert forall x :: 0 <= x < |s.customers| && x != c ==> r.customers[x] == s.customers[x];
    assert InShop(r.customers[c]);
  }

  lemma MechanicConcludeTallies(cfg: Config, s: State, m: nat, now: real, referred: bool)
    requires Tallies(s) && m < |s.mechanics| && s.mechanics[m].Holding? && MechanicProcess.Served(s, m) < |s.customers|
    requires WaitsForMechanic(s.customers[MechanicProcess.Served(s, m)])
    ensures Tallies(MechanicProcess.Conclude(cfg, s, m, now, referred))
  {
    var c := MechanicProcess.Served(s, m);
    var r := MechanicProcess.Conclude(cfg, s, m, now, referred);
    assert r.customers == s.customers[c := r.customers[c]];
    CountUpdate(s.customers, c, r.customers[c], HoldsStall);
    CountUpdate(s.customers, c, r.customers[c], IsOpen);
  }

  lemma MechanicConcludeAccounted(cfg: Config, s: State, m: nat, now: real, referred: bool)
    requires Ordered(cfg, s) && m < |s.mechanics| && s.mechanics[m].Holding?
    ensures MechanicProcess.Served(s, m) < |s.customers|
    ensures Accounted(MechanicProcess.Conclude(cfg, s, m, now, referred))
  {
    MechanicConcludeHolders(cfg, s, m, now, referred);
    MechanicConcludePresence(cfg, s, m, now, referred);
    MechanicConcludeTallies(cfg, s, m, now, referred);
  }

  // ---- the end of a specialist's repair ----

  lemma SpecialistConcludeHolders(cfg: Config, s: State, p: nat, now: real)
    requires Holders(s) && p < |s.specialists| && s.specialists[p].Holding?
    ensures SpecialistProcess.Served(s, p) < |s.customers|
    ensures Holders(SpecialistProcess.Conclude(cfg, s, p, now))
    ensures SpecialistLineClaimed(s) ==> SpecialistLineClaimed(SpecialistProcess.Conclude(cfg, s, p, now))
  {
    var c := SpecialistProcess.Served(s, p);
    var r := SpecialistProcess.Conclude(cfg, s, p, now);
    assert c !in s.waitingForSpecialist;
    assert forall x :: 0 <= x < |s.customers| && x != c ==> r.customers[x] == s.customers[x];
    assert forall i :: 0 <= i < |s.waitingForSpecialist| ==> s.waitingForSpecialist[i] != c;
  }

  lemma SpecialistConcludePresence(cfg: Config, s: State, p: nat, now: real)
    requires PresenceExact(s) && p < |s.specialists| && s.specialists[p].Holding?
    requires SpecialistProcess.Served(s, p) < |s.customers| && InStall(s.customers[SpecialistProcess.Served(s, p)])
    ensures PresenceExact(SpecialistProcess.Conclude(cfg, s, p, now))
  {
    var c := SpecialistProcess.Served(s, p);
    var r := SpecialistProcess.Conclude(cfg, s, p, now);
    RemoveDistinct(s.inSystem, c);
    assert forall x :: 0 <= x < |s.customers| && x != c ==> r.customers[x] == s.customers[x];
    assert !InShop(r.customers[c]);
  }

  lemma SpecialistConcludeTallies(cfg: Config, s: State, p: nat, now: real)
    requires Tallies(s) && p < |s.specialists| && s.specialists[p].Holding?
    requires SpecialistProcess.Served(s, p) < |s.customers| && InStall(s.customers[SpecialistProcess.Served(s, p)])
    ensures Tallies(SpecialistProcess.Conclude(cfg, s, p, now))
  {
    var c := SpecialistProcess.Served(s, p);
    var r := SpecialistProcess.Conclude(cfg, s, p, now);
    assert r.customers == s.customers[c := r.customers[c]];
    CountUpdate(s.customers, c, r.customers[c], HoldsStall);
    CountUpdate(s.customers, c, r.customers[c], IsOpen);
  }

  lemma SpecialistConcludeAccounted(cfg: Config, s: State, p: nat, now: real)
    requires Accounted(s) && p < |s.specialists| && s.specialists[p].Holding?
    ensures SpecialistProcess.Served(s, p) < |s.customers|
    ensures Accounted(SpecialistProcess.Conclude(cfg, s, p, now))
    ensures SpecialistLineClaimed(s) ==> SpecialistLineClaimed(SpecialistProcess.Conclude(cfg, s, p, now))
  {
    SpecialistConcludeHolders(cfg, s, p, now);
    SpecialistConcludePresence(cfg, s, p, now);
    SpecialistConcludeTallies(cfg, s, p, now);
  }

  // ---- the Generator ----

  lemma GeneratorResumeAccounted(cfg: Config, s: State, now: real, sample: real)
    requires Accounted(s)
    ensures Accounted(GeneratorProcess.Resume(cfg, s, now, sample))
  {
    var r := GeneratorProcess.Resume(cfg, s, now, sample);
    CountAppend(s.customers, GeneratorProcess.Newcomer(now), HoldsStall);
    CountAppend(s.customers, GeneratorProcess.Newcomer(now), IsOpen);
    assert forall c :: 0 <= c < |s.customers| ==> r.customers[c] == s.customers[c];
    assert !InShop(r.customers[|s.customers|]);
  }

  // ---- every settled step ----

  lemma ArrivesOrdered(cfg: Config, s: State, c: nat, now: real, threshold: int)
    requires Ordered(cfg, s) && c < |s.customers| && s.customers[c].phase == Arriving && now >= s.clock
    ensures Ordered(cfg, CustomerProcess.Arrive(cfg, s, c, now, threshold))
  {
    var s0 := s.(clock := now);
    assert Ordered(cfg, s0);
    WfProofs.ArrivalWf(cfg, s0, c, threshold);
    ArrivalAccounted(cfg, s0, c, threshold);
  }

  lemma BackFromMechanicOrdered(cfg: Config, s: State, c: nat, now: real)
    requires Ordered(cfg, s) && c < |s.customers| && s.customers[c].phase == BackFromMechanic && now >= s.clock
    ensures Ordered(cfg, CustomerProcess.BackFromMechanic(cfg, s, c, now))
  {
    WfProofs.BackFromMechanicWf(cfg, s, c, now);
    BackFromMechanicAccounted(cfg, s, c, now);
  }

  lemma BackFromSpecialistOrdered(cfg: Config, s: State, c: nat, now: real, threshold: int)
    requires Ordered(cfg, s) && c < |s.customers| && s.customers[c].phase == BackFromSpecialist && now >= s.clock
    ensures Ordered(cfg, CustomerProcess.BackFromSpecialist(cfg, s, c, now, threshold))
  {
    WfProofs.BackFromSpecialistWf(cfg, s, c, now, threshold);
    BackFromSpecialistAccounted(cfg, s, c, now, threshold);
  }

  lemma MechanicStartsOrdered(cfg: Config, s: State, m: nat, now: real, fixTime: real)
    requires Ordered(cfg, s) && m < |s.mechanics| && s.mechanics[m] == Starting && now >= s.clock
    ensures Ordered(cfg, MechanicProcess.Start(cfg, s, m, now, fixTime))
  {
    WfProofs.MechanicStartsWf(cfg, s, m, now, fixTime);
    var s0 := s.(clock := now, todaysCost := s.todaysCost + cfg.mechanicSalary, mechanics := s.mechanics[m := Running]);
    assert Accounted(s0);
    MechanicSeekAccounted(s0, m, now, fixTime);
  }

  lemma MechanicResumesOrdered(cfg: Config, s: State, m: nat, now: real, fixTime: real)
    requires Ordered(cfg, s) && m < |s.mechanics| && s.mechanics[m] == Activated && now >= s.clock
    ensures Ordered(cfg, MechanicProcess.Resume(s, m, now, fixTime))
  {
    WfProofs.MechanicResumesWf(cfg, s, m, now, fixTime);
    var s0 := s.(clock := now, mechanics := s.mechanics[m := Running]);
    assert Accounted(s0);
    MechanicSeekAccounted(s0, m, now, fixTime);
  }

  lemma MechanicFinishesOrdered(cfg: Config, s: State, m: nat, now: real, referred: bool, fixTime: real)
    requires Ordered(cfg, s) && m < |s.mechanics| && s.mechanics[m].Holding? && now >= s.clock
    requires MechanicProcess.Served(s, m) < |s.customers|
    ensures Ordered(cfg, MechanicProcess.FinishRepair(cfg, s, m, now, referred, fixTime))
  {
    WfProofs.MechanicFinishesWf(cfg, s, m, now, referred, fixTime);
    MechanicConcludeAccounted(cfg, s, m, now, referred);
    MechanicSeekAccounted(MechanicProcess.Conclude(cfg, s, m, now, referred), m, now, fixTime);
  }

  lemma SpecialistStartsOrdered(cfg: Config, s: State, p: nat, now: real, fixTime: real)
    requires Ordered(cfg, s) && SpecialistLineClaimed(s)
    requires p < |s.specialists| && s.specialists[p] == Starting && now >= s.clock
    ensures Ordered(cfg, SpecialistProcess.Start(cfg, s, p, now, fixTime))
  {
    WfProofs.SpecialistStartsWf(cfg, s, p, now, fixTime);
    var s0 := s.(clock := now, todaysCost := s.todaysCost + cfg.specialistSalary, specialists := s.specialists[p := Running]);
    assert Accounted(s0) && SpecialistLineClaimed(s0);
    SpecialistSeekAccounted(s0, p, now, fixTime);
  }

  lemma SpecialistResumesOrdered(cfg: Config, s: State, p: nat, now: real, fixTime: real)
    requires Ordered(cfg, s) && SpecialistLineClaimed(s)
    requires p < |s.specialists| && s.specialists[p] == Activated && now >= s.clock
    ensures Ordered(cfg, SpecialistProcess.Resume(s, p, now, fixTime))
  {
    WfProofs.SpecialistResumesWf(cfg, s, p, now, fixTime);
    var s0 := s.(clock := now, specialists := s.specialists[p := Running]);
    assert Accounted(s0) && SpecialistLineClaimed(s0);
    SpecialistSeekAccounted(s0, p, now, fixTime);
  }

  lemma SpecialistFinishesOrdered(cfg: Config, s: State, p: nat, now: real, fixTime: real)
    requires Ordered(cfg, s) && SpecialistLineClaimed(s)
    requires p < |s.specialists| && s.specialists[p].Holding? && now >= s.clock
    requires SpecialistProcess.Served(s, p) < |s.customers|
    ensures Ordered(cfg, SpecialistProcess.FinishRepair(cfg, s, p, now, fixTime))
  {
    WfProofs.SpecialistFinishesWf(cfg, s, p, now, fixTime);
    SpecialistConcludeAccounted(cfg, s, p, now);
    SpecialistSeekAccounted(SpecialistProcess.Conclude(cfg, s, p, now), p, now, fixTime);
  }

  lemma GeneratorOrdered(cfg: Config, s: State, step: Step)
    requires Ordered(cfg, s) && Enabled(s, step) && (step.GeneratorStarts? || step.GeneratorResumes?)
    ensures Ordered(cfg, Apply(cfg, s, step))
  {
    WfProofs.StepPreservesWf(cfg, s, step);
    if step.GeneratorResumes? {
      GeneratorResumeAccounted(cfg, s, step.now, step.sample);
    } else {
      var r := Apply(cfg, s, step);
      assert r.customers == s.customers && r.waitingForSpecialist == s.waitingForSpecialist;
      assert r.specialists == s.specialists && r.inSystem == s.inSystem;
    }
  }

  lemma CustomerOrdered(cfg: Config, s: State, step: Step)
    requires Ordered(cfg, s) && Enabled(s, step)
    requires step.CustomerArrives? || step.CustomerBackFromMechanic? || step.CustomerBackFromSpecialist?
    ensures Ordered(cfg, Apply(cfg, s, step))
  {
    match step
    case CustomerArrives(c, now, threshold) =>
      ArrivesOrdered(cfg, s, c, now, threshold);
    case CustomerBackFromMechanic(c, now) =>
      BackFromMechanicOrdered(cfg, s, c, now);
    case CustomerBackFromSpecialist(c, now, threshold) =>
      BackFromSpecialistOrdered(cfg, s, c, now, threshold);
  }

  lemma MechanicOrdered(cfg: Config, s: State, step: Step)
    requires Ordered(cfg, s) && Enabled(s, step)
    requires step.MechanicStarts? || step.MechanicResumes? || step.MechanicFinishes?
    ensures Ordered(cfg, Apply(cfg, s, step))
  {
    match step
    case MechanicStarts(m, now, fixTime) =>
      MechanicStartsOrdered(cfg, s, m, now, fixTime);
    case MechanicResumes(m, now, fixTime) =>
      MechanicResumesOrdered(cfg, s, m, now, fixTime);
    case MechanicFinishes(m, now, referred, fixTime) =>
      MechanicFinishesOrdered(cfg, s, m, now, referred, fixTime);
  }

  lemma SpecialistOrdered(cfg: Config, s: State, step: Step)
    requires Ordered(cfg, s) && Enabled(s, step) && RunsSpecialist(step) && SpecialistLineClaimed(s)
    ensures Ordered(cfg, Apply(cfg, s, step))
  {
    match step
    case SpecialistStarts(p, now, fixTime) =>
      SpecialistStartsOrdered(cfg, s, p, now, fixTime);
    case SpecialistResumes(p, now, fixTime) =>
      SpecialistResumesOrdered(cfg, s, p, now, fixTime);
    case SpecialistFinishes(p, now, fixTime) =>
      SpecialistFinishesOrdered(cfg, s, p, now, fixTime);
  }

  /** Every settled segment keeps `Ordered`. */
  lemma StepPreservesOrdered(cfg: Config, s: State, step: Step)
    requires Ordered(cfg, s) && Enabled(s, step) && Settled(s, step)
    ensures Ordered(cfg, Apply(cfg, s, step))
  {
    if step.CustomerArrives? || step.CustomerBackFromMechanic? || step.CustomerBackFromSpecialist? {
      CustomerOrdered(cfg, s, step);
    } else if step.MechanicStarts? || step.MechanicResumes? || step.MechanicFinishes? {
      MechanicOrdered(cfg, s, step);
    } else if RunsSpecialist(step) {
      SpecialistOrdered(cfg, s, step);
    } else {
      GeneratorOrdered(cfg, s, step);
    }
  }
}
