/** What the single-metric theorems say about the analysis states a status can hold. */
module StoredStates {
  import opened Sprt
  import opened Wrappers
  import MetricRuns
  import StepTraffic
  import Scaling
  import opened RouteAgreement
  import opened Aggregation
  import opened Rollout
  import opened RolloutSafety
  import opened PromotionCertificate

  // The readings of metric k that went into the states stored in world i.
  ghost function Gathered(r: Run, i: nat, k: nat): seq<Reading>
    requires i <= |r.events|
  {
    Column(Rows(r, Evidence(r, i)), k)
  }

  // A run of one fixed configuration under analysis, with no metric named twice.
  ghost predicate Analysed(r: Run, cfg: Config) {
    Fixed(r, cfg) && FreshStatus(At(r, 0).status) && cfg.analysis.Some? && cfg.analysis.value.DistinctNames()
  }

  /** Whatever writes fail, and until the rollout aborts, a stored state is what its metric's own test, begun afresh
      in the current step, makes of the readings stored since. */
  lemma StoredStateIsAlone(r: Run, cfg: Config, i: nat, k: nat)
    requires Analysed(r, cfg) && i <= |r.events| && At(r, i).status.phase != PhaseAborted
    requires k < |At(r, i).status.analysis|
    ensures |At(r, i).status.analysis| == |cfg.analysis.value.metrics|
    ensures var an := cfg.analysis.value; var m := an.metrics[k];
      At(r, i).status.analysis[k] == MetricRuns.Run(an.Limits(), m, Fresh(m.name), Gathered(r, i, k))
  {
    StatesExplained(r, cfg, i);
    QuietIndependence(cfg.analysis.value, Rows(r, Evidence(r, i)));
  }

  /** So every stored state lies in the band of its verdict. */
  lemma StoredStateIsBanded(r: Run, cfg: Config, i: nat, k: nat)
    requires Analysed(r, cfg) && i <= |r.events| && At(r, i).status.phase != PhaseAborted
    requires k < |At(r, i).status.analysis|
    requires cfg.analysis.value.alpha + cfg.analysis.value.beta < 1.0
    ensures MetricRuns.Banded(cfg.analysis.value.Limits(), At(r, i).status.analysis[k])
  {
    StoredStateIsAlone(r, cfg, i, k);
    var an := cfg.analysis.value;
    MetricRuns.BoundsStraddleOne(an);
    MetricRuns.RunKeepsBands(an.Limits(), an.metrics[k], Fresh(an.metrics[k].name), Gathered(r, i, k));
  }

  /** And its counts are the movement of the counters since the base of its test, across every reconcile that was
      paused, failed, had no data or could not store its status. */
  lemma StoredCountsConserved(r: Run, cfg: Config, i: nat, k: nat)
    requires Analysed(r, cfg) && i <= |r.events| && At(r, i).status.phase != PhaseAborted
    requires k < |At(r, i).status.analysis|
    ensures k < |cfg.analysis.value.metrics|
    ensures var an, s := cfg.analysis.value, At(r, i).status.analysis[k];
      var rs := Gathered(r, i, k);
      var l := MetricRuns.LedgerOf(an.Limits(), an.metrics[k], rs);
      s.observations == s.lastTotal - l.baseTotal
      && (s.failures == s.lastFailure - l.baseFailure
          <==> !MetricRuns.StalledSince(an.Limits(), an.metrics[k], rs, l.start))
  {
    StoredStateIsAlone(r, cfg, i, k);
    var an := cfg.analysis.value;
    MetricRuns.CountersConserved(an.Limits(), an.metrics[k], Gathered(r, i, k));
  }

  /** A decided state stays as it is until the step is left or the rollout aborts. */
  lemma DecidedStateStays(r: Run, cfg: Config, i: nat, k: nat)
    requires Analysed(r, cfg) && i < |r.events| && At(r, i).status.phase != PhaseAborted
    requires k < |At(r, i).status.analysis| && At(r, i).status.analysis[k].verdict != Pending
    ensures var before, after := At(r, i).status, At(r, i + 1).status;
      after.phase == PhaseAborted || after.currentStep == before.currentStep + 1
      || (k < |after.analysis| && after.analysis[k] == before.analysis[k])
  {
    var ev, w, an := r.events[i], At(r, i), cfg.analysis.value;
    var after := Next(ev.spec, w, ev.env).status;
    Reconciled(r, i);
    if after.phase != PhaseAborted {
      NotStartedIsFresh(r, i);
      StepsMoveForward(r, i, i + 1);
      LandAnalysisStates(ev.spec, w, ev.env);
      if after.currentStep == w.status.currentStep && Gathers(ev, w.status) {
        StatesExplained(r, cfg, i);
        QuietIndependence(an, Rows(r, Evidence(r, i)));
        QuietCycleSteps(an, w.status.analysis, ev.env.readings);
      }
    }
  }

  // ---------------------------------------------------------------- observations and the traffic of a step

  // Reconcile t enters the step at which the run stands in world i.
  ghost predicate Entered(r: Run, t: nat, i: nat)
    requires i <= |r.events|
  {
    t < i
    && (At(r, t).status.currentStep != At(r, t + 1).status.currentStep
        || (NotStarted(At(r, t).status) && !NotStarted(At(r, t + 1).status)))
    && forall x :: t < x <= i ==> At(r, x).status.currentStep == At(r, i).status.currentStep
  }

  // At reconcile t the request counter of metric k read `total`.
  ghost predicate Shows(r: Run, t: nat, k: nat, total: nat)
    requires t < |r.events|
  {
    var reading := Answer(r.events[t].env.readings, k);
    reading.Sampled? && reading.canaryTotal == Some(total)
  }

  lemma {:induction false} NothingGatheredBeforeStart(r: Run, i: nat)
    requires i <= |r.events| && NotStarted(At(r, i).status)
    ensures Evidence(r, i) == []
  {
    if i == 0 {
    } else {
      Reconciled(r, i - 1);
      PlanMoves(r.events[i - 1].spec, At(r, i - 1).status, r.events[i - 1].env);
      NothingGatheredBeforeStart(r, i - 1);
    }
  }

  /** The readings behind the stored states were all gathered after the step was entered. */
  lemma {:induction false} EvidenceSinceEntry(r: Run, t: nat, i: nat)
    requires i <= |r.events| && FreshStatus(At(r, 0).status) && Entered(r, t, i)
    ensures forall x :: 0 <= x < |Evidence(r, i)| ==> t < Evidence(r, i)[x] < i
    decreases i
  {
    if i > t + 1 {
      EvidenceSinceEntry(r, t, i - 1);
    } else if At(r, t).status.currentStep == At(r, t + 1).status.currentStep {
      NothingGatheredBeforeStart(r, t);
    }
  }

  /** The observations a status stores, against the requests the canary has served since the step was entered, as far
      as the stored polls show them. */
  lemma StoredObservations(r: Run, cfg: Config, i: nat, k: nat, t: nat, atStart: nat)
    requires Analysed(r, cfg) && i <= |r.events| && At(r, i).status.phase != PhaseAborted
    requires k < |At(r, i).status.analysis| && Entered(r, t, i) && Shows(r, t, k, atStart)
    ensures k < |cfg.analysis.value.metrics|
    ensures forall x :: 0 <= x < |Evidence(r, i)| ==> t < Evidence(r, i)[x] < i
    ensures var an := cfg.analysis.value;
      StepTraffic.Tallies(an.Limits(), an.metrics[k], atStart, Gathered(r, i, k), At(r, i).status.analysis[k])
  {
    StoredStateIsAlone(r, cfg, i, k);
    EvidenceSinceEntry(r, t, i);
    StepTraffic.ObservationsOfAStep(cfg.analysis.value.Limits(), cfg.analysis.value.metrics[k], atStart, Gathered(r, i, k));
  }

  // ---------------------------------------------------------------- a step that reports another step's traffic

  // Two steps, the first without a pause, the second with one.
  predicate TwoSteps(cfg: Config, an: Analysis) {
    cfg.stableHost == STABLE && cfg.canaryHost == CANARY && cfg.steps == [Step(10, 0), Step(20, 60)]
    && cfg.prometheus && cfg.analysis == Some(an)
  }

  // A success, before and after the stable version has served anything.
  const BEFORE_STABLE: Reading := Sampled(Some(1), Some(0), None, None)
  const AFTER_STABLE: Reading := Sampled(Some(1), Some(0), Some(2), Some(1))

  // A poll that no metric gets anything from leaves every test where it was.
  lemma BlankPoll(an: Analysis, name: string, delta: real)
    requires delta > 0.0 && an.metrics == [Metric(name, delta)]
    ensures Cycle(an, [], [BEFORE_STABLE]) == Decided(Continue, [Fresh(name)])
  {
    assert After(an, [], [BEFORE_STABLE], 0) == Some(Fresh(name));
    assert !Stops(an, [], [BEFORE_STABLE], 0);
    assert FirstStop(an, [], [BEFORE_STABLE], 0) == 1;
    var states := States(an, [], [BEFORE_STABLE], 1);
    assert states == [Fresh(name)] && states[0] in states;
  }

  // One request that succeeded leaves the test undecided.
  lemma OneSuccessPends(an: Analysis)
    requires an == Analysis(0.25, 0.25, 10, [Metric("errors", 0.25)])
    ensures var c := Cycle(an, [], [AFTER_STABLE]);
      c.Decided? && c.decision == Continue && |c.states| == 1
      && c.states[0].verdict == Pending && c.states[0].observations == 1
  {
    var readings := [AFTER_STABLE];
    assert Before(an, [], 0) == Fresh("errors");
    var p0 := Baseline(AFTER_STABLE);
    assert p0 == 0.5;
    var p1 := Alternative(p0, an.metrics[0]);
    assert SuccessFactor(p0, p1) == 0.5;
    assert Scaling.Scale(1.0, 0.5, 1) == Scaling.Scale(0.5, 0.5, 0);
    assert Scaling.Scale(1.0, FailureFactor(p0, p1), 0) == 1.0;
    assert an.Limits().upper == 3.0 && an.Limits().lower < 0.5;
    var after := After(an, [], readings, 0);
    assert after.Some? && after.value.ratio == 0.5 && after.value.verdict == Pending;
    assert !Stops(an, [], readings, 0);
    assert FirstStop(an, [], readings, 0) == 1;
    var states := States(an, [], readings, 1);
    assert states[0] in states;
  }

  // What the reconcile after the weight of a step is set does with the states the analyzer returns.
  lemma ContinuedPlan(cfg: Config, an: Analysis, ev: Event, st: Status)
    requires AtWeight(cfg, st) && cfg.prometheus && cfg.analysis == Some(an) && ev.spec == Spec(cfg, false, false)
    requires ev.env.fetch == Found && ev.env.readiness == Ready && ev.env.clientOk
    requires Cycle(an, st.analysis, ev.env.readings).Decided?
    requires Cycle(an, st.analysis, ev.env.readings).decision == Continue
    ensures RanSprt(ev.spec, st, ev.env)
    ensures Plan(ev.spec, st, ev.env)
            == PlanTimer(cfg, st.(analysis := Cycle(an, st.analysis, ev.env.readings).states), ev.env)
  {}

  // The run enters its second step at reconcile 2, with the counter at one, and polls it once, at reconcile 4.
  ghost predicate SecondStepPolled(r: Run, cfg: Config, states: seq<MetricState>) {
    |r.events| == 5 && Fixed(r, cfg) && FreshStatus(At(r, 0).status) && FaultFree(r)
    && Entered(r, 2, 5) && Shows(r, 2, 0, 1) && Evidence(r, 5) == [4] && r.events[4].env.readings == [AFTER_STABLE]
    && At(r, 5).status == Status(PhaseRunning, 1, 20, 0, states)
  }

  lemma GatheredOne(r: Run)
    requires |r.events| == 5 && Evidence(r, 5) == [4] && r.events[4].env.readings == [AFTER_STABLE]
    ensures Gathered(r, 5, 0) == [AFTER_STABLE]
  {
    var idx := Evidence(r, 5);
    assert idx[..|idx| - 1] == [];
    assert Rows(r, idx) == [[AFTER_STABLE]];
  }

  lemma NothingServed()
    ensures StepTraffic.Served(1, [AFTER_STABLE]) == 0
  {
    var rs := [AFTER_STABLE];
    assert rs[..|rs| - 1] == [];
  }

  lemma LeavesFirstStep(cfg: Config, an: Analysis, leave: Event, w: World)
    requires TwoSteps(cfg, an) && leave == Tick(cfg, 0, [BEFORE_STABLE])
    requires w.status == Status(PhaseRunning, 0, 10, 0, []) && Routable(cfg, w.vs)
    requires Cycle(an, [], [BEFORE_STABLE]) == Decided(Continue, [Fresh("errors")])
    ensures var w' := Next(leave.spec, w, leave.env);
      w'.status == Status(PhaseRunning, 1, 10, 0, []) && Routable(cfg, w'.vs)
  {
    ContinuedPlan(cfg, an, leave, w.status);
  }

  lemma EnterSecondStep(cfg: Config, an: Analysis) returns (r: Run)
    requires TwoSteps(cfg, an) && an.metrics == [Metric("errors", 0.25)]
    ensures |r.events| == 3 && Fixed(r, cfg) && FreshStatus(At(r, 0).status) && FaultFree(r) && Shows(r, 2, 0, 1)
    ensures At(r, 2).status.currentStep == 0 && At(r, 3).status == Status(PhaseRunning, 1, 10, 0, [])
    ensures Routable(cfg, At(r, 3).vs)
  {
    var r2 := FirstStepSet(cfg);
    var leave := Tick(cfg, 0, [BEFORE_STABLE]);
    BlankPoll(an, "errors", 0.25);
    LeavesFirstStep(cfg, an, leave, At(r2, 2));
    r := Then(r2, leave);
  }

  lemma OnePollGathered(r: Run)
    requires |r.events| == 5 && At(r, 2).status.currentStep == 0
    requires forall i :: 3 <= i <= 5 ==> At(r, i).status.currentStep == 1
    requires !Gathers(r.events[3], At(r, 3).status) && Gathers(r.events[4], At(r, 4).status)
    ensures Evidence(r, 5) == [4] && Entered(r, 2, 5)
  {
    assert Evidence(r, 3) == [];
    assert Evidence(r, 4) == [];
  }

  lemma RaisesWeight(cfg: Config, raise: Event, w: World)
    requires cfg.steps == [Step(10, 0), Step(20, 60)] && raise == Tick(cfg, 0, [])
    requires w.status == Status(PhaseRunning, 1, 10, 0, []) && Routable(cfg, w.vs)
    ensures Next(raise.spec, w, raise.env).status == Status(PhaseRunning, 1, 20, 0, [])
    ensures !Gathers(raise, w.status)
  {
    WorkingWritesHold(raise, w);
    LandsAsTold(cfg, raise, w);
  }

  lemma PollsSecondStep(cfg: Config, an: Analysis, states: seq<MetricState>, poll: Event, w: World)
    requires TwoSteps(cfg, an) && poll == Tick(cfg, 0, [AFTER_STABLE])
    requires w.status == Status(PhaseRunning, 1, 20, 0, [])
    requires Cycle(an, [], [AFTER_STABLE]) == Decided(Continue, states)
    ensures Gathers(poll, w.status)
    ensures Next(poll.spec, w, poll.env).status == Status(PhaseRunning, 1, 20, 0, states)
  {
    ContinuedPlan(cfg, an, poll, w.status);
  }

  lemma PollSecondStep(cfg: Config, an: Analysis, states: seq<MetricState>) returns (r: Run)
    requires TwoSteps(cfg, an) && an.metrics == [Metric("errors", 0.25)]
    requires Cycle(an, [], [AFTER_STABLE]) == Decided(Continue, states)
    ensures SecondStepPolled(r, cfg, states)
  {
    var r3 := EnterSecondStep(cfg, an);
    var raise, poll := Tick(cfg, 0, []), Tick(cfg, 0, [AFTER_STABLE]);
    RaisesWeight(cfg, raise, At(r3, 3));
    var r4 := Then(r3, raise);
    PollsSecondStep(cfg, an, states, poll, At(r4, 4));
    r := Then(r4, poll);
    OnePollGathered(r);
  }

  /** A run whose second step reports an observation although the canary has served nothing since it was entered. */
  lemma EarlierTrafficReported() returns (r: Run, cfg: Config)
    ensures Analysed(r, cfg) && FaultFree(r) && |r.events| == 5
    ensures Entered(r, 2, 5) && At(r, 5).status.currentStep == 1 && Shows(r, 2, 0, 1)
    ensures |At(r, 5).status.analysis| == 1 && At(r, 5).status.analysis[0].observations == 1
    ensures Evidence(r, 5) == [4] && StepTraffic.Served(1, Gathered(r, 5, 0)) == 0
  {
    var an := Analysis(0.25, 0.25, 10, [Metric("errors", 0.25)]);
    cfg := Config(STABLE, CANARY, [Step(10, 0), Step(20, 60)], true, Some(an));
    OneSuccessPends(an);
    r := PollSecondStep(cfg, an, Cycle(an, [], [AFTER_STABLE]).states);
    GatheredOne(r);
    NothingServed();
  }
}
