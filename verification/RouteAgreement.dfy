/** The traffic weights in the route against those in the status, under every pattern of failed writes. */
module RouteAgreement {
  import opened Wrappers
  import Scaling
  import opened Sprt
  import opened VirtualServices
  import opened Rollout
  import opened RolloutSafety

  // ---------------------------------------------------------------- which writes take effect

  // The reconcile patches the route, and the patch takes effect.
  predicate PatchLands(ev: Event, w: World) {
    Plan(ev.spec, w.status, ev.env).patch.Some? && PatchArrives(ev.env)
  }

  // The reconcile stores a status, and the write takes effect.
  predicate StatusLands(ev: Event, w: World) {
    var e := Plan(ev.spec, w.status, ev.env);
    e.flush.Some? && ev.env.statusWrite != Rejected
    && (e.mustPatch ==> PatchAttempt(ev.spec.config, e, w.vs, ev.env).ok)
  }

  /** The route and the status as a reconcile leaves them. */
  lemma LandsAsTold(cfg: Config, ev: Event, w: World)
    requires ev.spec.config == cfg && Routable(cfg, w.vs)
    ensures var e, w' := Plan(ev.spec, w.status, ev.env), Next(ev.spec, w, ev.env);
      Routable(cfg, w'.vs)
      && CanaryShare(cfg, w'.vs) == (if PatchLands(ev, w) then e.patch.value else CanaryShare(cfg, w.vs))
      && StableShare(cfg, w'.vs) == (if PatchLands(ev, w) then 100 - e.patch.value else StableShare(cfg, w.vs))
      && w'.status == (if StatusLands(ev, w) then e.flush.value else w.status)
      && (e.mustPatch && StatusLands(ev, w) ==> PatchArrives(ev.env))
  {
    var e := Plan(ev.spec, w.status, ev.env);
    if e.patch.Some? {
      PatchedShares(cfg, w.vs, e.patch.value);
    }
  }

  // ---------------------------------------------------------------- status and traffic agree

  // The canary share in the route is the reported weight; in Promoted it is that of the last step.
  predicate Reports(cfg: Config, st: Status, canaryShare: int) {
    if st.phase == PhasePromoted then cfg.steps != [] && canaryShare == cfg.steps[|cfg.steps| - 1].weight
    else canaryShare == st.currentWeight
  }

  predicate Agrees(cfg: Config, w: World) {
    Reports(cfg, w.status, CanaryShare(cfg, w.vs)) && StableShare(cfg, w.vs) == 100 - CanaryShare(cfg, w.vs)
  }

  // One of the two writes takes effect without the other, and the patch would have changed the route.
  predicate Tears(cfg: Config, ev: Event, w: World) {
    var e := Plan(ev.spec, w.status, ev.env);
    e.patch.Some? && e.patch.value != CanaryShare(cfg, w.vs) && PatchLands(ev, w) != StatusLands(ev, w)
  }

  lemma MoveReports(cfg: Config, st: Status, e: Effect, canaryShare: int)
    requires Moves(cfg, st, e) && StepInRange(cfg, st) && Reports(cfg, st, canaryShare)
    ensures e.flush == None ==> e.patch == None
    ensures e.flush.Some? ==> Reports(cfg, e.flush.value, if e.patch.Some? then e.patch.value else canaryShare)
    ensures e.flush.Some? && e.patch.Some? ==> e.flush.value.phase != PhasePromoted
    ensures e.patch.Some? && e.patch.value != canaryShare ==> !Reports(cfg, st, e.patch.value)
  {}

  // The part of the route and status that every reconcile keeps.
  predicate Shaped(cfg: Config, w: World) {
    Routable(cfg, w.vs) && StepInRange(cfg, w.status) && StableShare(cfg, w.vs) == 100 - CanaryShare(cfg, w.vs)
  }

  lemma NextShaped(cfg: Config, ev: Event, w: World)
    requires ev.spec.config == cfg && Shaped(cfg, w)
    ensures Shaped(cfg, Next(ev.spec, w, ev.env))
  {
    LandsAsTold(cfg, ev, w);
    PlanMoves(ev.spec, w.status, ev.env);
    LandInRange(cfg, Plan(ev.spec, w.status, ev.env), w, ev.env);
  }

  lemma {:induction false} RunShaped(r: Run, cfg: Config, i: nat)
    requires Fixed(r, cfg) && cfg.steps != [] && ReadyToRoll(cfg, At(r, 0)) && i <= |r.events|
    ensures Shaped(cfg, At(r, i))
  {
    if i == 0 {
    } else {
      Reconciled(r, i - 1);
      RunShaped(r, cfg, i - 1);
      NextShaped(cfg, r.events[i - 1], At(r, i - 1));
    }
  }

  /** A reconcile spoils the agreement exactly when it tears. */
  lemma NextAgrees(cfg: Config, ev: Event, w: World)
    requires ev.spec.config == cfg && Shaped(cfg, w) && Agrees(cfg, w)
    ensures Agrees(cfg, Next(ev.spec, w, ev.env)) <==> !Tears(cfg, ev, w)
  {
    LandsAsTold(cfg, ev, w);
    PlanMoves(ev.spec, w.status, ev.env);
    MoveReports(cfg, w.status, Plan(ev.spec, w.status, ev.env), CanaryShare(cfg, w.vs));
  }

  lemma StepAgrees(r: Run, cfg: Config, i: nat)
    requires Fixed(r, cfg) && cfg.steps != [] && ReadyToRoll(cfg, At(r, 0)) && i < |r.events|
    requires Agrees(cfg, At(r, i))
    ensures Agrees(cfg, At(r, i + 1)) <==> !Tears(cfg, r.events[i], At(r, i))
  {
    Reconciled(r, i);
    RunShaped(r, cfg, i);
    NextAgrees(cfg, r.events[i], At(r, i));
  }

  /** Under any write faults: the route carries the weight in the status throughout a run exactly when no reconcile
      of it tears. */
  lemma {:induction false} WeightAgreement(r: Run, cfg: Config, n: nat)
    requires Fixed(r, cfg) && cfg.steps != [] && ReadyToRoll(cfg, At(r, 0)) && n <= |r.events|
    ensures (forall i :: 0 <= i <= n ==> Agrees(cfg, At(r, i)))
            <==> (forall i :: 0 <= i < n ==> !Tears(cfg, r.events[i], At(r, i)))
  {
    if n == 0 {
    } else {
      WeightAgreement(r, cfg, n - 1);
      if Agrees(cfg, At(r, n - 1)) {
        StepAgrees(r, cfg, n - 1);
      }
    }
  }

  lemma WorkingWritesHold(ev: Event, w: World)
    requires WritesWork(ev.env) && Routable(ev.spec.config, w.vs)
    ensures var e := Plan(ev.spec, w.status, ev.env);
      (e.patch.Some? ==> PatchLands(ev, w)) && (e.flush.Some? ==> StatusLands(ev, w))
      && (e.patch.Some? ==> e.flush.Some?)
  {
    PlanMoves(ev.spec, w.status, ev.env);
    AttemptShares(ev.spec.config, Plan(ev.spec, w.status, ev.env), w.vs, ev.env);
  }

  /** Without write faults the route always carries the weight in the status. */
  lemma FaultFreeAgreement(r: Run, cfg: Config, n: nat)
    requires Fixed(r, cfg) && FaultFree(r) && cfg.steps != [] && ReadyToRoll(cfg, At(r, 0)) && n <= |r.events|
    ensures forall i :: 0 <= i <= n ==> Agrees(cfg, At(r, i))
  {
    forall i | 0 <= i < n ensures !Tears(cfg, r.events[i], At(r, i)) {
      RunShaped(r, cfg, i);
      WorkingWritesHold(r.events[i], At(r, i));
    }
    WeightAgreement(r, cfg, n);
  }

  // ---------------------------------------------------------------- the weight of a step under write faults

  // The weight the status takes to be in the route: that of a step it has set, or of the last one when promoted.
  function Due(cfg: Config, st: Status): Option<int> {
    if st.phase == PhasePromoted && cfg.steps != [] then Some(cfg.steps[|cfg.steps| - 1].weight)
    else if st.phase != PhasePromoted && st.phase != PhaseAborted && st.currentStep < |cfg.steps|
            && st.currentWeight == cfg.steps[st.currentStep].weight then Some(st.currentWeight)
    else None
  }

  // The reconcile takes the canary out of traffic: an abort, a rollback or a readiness timeout.
  predicate Drains(e: Effect) {
    e.flush.Some? && (e.flush.value.phase == PhaseAborted || (e.flush.value.phase == PhaseFailed && e.patch.Some?))
  }

  /** A drain of which one half is lost: the zero patch arrives but not the status; or, in a step whose own weight
      is zero, the status of a readiness timeout arrives but not the patch. */
  predicate HalfDrains(cfg: Config, ev: Event, w: World) {
    var e := Plan(ev.spec, w.status, ev.env);
    Drains(e)
    && ((PatchLands(ev, w) && !StatusLands(ev, w))
        || (!PatchLands(ev, w) && StatusLands(ev, w) && e.flush.value.phase == PhaseFailed
            && w.status.currentStep < |cfg.steps| && cfg.steps[w.status.currentStep].weight == 0))
  }

  // A half drain has happened, and no patch has reached the route since.
  ghost predicate Astray(r: Run, cfg: Config, i: nat)
    requires i <= |r.events|
  {
    i > 0
    && (HalfDrains(cfg, r.events[i - 1], At(r, i - 1))
        || (!PatchLands(r.events[i - 1], At(r, i - 1)) && Astray(r, cfg, i - 1)))
  }

  // The route holds the weight that is due, unless it is astray; then, if that weight is positive, it holds none.
  ghost predicate Holds(cfg: Config, w: World, astray: bool) {
    var due, share := Due(cfg, w.status), CanaryShare(cfg, w.vs);
    due.Some? ==> (!astray ==> share == due.value) && (astray && due.value > 0 ==> share == 0)
  }

  // The same on the numbers alone.
  lemma MoveHolds(cfg: Config, st: Status, e: Effect, share: int, patched: bool, stored: bool, half: bool, astray: bool)
    requires Moves(cfg, st, e) && StepInRange(cfg, st)
    requires patched ==> e.patch.Some?
    requires stored ==> e.flush.Some? && (e.mustPatch ==> patched)
    requires half == (
      Drains(e)
      && ((patched && !stored)
          || (!patched && stored && e.flush.value.phase == PhaseFailed
              && st.currentStep < |cfg.steps| && cfg.steps[st.currentStep].weight == 0)))
    requires Due(cfg, st).Some? ==>
      (!astray ==> share == Due(cfg, st).value) && (astray && Due(cfg, st).value > 0 ==> share == 0)
    ensures var st', share' := if stored then e.flush.value else st, if patched then e.patch.value else share;
      var astray' := half || (!patched && astray);
      Due(cfg, st').Some? ==>
        (!astray' ==> share' == Due(cfg, st').value) && (astray' && Due(cfg, st').value > 0 ==> share' == 0)
  {}

  lemma NextHolds(cfg: Config, ev: Event, w: World, astray: bool)
    requires ev.spec.config == cfg && Shaped(cfg, w) && Holds(cfg, w, astray)
    ensures Holds(cfg, Next(ev.spec, w, ev.env), HalfDrains(cfg, ev, w) || (!PatchLands(ev, w) && astray))
  {
    LandsAsTold(cfg, ev, w);
    PlanMoves(ev.spec, w.status, ev.env);
    MoveHolds(cfg, w.status, Plan(ev.spec, w.status, ev.env), CanaryShare(cfg, w.vs),
              PatchLands(ev, w), StatusLands(ev, w), HalfDrains(cfg, ev, w), astray);
  }

  /** Under any write faults: what is due is in the route unless it is astray. */
  lemma {:induction false} RouteHolds(r: Run, cfg: Config, i: nat)
    requires Fixed(r, cfg) && cfg.steps != [] && ReadyToRoll(cfg, At(r, 0)) && i <= |r.events|
    ensures Shaped(cfg, At(r, i)) && Holds(cfg, At(r, i), Astray(r, cfg, i))
  {
    RunShaped(r, cfg, i);
    if i == 0 {
    } else {
      Reconciled(r, i - 1);
      RouteHolds(r, cfg, i - 1);
      NextHolds(cfg, r.events[i - 1], At(r, i - 1), Astray(r, cfg, i - 1));
    }
  }

  lemma {:induction false} FaultFreeNeverAstray(r: Run, cfg: Config, i: nat)
    requires Fixed(r, cfg) && FaultFree(r) && cfg.steps != [] && ReadyToRoll(cfg, At(r, 0)) && i <= |r.events|
    ensures !Astray(r, cfg, i)
  {
    if i == 0 {
    } else {
      FaultFreeNeverAstray(r, cfg, i - 1);
      RunShaped(r, cfg, i - 1);
      WorkingWritesHold(r.events[i - 1], At(r, i - 1));
      PlanMoves(r.events[i - 1].spec, At(r, i - 1).status, r.events[i - 1].env);
    }
  }

  /** A promoted canary has the last step's weight unless the route is astray, and nothing if it is; so it has all the
      traffic exactly when that weight is 100 and the route is not astray. A last weight of zero is the one exception: a
      route astray can then hold any earlier weight, as PromotedBeyondZero shows. */
  lemma PromotedShare(r: Run, cfg: Config, i: nat)
    requires Fixed(r, cfg) && cfg.steps != [] && ReadyToRoll(cfg, At(r, 0)) && i <= |r.events|
    requires At(r, i).status.phase == PhasePromoted
    ensures var last, share := cfg.steps[|cfg.steps| - 1].weight, CanaryShare(cfg, At(r, i).vs);
      (!Astray(r, cfg, i) ==> share == last)
      && (last > 0 ==> share == (if Astray(r, cfg, i) then 0 else last))
      && (last > 0 ==> (share == 100 <==> last == 100 && !Astray(r, cfg, i)))
  {
    RouteHolds(r, cfg, i);
  }

  /** Without write faults, and whatever the weights, that is exactly when the last step's weight is 100. */
  lemma FaultFreePromotedShare(r: Run, cfg: Config, i: nat)
    requires Fixed(r, cfg) && FaultFree(r) && cfg.steps != [] && ReadyToRoll(cfg, At(r, 0)) && i <= |r.events|
    requires At(r, i).status.phase == PhasePromoted
    ensures CanaryShare(cfg, At(r, i).vs) == 100 <==> cfg.steps[|cfg.steps| - 1].weight == 100
  {
    FaultFreeNeverAstray(r, cfg, i);
    RouteHolds(r, cfg, i);
  }

  // ---------------------------------------------------------------- runs in which status and traffic part

  const CANARY: string := "canary"
  const STABLE: string := "stable"

  // One entry for each host, all traffic on stable.
  function InitialRoute(): VirtualService {
    VirtualService(Some([HttpRoute(Some([Destination(Some(STABLE), Some(100), ""),
                                         Destination(Some(CANARY), Some(0), "")]), "")]), "")
  }

  function OneStep(weight: int, pauseSeconds: int, analysis: Option<Analysis>): Config {
    Config(STABLE, CANARY, [Step(weight, pauseSeconds)], analysis.Some?, analysis)
  }

  lemma CountOfTwo(a: Entry, c: Entry, host: string)
    ensures Count([a, c], host) == Hit(a, host) + Hit(c, host)
    ensures Share([a, c], host) == Weight(a, host) + Weight(c, host)
  {
    var two, one := [a, c], [a];
    assert two[..|two| - 1] == one && one[..|one| - 1] == [];
    assert Count(two, host) == Count(one, host) + Hit(c, host);
    assert Share(two, host) == Share(one, host) + Weight(c, host);
  }

  lemma InitialRouteIsReady(cfg: Config)
    requires cfg.stableHost == STABLE && cfg.canaryHost == CANARY
    ensures ReadyToRoll(cfg, World(Status(PhaseUnset, 0, 0, 0, []), InitialRoute()))
  {
    var stable, canary := Destination(Some(STABLE), Some(100), ""), Destination(Some(CANARY), Some(0), "");
    assert [stable, canary][..1] == [stable];
    assert STABLE[0] != CANARY[0];
    CountOfTwo(stable, canary, STABLE);
    CountOfTwo(stable, canary, CANARY);
  }

  // Two reconciles bring a fresh rollout to its first step.
  lemma FirstStepSet(cfg: Config) returns (r: Run)
    requires cfg.stableHost == STABLE && cfg.canaryHost == CANARY && cfg.steps != [] && cfg.steps[0].weight != 0
    ensures |r.events| == 2 && FaultFree(r) && ReadyToRoll(cfg, At(r, 0))
    ensures forall i :: 0 <= i < 2 ==> r.events[i].spec == Spec(cfg, false, false)
    ensures At(r, 2).status == Status(PhaseRunning, 0, cfg.steps[0].weight, 0, [])
    ensures Routable(cfg, At(r, 2).vs) && CanaryShare(cfg, At(r, 2).vs) == cfg.steps[0].weight
  {
    InitialRouteIsReady(cfg);
    var tick := Tick(cfg, 0, []);
    var r1 := Then(Begin(World(Status(PhaseUnset, 0, 0, 0, []), InitialRoute())), tick);
    assert At(r1, 1) == World(Status(PhaseRunning, 0, 0, 0, []), InitialRoute());
    r := Then(r1, tick);
    LandsAsTold(cfg, tick, At(r1, 1));
    WorkingWritesHold(tick, At(r1, 1));
  }

  // The last step, without a pause or an analysis, is left for Promoted.
  lemma LastStepLeft(cfg: Config, ev: Event, w: World)
    requires AtWeight(cfg, w.status) && w.status.currentStep + 1 == |cfg.steps| && cfg.analysis == None
    requires Pause(cfg.steps[w.status.currentStep]) == 0 && ev.env.now >= w.status.lastTransition
    requires ev == Tick(cfg, ev.env.now, ev.env.readings)
    ensures var w' := Next(ev.spec, w, ev.env);
      w'.status.phase == PhasePromoted && w'.status.currentWeight == 100 && w'.vs == w.vs
  {}

  /** A fault-free run that ends promoted with half of the traffic still on stable. */
  lemma PromotedAtHalf() returns (r: Run, cfg: Config)
    ensures Fixed(r, cfg) && FaultFree(r) && ReadyToRoll(cfg, At(r, 0)) && PositiveWeights(cfg)
    ensures var w := At(r, |r.events|);
      w.status.phase == PhasePromoted && w.status.currentWeight == 100
      && CanaryShare(cfg, w.vs) == 50 && StableShare(cfg, w.vs) == 50
  {
    cfg := OneStep(50, 0, None);
    var r2 := FirstStepSet(cfg);
    var tick := Tick(cfg, 0, []);
    LastStepLeft(cfg, tick, At(r2, 2));
    r := Then(r2, tick);
    RunShaped(r, cfg, 3);
  }

  // A readiness timeout of which only the patch arrives.
  lemma TimeoutHalfLost(cfg: Config, ev: Event, w: World)
    requires Active(w.status) && w.status.currentStep < |cfg.steps| && Routable(cfg, w.vs)
    requires ev.spec == Spec(cfg, false, false) && ev.env.fetch == Found && ev.env.readiness == NotReady
    requires ev.env.now - w.status.lastTransition > READINESS_TIMEOUT
    requires ev.env.meshRead && ev.env.meshWrite == Acknowledged && ev.env.statusWrite == Rejected
    ensures var w' := Next(ev.spec, w, ev.env);
      w'.status == w.status && Routable(cfg, w'.vs) && CanaryShare(cfg, w'.vs) == 0
  {
    LandsAsTold(cfg, ev, w);
  }

  /** A run with one lost write that ends promoted, its last weight 100, with no traffic on the canary at all. */
  lemma PromotedAstray() returns (r: Run, cfg: Config)
    ensures Fixed(r, cfg) && ReadyToRoll(cfg, At(r, 0)) && PositiveWeights(cfg) && |r.events| == 4
    ensures forall i :: 0 <= i < |r.events| && i != 2 ==> WritesWork(r.events[i].env)
    ensures var w := At(r, |r.events|);
      w.status.phase == PhasePromoted && w.status.currentWeight == 100
      && cfg.steps != [] && cfg.steps[|cfg.steps| - 1].weight == 100 && CanaryShare(cfg, w.vs) == 0
  {
    cfg := OneStep(100, 0, None);
    var r2 := FirstStepSet(cfg);
    var timeout := Tick(cfg, READINESS_TIMEOUT + 1, []);
    timeout := timeout.(env := timeout.env.(readiness := NotReady, statusWrite := Rejected));
    TimeoutHalfLost(cfg, timeout, At(r2, 2));
    var r3 := Then(r2, timeout);
    var tick := Tick(cfg, READINESS_TIMEOUT + 2, []);
    LastStepLeft(cfg, tick, At(r3, 3));
    r := Then(r3, tick);
  }

  // A readiness timeout of which only the status arrives.
  lemma TimeoutUnpatched(cfg: Config, ev: Event, w: World)
    requires Active(w.status) && w.status.currentStep < |cfg.steps|
    requires ev.spec == Spec(cfg, false, false) && ev.env.fetch == Found && ev.env.readiness == NotReady
    requires ev.env.now - w.status.lastTransition > READINESS_TIMEOUT
    requires ev.env.meshWrite == Rejected && ev.env.statusWrite == Acknowledged
    ensures Next(ev.spec, w, ev.env)
            == World(Transition(w.status, PhaseFailed, w.status.currentStep, 0, ev.env.now), w.vs)
  {}

  // A step without a pause or an analysis is left for the next one.
  lemma StepLeft(cfg: Config, ev: Event, w: World)
    requires AtWeight(cfg, w.status) && w.status.currentStep + 1 < |cfg.steps| && cfg.analysis == None
    requires Pause(cfg.steps[w.status.currentStep]) == 0 && ev.env.now >= w.status.lastTransition
    requires ev == Tick(cfg, ev.env.now, ev.env.readings)
    ensures Next(ev.spec, w, ev.env)
            == World(Status(PhaseRunning, w.status.currentStep + 1, w.status.currentWeight, ev.env.now, []), w.vs)
  {}

  /** Where the last weight is zero: a run with one lost write that ends promoted with all traffic on the canary. */
  lemma PromotedBeyondZero() returns (r: Run, cfg: Config)
    ensures Fixed(r, cfg) && ReadyToRoll(cfg, At(r, 0)) && |r.events| == 5
    ensures forall i :: 0 <= i < |r.events| && i != 3 ==> WritesWork(r.events[i].env)
    ensures cfg.steps == [Step(100, 0), Step(0, 0)]
    ensures At(r, 5).status.phase == PhasePromoted && CanaryShare(cfg, At(r, 5).vs) == 100
  {
    cfg := Config(STABLE, CANARY, [Step(100, 0), Step(0, 0)], false, None);
    var r2 := FirstStepSet(cfg);
    var leave := Tick(cfg, 0, []);
    StepLeft(cfg, leave, At(r2, 2));
    var r3 := Then(r2, leave);
    var timeout := Tick(cfg, READINESS_TIMEOUT + 1, []);
    timeout := timeout.(env := timeout.env.(readiness := NotReady, meshWrite := Rejected));
    TimeoutUnpatched(cfg, timeout, At(r3, 3));
    var r4 := Then(r3, timeout);
    var tick := Tick(cfg, READINESS_TIMEOUT + 2, []);
    LastStepLeft(cfg, tick, At(r4, 4));
    r := Then(r4, tick);
  }

  // ---------------------------------------------------------------- a rollback that keeps its traffic

  function OneMetric(): Analysis {
    Analysis(0.25, 0.25, 10, [Metric("errors", 0.5)])
  }

  // One request, failed, against a stable version that fails one in four.
  function OneFailure(): Reading {
    Sampled(Some(1), Some(1), Some(4), Some(1))
  }

  lemma OneFailureRollsBack()
    ensures var c := Cycle(OneMetric(), [], [OneFailure()]); c.Decided? && c.decision == RollBack
  {
    var an, readings := OneMetric(), [OneFailure()];
    assert Before(an, [], 0) == Fresh("errors");
    var p0 := Baseline(OneFailure());
    assert p0 == 0.25;
    var p1 := Alternative(p0, an.metrics[0]);
    assert FailureFactor(p0, p1) == 3.0;
    assert an.Limits().upper == 3.0;
    assert Scaling.Scale(1.0, 3.0, 1) == Scaling.Scale(3.0, 3.0, 0);
    assert After(an, [], readings, 0).value.ratio == 3.0;
    assert RollsBack(an, [], readings, 0);
    assert FirstStop(an, [], readings, 0) == 0;
  }

  // The third and last reconcile of r, none of them asked to abort, rolls back and is refused its patch.
  ghost predicate KeepsTraffic(r: Run, cfg: Config) {
    |r.events| == 3 && Fixed(r, cfg) && ReadyToRoll(cfg, At(r, 0)) && PositiveWeights(cfg)
    && (forall i :: 0 <= i < 3 ==> !r.events[i].spec.abort && (i < 2 ==> WritesWork(r.events[i].env)))
    && At(r, 2).status.phase == PhaseRunning && At(r, 3).status.phase == PhaseAborted
    && At(r, 3).status.currentWeight == 0 && CanaryShare(cfg, At(r, 3).vs) == 50
  }

  // A rollback whose patch is rejected and whose status is stored.
  lemma RollbackKeepsRoute(cfg: Config, an: Analysis, poll: Event, w: World)
    requires AtWeight(cfg, w.status) && cfg.prometheus && cfg.analysis == Some(an) && poll.spec == Spec(cfg, false, false)
    requires poll.env.fetch == Found && poll.env.readiness == Ready && poll.env.clientOk
    requires poll.env.meshWrite == Rejected && poll.env.statusWrite == Acknowledged
    requires Cycle(an, w.status.analysis, poll.env.readings).Decided?
    requires Cycle(an, w.status.analysis, poll.env.readings).decision == RollBack
    ensures var w' := Next(poll.spec, w, poll.env);
      w'.vs == w.vs && w'.status.phase == PhaseAborted && w'.status.currentWeight == 0
  {}

  lemma RollbackUnpatched(an: Analysis, readings: seq<Reading>) returns (r: Run, cfg: Config)
    requires Cycle(an, [], readings).Decided? && Cycle(an, [], readings).decision == RollBack
    ensures KeepsTraffic(r, cfg)
  {
    cfg := OneStep(50, 60, Some(an));
    var r2 := FirstStepSet(cfg);
    var poll := Tick(cfg, 0, readings);
    poll := poll.(env := poll.env.(meshWrite := Rejected));
    RollbackKeepsRoute(cfg, an, poll, At(r2, 2));
    r := Then(r2, poll);
  }

  /** A run whose analyzer rolls back while the patch is rejected: the canary keeps its traffic in Aborted. */
  lemma AbortedWithTraffic() returns (r: Run, cfg: Config)
    ensures KeepsTraffic(r, cfg)
  {
    OneFailureRollsBack();
    r, cfg := RollbackUnpatched(OneMetric(), [OneFailure()]);
  }
}
