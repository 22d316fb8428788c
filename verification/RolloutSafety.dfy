/** What holds in every world a controller run can reach. */
module RolloutSafety {
  import opened Wrappers
  import opened Sprt
  import opened VirtualServices
  import opened Rollout

  type Run = r: RawRun | r.Behaves() ghost witness IDLE

  // One reconcile's inputs: the spec as it stands at that moment, and the environment.
  datatype Event = Event(spec: Spec, env: Env)
  // The worlds a run goes through, one more than it has events.
  datatype RawRun = Run(worlds: seq<World>, events: seq<Event>) {
    ghost predicate Steps(i: nat)
      requires i < |events| && |worlds| == |events| + 1
    {
      worlds[i + 1] == Next(events[i].spec, worlds[i], events[i].env)
    }

    ghost predicate Behaves() {
      |worlds| == |events| + 1 && forall i :: 0 <= i < |events| ==> Steps(i)
    }
  }

  ghost const IDLE: RawRun :=
    Run([World(Status(PhaseUnset, 0, 0, 0, []), VirtualService(None, ""))], [])

  function At(r: Run, i: nat): World
    requires i <= |r.events|
  {
    r.worlds[i]
  }

  // World i + 1 comes out of reconcile i.
  lemma Reconciled(r: Run, i: nat)
    requires i < |r.events|
    ensures At(r, i + 1) == Next(r.events[i].spec, At(r, i), r.events[i].env)
  {
    assert r.Steps(i);
  }

  // A run that has not begun, and a run with one more reconcile.
  function Begin(w: World): (r: Run)
    ensures r.events == [] && At(r, 0) == w
  {
    var r: RawRun := Run([w], []);
    r
  }

  function Then(r: Run, ev: Event): (r': Run)
    ensures r'.events == r.events + [ev]
    ensures forall i :: 0 <= i <= |r.events| ==> At(r', i) == At(r, i)
    ensures At(r', |r.events| + 1) == Next(ev.spec, At(r, |r.events|), ev.env)
  {
    var r' := Run(r.worlds + [Next(ev.spec, At(r, |r.events|), ev.env)], r.events + [ev]);
    assert forall i :: 0 <= i < |r'.events| ==> r'.Steps(i) by {
      forall i | 0 <= i < |r'.events| ensures r'.Steps(i) {
        if i < |r.events| {
          Reconciled(r, i);
        }
      }
    }
    r'
  }

  ghost predicate Fixed(r: Run, cfg: Config) {
    forall i :: 0 <= i < |r.events| ==> r.events[i].spec.config == cfg
  }

  predicate WritesWork(env: Env) {
    env.meshRead && env.meshWrite == Acknowledged && env.statusWrite == Acknowledged
  }

  ghost predicate FaultFree(r: Run) {
    forall i :: 0 <= i < |r.events| ==> WritesWork(r.events[i].env)
  }

  // A reconcile with working reads and writes and ready pods, that nobody asks to pause or abort.
  function Tick(cfg: Config, now: int, readings: seq<Reading>): Event {
    Event(Spec(cfg, false, false), Env(now, Found, Ready, true, readings, true, Acknowledged, Acknowledged))
  }

  // A resource nobody has reconciled yet.
  predicate FreshStatus(st: Status) {
    (st.phase == PhaseUnset || st.phase == PhasePending)
    && st.currentStep == 0 && st.currentWeight == 0 && st.analysis == []
  }

  // ---------------------------------------------------------------- the moves of the machine

  predicate NotStarted(st: Status) {
    st.phase == PhaseUnset || st.phase == PhasePending
  }

  // Failed is not terminal: the step logic treats it like Running.
  predicate Active(st: Status) {
    st.phase == PhaseRunning || st.phase == PhaseFailed
  }

  predicate Aborts(st: Status, e: Effect) {
    st.phase != PhaseAborted && e.patch == Some(0) && e.flush.Some?
    && e.flush.value.phase == PhaseAborted && e.flush.value.currentStep == st.currentStep
    && e.flush.value.currentWeight == 0
  }

  predicate GivesUp(st: Status, e: Effect) {
    Active(st) && e.patch == Some(0) && !e.mustPatch && e.flush.Some?
    && e.flush.value == Transition(st, PhaseFailed, st.currentStep, 0, e.flush.value.lastTransition)
  }

  predicate NotTogglable(st: Status) {
    st.phase == PhasePromoted || st.phase == PhaseAborted
  }

  predicate Toggles(st: Status, e: Effect) {
    e.patch == None && e.flush.Some? && !NotTogglable(st)
    && (e.flush.value.phase == PhasePaused || (e.flush.value.phase == PhaseRunning && st.phase == PhasePaused))
    && e.flush.value == Transition(st, e.flush.value.phase, st.currentStep, st.currentWeight, e.flush.value.lastTransition)
  }

  predicate Starts(st: Status, e: Effect) {
    NotStarted(st) && e.patch == None && e.flush.Some?
    && e.flush.value == Transition(st, PhaseRunning, 0, 0, e.flush.value.lastTransition)
  }

  predicate Overruns(cfg: Config, st: Status, e: Effect) {
    Active(st) && st.currentStep >= |cfg.steps| && e.patch == None && e.flush.Some?
    && e.flush.value == Transition(st, PhasePromoted, st.currentStep, 100, e.flush.value.lastTransition)
  }

  predicate SetsWeight(cfg: Config, st: Status, e: Effect) {
    Active(st) && st.currentStep < |cfg.steps| && st.currentWeight != cfg.steps[st.currentStep].weight
    && e.patch == Some(cfg.steps[st.currentStep].weight) && e.mustPatch && e.flush.Some?
    && e.flush.value == Transition(st, PhaseRunning, st.currentStep, cfg.steps[st.currentStep].weight,
                                   e.flush.value.lastTransition)
  }

  predicate AtWeight(cfg: Config, st: Status) {
    Active(st) && st.currentStep < |cfg.steps| && st.currentWeight == cfg.steps[st.currentStep].weight
  }

  // Only the analysis states are stored anew.
  predicate Observes(cfg: Config, st: Status, e: Effect) {
    AtWeight(cfg, st) && e.patch == None && e.flush.Some?
    && e.flush.value == st.(analysis := e.flush.value.analysis)
  }

  predicate Advances(cfg: Config, st: Status, e: Effect) {
    AtWeight(cfg, st) && e.patch == None && e.flush.Some?
    && e.flush.value ==
       (if st.currentStep + 1 >= |cfg.steps|
        then Status(PhasePromoted, st.currentStep + 1, 100, e.flush.value.lastTransition, [])
        else Status(PhaseRunning, st.currentStep + 1, st.currentWeight, e.flush.value.lastTransition, []))
  }

  predicate Idles(e: Effect) {
    e.patch == None && e.flush == None
  }

  predicate Moves(cfg: Config, st: Status, e: Effect) {
    Idles(e) || Aborts(st, e) || GivesUp(st, e) || Toggles(st, e) || Starts(st, e) || Overruns(cfg, st, e)
    || SetsWeight(cfg, st, e) || Observes(cfg, st, e) || Advances(cfg, st, e)
  }

  /** Every plan is one of nine moves. */
  lemma PlanMoves(spec: Spec, st: Status, env: Env)
    ensures Moves(spec.config, st, Plan(spec, st, env))
  {}

  /** Failed is not terminal: a failed rollout does whatever a running one in its place would. */
  lemma FailedIsNotTerminal(spec: Spec, st: Status, env: Env)
    requires st.phase == PhaseFailed
    ensures var failed, running := Plan(spec, st, env), Plan(spec, st.(phase := PhaseRunning), env);
      failed.patch == running.patch && failed.mustPatch == running.mustPatch && failed.result == running.result
      && (failed.flush == running.flush
          || (failed.flush.Some? && running.flush.Some?
              && failed.flush.value.(phase := PhaseRunning) == running.flush.value))
  {}

  // ---------------------------------------------------------------- phases, under any spec edits

  /** Aborted is absorbing: nothing, and no edit of the spec, changes the status or the weights again. */
  lemma {:induction false} AbortedIsFinal(r: Run, i: nat, j: nat)
    requires i <= j <= |r.events| && At(r, i).status.phase == PhaseAborted
    ensures At(r, j) == At(r, i)
    decreases j
  {
    if i < j {
      Reconciled(r, j - 1);
      AbortedIsFinal(r, i, j - 1);
    }
  }

  lemma NotYetAborted(r: Run, i: nat, j: nat)
    requires i <= j <= |r.events| && At(r, j).status.phase != PhaseAborted
    ensures At(r, i).status.phase != PhaseAborted
  {
    if At(r, i).status.phase == PhaseAborted {
      AbortedIsFinal(r, i, j);
    }
  }

  /** Promoted can only be left for Aborted, and until then the status stands still. */
  lemma {:induction false} PromotedOnlyAborts(r: Run, i: nat, j: nat)
    requires i <= j <= |r.events| && At(r, i).status.phase == PhasePromoted
    ensures At(r, j).status == At(r, i).status || At(r, j).status.phase == PhaseAborted
    decreases j
  {
    if i < j {
      Reconciled(r, j - 1);
      PromotedOnlyAborts(r, i, j - 1);
      var ev, st := r.events[j - 1], At(r, j - 1).status;
      if st.phase == PhasePromoted {
        PlanMoves(ev.spec, st, ev.env);
      }
    }
  }

  lemma LandStarted(cfg: Config, e: Effect, w: World, env: Env)
    requires Moves(cfg, w.status, e) && (NotStarted(w.status) ==> FreshStatus(w.status))
    ensures var st := Land(cfg, e, w, env).status;
      (NotStarted(st) ==> FreshStatus(st))
      && w.status.currentStep <= st.currentStep <= w.status.currentStep + 1
  {}

  lemma {:induction false} NotStartedIsFresh(r: Run, i: nat)
    requires FreshStatus(At(r, 0).status) && i <= |r.events|
    ensures NotStarted(At(r, i).status) ==> FreshStatus(At(r, i).status)
  {
    if i == 0 {
    } else {
      Reconciled(r, i - 1);
      NotStartedIsFresh(r, i - 1);
      var ev, w := r.events[i - 1], At(r, i - 1);
      PlanMoves(ev.spec, w.status, ev.env);
      LandStarted(ev.spec.config, Plan(ev.spec, w.status, ev.env), w, ev.env);
    }
  }

  /** The step index never decreases and grows by at most one per reconcile. */
  lemma {:induction false} StepsMoveForward(r: Run, i: nat, j: nat)
    requires FreshStatus(At(r, 0).status) && i <= j <= |r.events|
    ensures At(r, i).status.currentStep <= At(r, j).status.currentStep <= At(r, i).status.currentStep + (j - i)
    decreases j
  {
    if i < j {
      Reconciled(r, j - 1);
      StepsMoveForward(r, i, j - 1);
      NotStartedIsFresh(r, j - 1);
      var ev, w := r.events[j - 1], At(r, j - 1);
      PlanMoves(ev.spec, w.status, ev.env);
      LandStarted(ev.spec.config, Plan(ev.spec, w.status, ev.env), w, ev.env);
    }
  }

  // ---------------------------------------------------------------- the step index stays in range

  predicate StepInRange(cfg: Config, st: Status) {
    (st.phase == PhasePromoted ==> st.currentStep == |cfg.steps|)
    && (st.phase != PhasePromoted && st.phase != PhaseAborted ==> st.currentStep < |cfg.steps|)
    && st.currentStep <= |cfg.steps|
    && (NotStarted(st) ==> FreshStatus(st))
  }

  lemma LandInRange(cfg: Config, e: Effect, w: World, env: Env)
    requires Moves(cfg, w.status, e) && StepInRange(cfg, w.status)
    ensures StepInRange(cfg, Land(cfg, e, w, env).status)
  {}

  lemma {:induction false} StepsInRange(r: Run, cfg: Config, i: nat)
    requires Fixed(r, cfg) && cfg.steps != [] && FreshStatus(At(r, 0).status) && i <= |r.events|
    ensures StepInRange(cfg, At(r, i).status)
  {
    if i == 0 {
    } else {
      Reconciled(r, i - 1);
      StepsInRange(r, cfg, i - 1);
      var ev, w := r.events[i - 1], At(r, i - 1);
      PlanMoves(ev.spec, w.status, ev.env);
      LandInRange(cfg, Plan(ev.spec, w.status, ev.env), w, ev.env);
    }
  }

  // Reconcile number i takes the branch for a step index beyond the last step.
  ghost predicate OverrunAt(r: Run, i: nat)
    requires i < |r.events|
  {
    var ev, st := r.events[i], At(r, i).status;
    ev.env.fetch == Found && !ev.spec.abort && !ev.spec.paused && Active(st)
    && st.currentStep >= |ev.spec.config.steps|
  }

  ghost predicate OverrunReachable(cfg: Config) {
    exists r: Run, i: nat :: i < |r.events| && Fixed(r, cfg) && FreshStatus(At(r, 0).status) && OverrunAt(r, i)
  }

  // Two reconciles of a fresh resource.
  lemma ShortRun(cfg: Config) returns (r: Run)
    ensures |r.events| == 2 && Fixed(r, cfg) && FreshStatus(At(r, 0).status)
    ensures r.events[1].env.fetch == Found && !r.events[1].spec.abort && !r.events[1].spec.paused
    ensures At(r, 1).status == Status(PhaseRunning, 0, 0, 0, [])
  {
    var ev := Event(Spec(cfg, false, false), Env(0, Found, Ready, true, [], true, Acknowledged, Acknowledged));
    var w0 := World(Status(PhasePending, 0, 0, 0, []), VirtualService(None, ""));
    var w1 := Next(ev.spec, w0, ev.env);
    var w2 := Next(ev.spec, w1, ev.env);
    var raw := Run([w0, w1, w2], [ev, ev]);
    assert raw.Steps(0) && raw.Steps(1);
    r := raw;
  }

  /** With a fixed step list the overrun branch can be reached exactly when the list is empty. */
  lemma OverrunOnlyWithoutSteps(cfg: Config)
    ensures OverrunReachable(cfg) <==> cfg.steps == []
  {
    if cfg.steps != [] {
      forall r: Run, i: nat | i < |r.events| && Fixed(r, cfg) && FreshStatus(At(r, 0).status)
        ensures !OverrunAt(r, i)
      {
        StepsInRange(r, cfg, i);
      }
    } else {
      var r := ShortRun(cfg);
      assert OverrunAt(r, 1);
    }
  }

  // ---------------------------------------------------------------- no stranded verdict

  predicate NoRollback(states: seq<MetricState>) {
    forall s :: s in states ==> s.verdict != Rollback
  }

  lemma {:induction false} FindNoRollback(states: seq<MetricState>, name: string)
    requires NoRollback(states)
    ensures FindOrInit(states, name).verdict != Rollback
  {
    if states == [] {
    } else {
      assert states[0] in states;
      FindNoRollback(states[1..], name);
    }
  }

  lemma CycleNoRollback(an: Analysis, current: seq<MetricState>, readings: seq<Reading>)
    requires NoRollback(current)
    ensures var c := Cycle(an, current, readings); c.Decided? && c.decision != RollBack ==> NoRollback(c.states)
  {
    var k := FirstStop(an, current, readings, 0);
    forall i | 0 <= i < k ensures After(an, current, readings, i).value.verdict != Rollback {
      FindNoRollback(current, an.metrics[i].name);
    }
  }

  lemma PlanNoRollback(spec: Spec, st: Status, env: Env)
    requires NoRollback(st.analysis) && st.phase != PhaseAborted
    ensures var e := Plan(spec, st, env);
      e.flush.Some? ==> e.flush.value.phase == PhaseAborted || NoRollback(e.flush.value.analysis)
  {
    if spec.config.analysis.Some? {
      CycleNoRollback(spec.config.analysis.value, st.analysis, env.readings);
    }
  }

  /** A rollback verdict is stored only together with the Aborted phase, whatever writes fail and however the
      spec is edited; the analyzer would skip such a metric forever and never report the rollback. */
  lemma {:induction false} NoStrandedVerdict(r: Run, i: nat)
    requires FreshStatus(At(r, 0).status) && i <= |r.events|
    ensures At(r, i).status.phase == PhaseAborted || NoRollback(At(r, i).status.analysis)
  {
    if i == 0 {
    } else {
      Reconciled(r, i - 1);
      NoStrandedVerdict(r, i - 1);
      var ev, st := r.events[i - 1], At(r, i - 1).status;
      if st.phase != PhaseAborted {
        PlanNoRollback(ev.spec, st, ev.env);
      }
    }
  }

  // ---------------------------------------------------------------- traffic weights

  // One route entry for each of two distinct hosts.
  predicate Routable(cfg: Config, vs: VirtualService) {
    cfg.stableHost != cfg.canaryHost && FirstRoute(vs).Some?
    && Count(FirstRoute(vs).value, cfg.stableHost) == 1 && Count(FirstRoute(vs).value, cfg.canaryHost) == 1
  }

  function CanaryShare(cfg: Config, vs: VirtualService): int {
    if FirstRoute(vs).Some? then Share(FirstRoute(vs).value, cfg.canaryHost) else 0
  }

  function StableShare(cfg: Config, vs: VirtualService): int {
    if FirstRoute(vs).Some? then Share(FirstRoute(vs).value, cfg.stableHost) else 0
  }

  lemma PatchedShares(cfg: Config, vs: VirtualService, weight: int)
    requires Routable(cfg, vs)
    ensures var p := Patched(vs, PatchFor(cfg, weight));
      p.Some? && Routable(cfg, p.value)
      && CanaryShare(cfg, p.value) == weight && StableShare(cfg, p.value) == 100 - weight
  {
    var routes := FirstRoute(vs).value;
    RewriteShares(routes, PatchFor(cfg, weight), cfg.canaryHost);
    RewriteShares(routes, PatchFor(cfg, weight), cfg.stableHost);
  }

  /** A reconcile leaves the shares alone or sets them to its patch; with working writes it does the latter. */
  lemma AttemptShares(cfg: Config, e: Effect, vs: VirtualService, env: Env)
    requires Routable(cfg, vs)
    ensures var a := PatchAttempt(cfg, e, vs, env);
      Routable(cfg, a.vs)
      && (a.vs == vs
          || (e.patch.Some? && CanaryShare(cfg, a.vs) == e.patch.value && StableShare(cfg, a.vs) == 100 - e.patch.value))
      && (e.patch.Some? && a.ok ==>
            CanaryShare(cfg, a.vs) == e.patch.value && StableShare(cfg, a.vs) == 100 - e.patch.value)
      && (WritesWork(env) ==> a.ok)
      && (e.patch == None ==> a.vs == vs && a.ok)
  {
    if e.patch.Some? {
      PatchedShares(cfg, vs, e.patch.value);
    }
  }

  // The patch to zero goes through, whatever the caller is told about it.
  predicate PatchArrives(env: Env) {
    env.meshRead && env.meshWrite != Rejected
  }

  lemma PlanAborts(spec: Spec, st: Status, env: Env)
    ensures var e := Plan(spec, st, env);
      st.phase != PhaseAborted && e.flush.Some? && e.flush.value.phase == PhaseAborted ==>
        e.patch == Some(0) && (e.mustPatch <==> spec.abort)
  {}

  /** An abort drains the canary for good exactly when it was requested by the operator, or there was nothing to
      drain, or the patch arrived: a rollback by the analyzer that cannot patch the route leaves the canary its
      traffic in a phase nothing ever leaves. */
  lemma AbortDrains(r: Run, cfg: Config, i: nat, j: nat)
    requires Fixed(r, cfg) && i < j <= |r.events| && Routable(cfg, At(r, i).vs)
    requires At(r, i).status.phase != PhaseAborted && At(r, i + 1).status.phase == PhaseAborted
    ensures CanaryShare(cfg, At(r, j).vs) == 0
            <==> r.events[i].spec.abort || CanaryShare(cfg, At(r, i).vs) == 0 || PatchArrives(r.events[i].env)
  {
    var ev, w := r.events[i], At(r, i);
    Reconciled(r, i);
    AbortedIsFinal(r, i + 1, j);
    PlanAborts(ev.spec, w.status, ev.env);
    AttemptShares(cfg, Plan(ev.spec, w.status, ev.env), w.vs, ev.env);
    PatchedShares(cfg, w.vs, 0);
  }

  // A world as the operator finds it before a rollout: all traffic on stable.
  predicate ReadyToRoll(cfg: Config, w: World) {
    FreshStatus(w.status) && Routable(cfg, w.vs) && CanaryShare(cfg, w.vs) == 0 && StableShare(cfg, w.vs) == 100
  }

  // Zero, the weight of the current step or that of the step before it.
  predicate Owed(cfg: Config, step: nat, weight: int) {
    weight == 0
    || (step < |cfg.steps| && weight == cfg.steps[step].weight)
    || (0 < step <= |cfg.steps| && weight == cfg.steps[step - 1].weight)
  }

  ghost predicate PositiveWeights(cfg: Config) {
    forall s :: s in cfg.steps ==> s.weight > 0
  }

  predicate Exposed(cfg: Config, w: World) {
    var c := w.status.currentStep;
    Routable(cfg, w.vs) && c <= |cfg.steps|
    && StableShare(cfg, w.vs) + CanaryShare(cfg, w.vs) == 100
    && Owed(cfg, c, CanaryShare(cfg, w.vs))
    && (w.status.phase != PhasePromoted ==> Owed(cfg, c, w.status.currentWeight))
    && (NotStarted(w.status) ==> FreshStatus(w.status))
    && (c < |cfg.steps| && w.status.currentWeight == cfg.steps[c].weight ==>
          CanaryShare(cfg, w.vs) == 0 || CanaryShare(cfg, w.vs) == w.status.currentWeight)
  }

  lemma LandExposed(cfg: Config, e: Effect, w: World, env: Env)
    requires Moves(cfg, w.status, e) && Exposed(cfg, w)
    requires w.status.currentStep < |cfg.steps| ==> cfg.steps[w.status.currentStep].weight > 0
    ensures Exposed(cfg, Land(cfg, e, w, env))
  {
    AttemptShares(cfg, e, w.vs, env);
  }

  /** With positive step weights, whatever writes fail or are lost, the canary only ever receives nothing, the
      current step's share or the previous step's, and stable receives the rest. */
  lemma {:induction false} ExposureUnderFaults(r: Run, cfg: Config, i: nat)
    requires Fixed(r, cfg) && ReadyToRoll(cfg, At(r, 0)) && i <= |r.events|
    requires PositiveWeights(cfg)
    ensures Exposed(cfg, At(r, i))
  {
    if i == 0 {
    } else {
      Reconciled(r, i - 1);
      ExposureUnderFaults(r, cfg, i - 1);
      var ev, w := r.events[i - 1], At(r, i - 1);
      PlanMoves(ev.spec, w.status, ev.env);
      LandExposed(cfg, Plan(ev.spec, w.status, ev.env), w, ev.env);
    }
  }

  ghost predicate Reached(cfg: Config, step: nat, weight: int) {
    weight == 0 || exists j :: 0 <= j <= step && j < |cfg.steps| && cfg.steps[j].weight == weight
  }

  ghost predicate OnlyReached(cfg: Config, w: World) {
    Routable(cfg, w.vs) && Reached(cfg, w.status.currentStep, CanaryShare(cfg, w.vs))
    && StableShare(cfg, w.vs) + CanaryShare(cfg, w.vs) == 100
    && (NotStarted(w.status) ==> FreshStatus(w.status))
  }

  lemma LandReached(cfg: Config, e: Effect, w: World, env: Env)
    requires Moves(cfg, w.status, e) && OnlyReached(cfg, w)
    ensures OnlyReached(cfg, Land(cfg, e, w, env))
  {
    AttemptShares(cfg, e, w.vs, env);
    LandStarted(cfg, e, w, env);
  }

  /** With any step weights at all, no step that has not been reached ever receives its share. */
  lemma {:induction false} OnlyReachedSteps(r: Run, cfg: Config, i: nat)
    requires Fixed(r, cfg) && ReadyToRoll(cfg, At(r, 0)) && i <= |r.events|
    ensures OnlyReached(cfg, At(r, i))
  {
    if i == 0 {
    } else {
      Reconciled(r, i - 1);
      OnlyReachedSteps(r, cfg, i - 1);
      var ev, w := r.events[i - 1], At(r, i - 1);
      PlanMoves(ev.spec, w.status, ev.env);
      LandReached(cfg, Plan(ev.spec, w.status, ev.env), w, ev.env);
    }
  }
}
