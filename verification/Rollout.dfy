/** The rollout controller: one reconcile as a step over the stored status and the VirtualService. */
module Rollout {
  import opened Wrappers
  import opened Sprt
  import opened VirtualServices

  // Instants and durations are nanoseconds.
  const SECOND: int := 1_000_000_000
  const READINESS_TIMEOUT: int := 300 * SECOND

  datatype Phase =
    | PhaseUnset | PhasePending | PhaseRunning | PhasePaused | PhasePromoted | PhaseAborted | PhaseFailed

  datatype Status = Status(
    phase: Phase, currentStep: nat, currentWeight: int, lastTransition: int, analysis: seq<MetricState>)

  datatype Step = Step(weight: int, pauseSeconds: int)

  datatype Config = Config(
    stableHost: string, canaryHost: string, steps: seq<Step>, prometheus: bool, analysis: Option<Analysis>)

  datatype Spec = Spec(config: Config, paused: bool, abort: bool)

  datatype Fetch = Found | NotFound | FetchError
  datatype Readiness = Ready | NotReady | CheckFailed

  /** Everything one reconcile learns from outside: the clock, the pods, the four counters of every metric,
      and how its reads and writes fare. */
  datatype Env = Env(
    now: int, fetch: Fetch, readiness: Readiness, clientOk: bool, readings: seq<Reading>,
    meshRead: bool, meshWrite: WriteOutcome, statusWrite: WriteOutcome)

  datatype World = World(status: Status, vs: VirtualService)
  // Failed: an error was returned, and the controller runtime retries on its own schedule.
  datatype Result = Done(requeueAfter: int) | Failed

  // ---------------------------------------------------------------- what a reconcile intends

  /** The intent of one reconcile: the canary weight to patch in, whether a failed patch ends the reconcile,
      the status to store, and what to return. */
  datatype Effect = Effect(patch: Option<int>, mustPatch: bool, flush: Option<Status>, result: Result)

  function Wait(requeueAfter: int): Effect {
    Effect(None, false, None, Done(requeueAfter))
  }

  function Fail(): Effect {
    Effect(None, false, None, Failed)
  }

  function Store(status: Status, requeueAfter: int): Effect {
    Effect(None, false, Some(status), Done(requeueAfter))
  }

  function Transition(st: Status, phase: Phase, step: nat, weight: int, now: int): Status {
    st.(phase := phase, currentStep := step, currentWeight := weight, lastTransition := now)
  }

  function Pause(step: Step): int {
    step.pauseSeconds * SECOND
  }

  function Interval(cfg: Config): int {
    if cfg.analysis.Some? && cfg.analysis.value.intervalSeconds > 0 then cfg.analysis.value.intervalSeconds * SECOND
    else 10 * SECOND
  }

  function Outcome(an: Analysis, st: Status, env: Env): CycleOutcome {
    if env.clientOk then Cycle(an, st.analysis, env.readings) else QueryFailed
  }

  // The gate in front of a step advance.
  predicate GateOpen(cfg: Config, st: Status)
    requires st.currentStep < |cfg.steps|
  {
    Pause(cfg.steps[st.currentStep]) > 0 && cfg.analysis.Some? ==> AllPromoted(st.analysis)
  }

  function PlanTimer(cfg: Config, st: Status, env: Env): (e: Effect)
    requires st.currentStep < |cfg.steps|
    ensures e.patch == None && !e.mustPatch && e.flush.Some? && e.result.Done?
  {
    var remaining := Pause(cfg.steps[st.currentStep]) - (env.now - st.lastTransition);
    if remaining > 0 then Store(st, if remaining < Interval(cfg) then remaining else Interval(cfg))
    else if !GateOpen(cfg, st) then Store(st, Interval(cfg))
    else
      var cleared := st.(analysis := []);
      if st.currentStep + 1 >= |cfg.steps| then
        Store(Transition(cleared, PhasePromoted, st.currentStep + 1, 100, env.now), 0)
      else
        Store(Transition(cleared, PhaseRunning, st.currentStep + 1, st.currentWeight, env.now), SECOND)
  }

  function PlanAnalysis(cfg: Config, st: Status, env: Env): Effect
    requires st.currentStep < |cfg.steps|
  {
    if cfg.prometheus && cfg.analysis.Some? then
      match Outcome(cfg.analysis.value, st, env)
      case QueryFailed => Wait(15 * SECOND)
      case Decided(decision, states) =>
        var next := st.(analysis := states);
        if decision == RollBack then
          Effect(Some(0), false, Some(Transition(next, PhaseAborted, st.currentStep, 0, env.now)), Done(0))
        else PlanTimer(cfg, next, env)
    else PlanTimer(cfg, st, env)
  }

  function PlanReadiness(cfg: Config, st: Status, env: Env): Effect
    requires st.currentStep < |cfg.steps|
  {
    if env.readiness == CheckFailed then Fail()
    else if env.readiness == NotReady then
      if env.now - st.lastTransition > READINESS_TIMEOUT then
        Effect(Some(0), false, Some(Transition(st, PhaseFailed, st.currentStep, 0, env.now)), Done(0))
      else Wait(10 * SECOND)
    else
      var step := cfg.steps[st.currentStep];
      if st.currentWeight != step.weight then
        Effect(Some(step.weight), true, Some(Transition(st, PhaseRunning, st.currentStep, step.weight, env.now)),
               Done(Pause(step)))
      else PlanAnalysis(cfg, st, env)
  }

  function Plan(spec: Spec, st: Status, env: Env): Effect {
    if env.fetch == NotFound then Wait(0)
    else if env.fetch == FetchError then Fail()
    else if st.phase == PhaseAborted then Wait(0)
    else if st.phase == PhasePromoted && !spec.abort then Wait(0)
    else if spec.abort then
      Effect(Some(0), true, Some(Transition(st, PhaseAborted, st.currentStep, 0, env.now)), Done(0))
    else if spec.paused then
      if st.phase == PhasePaused then Wait(0)
      else Store(Transition(st, PhasePaused, st.currentStep, st.currentWeight, env.now), 0)
    else if st.phase == PhasePaused then
      Store(Transition(st, PhaseRunning, st.currentStep, st.currentWeight, env.now), SECOND)
    else if st.phase == PhaseUnset || st.phase == PhasePending then
      Store(Transition(st, PhaseRunning, 0, 0, env.now), SECOND)
    else if st.currentStep >= |spec.config.steps| then
      Store(Transition(st, PhasePromoted, st.currentStep, 100, env.now), 0)
    else PlanReadiness(spec.config, st, env)
  }

  // ---------------------------------------------------------------- what becomes of the intent

  function PatchFor(cfg: Config, weight: int): Patch {
    Complementary(cfg.stableHost, cfg.canaryHost, weight)
  }

  function PatchAttempt(cfg: Config, e: Effect, vs: VirtualService, env: Env): PatchResult {
    if e.patch == None then PatchResult(vs, true)
    else Attempt(vs, PatchFor(cfg, e.patch.value), env.meshRead, env.meshWrite)
  }

  function Land(cfg: Config, e: Effect, w: World, env: Env): World {
    var attempt := PatchAttempt(cfg, e, w.vs, env);
    if e.flush == None || env.statusWrite == Rejected || (e.mustPatch && !attempt.ok) then World(w.status, attempt.vs)
    else World(e.flush.value, attempt.vs)
  }

  function Next(spec: Spec, w: World, env: Env): World {
    Land(spec.config, Plan(spec, w.status, env), w, env)
  }

  function Returned(spec: Spec, w: World, env: Env): Result {
    var e := Plan(spec, w.status, env);
    var attempt := PatchAttempt(spec.config, e, w.vs, env);
    if (e.mustPatch && !attempt.ok) || (e.flush.Some? && env.statusWrite != Acknowledged) then Failed
    else e.result
  }

  // ---------------------------------------------------------------- the imperative controller

  function Reply(ok: bool, requeueAfter: int): Result {
    if ok then Done(requeueAfter) else Failed
  }

  /** The status subresource in the API server. */
  class StatusStore {
    var stored: Status

    constructor (stored: Status)
      ensures this.stored == stored
    {
      this.stored := stored;
    }

    method Update(rollout: CanaryRollout, write: WriteOutcome) returns (ok: bool)
      modifies this
      ensures ok == (write == Acknowledged)
      ensures stored == if write == Rejected then old(stored) else rollout.Snapshot()
    {
      if write != Rejected {
        stored := Status(rollout.phase, rollout.currentStep, rollout.currentWeight,
                         rollout.lastTransition, rollout.analysis);
      }
      return write == Acknowledged;
    }
  }

  /** The copy of the resource a reconcile works on in memory. */
  class CanaryRollout {
    var phase: Phase
    var currentStep: nat
    var currentWeight: int
    var lastTransition: int
    var analysis: seq<MetricState>

    constructor (st: Status)
      ensures Snapshot() == st
    {
      phase, currentStep, currentWeight := st.phase, st.currentStep, st.currentWeight;
      lastTransition, analysis := st.lastTransition, st.analysis;
    }

    ghost function Snapshot(): Status
      reads this
    {
      Status(phase, currentStep, currentWeight, lastTransition, analysis)
    }

    method SetStatus(store: StatusStore, phase: Phase, step: nat, weight: int, now: int, write: WriteOutcome)
      returns (ok: bool)
      modifies this, store
      ensures Snapshot() == Transition(old(Snapshot()), phase, step, weight, now)
      ensures ok == (write == Acknowledged)
      ensures store.stored == if write == Rejected then old(store.stored) else Snapshot()
    {
      this.phase := phase;
      currentStep := step;
      currentWeight := weight;
      lastTransition := now;
      ok := store.Update(this, write);
    }
  }

  class Reconciler {
    const mesh: Mesh
    const store: StatusStore

    constructor (mesh: Mesh, store: StatusStore)
      ensures this.mesh == mesh && this.store == store
    {
      this.mesh, this.store := mesh, store;
    }

    ghost function TheWorld(): World
      reads mesh, store
    {
      World(store.stored, mesh.vs)
    }

    /** One reconcile does to the cluster exactly what its plan says, under every outcome of its writes. */
    method Reconcile(spec: Spec, env: Env) returns (result: Result)
      modifies mesh, store
      ensures TheWorld() == Next(spec, old(TheWorld()), env)
      ensures result == Returned(spec, old(TheWorld()), env)
    {
      if env.fetch == NotFound {
        return Done(0);
      }
      if env.fetch == FetchError {
        return Failed;
      }
      var rollout := new CanaryRollout(store.stored);
      if rollout.phase == PhaseAborted {
        return Done(0);
      }
      if rollout.phase == PhasePromoted && !spec.abort {
        return Done(0);
      }
      if spec.abort {
        var patched := mesh.SetVirtualServiceWeights(PatchFor(spec.config, 0), env.meshRead, env.meshWrite);
        if !patched {
          return Failed;
        }
        var ok := rollout.SetStatus(store, PhaseAborted, rollout.currentStep, 0, env.now, env.statusWrite);
        return Reply(ok, 0);
      }
      if spec.paused {
        if rollout.phase != PhasePaused {
          var ok := rollout.SetStatus(store, PhasePaused, rollout.currentStep, rollout.currentWeight,
                                      env.now, env.statusWrite);
          return Reply(ok, 0);
        }
        return Done(0);
      }
      if rollout.phase == PhasePaused {
        var ok := rollout.SetStatus(store, PhaseRunning, rollout.currentStep, rollout.currentWeight,
                                    env.now, env.statusWrite);
        return Reply(ok, SECOND);
      }
      if rollout.phase == PhaseUnset || rollout.phase == PhasePending {
        var ok := rollout.SetStatus(store, PhaseRunning, 0, 0, env.now, env.statusWrite);
        return Reply(ok, SECOND);
      }
      if rollout.currentStep >= |spec.config.steps| {
        var ok := rollout.SetStatus(store, PhasePromoted, rollout.currentStep, 100, env.now, env.statusWrite);
        return Reply(ok, 0);
      }
      result := ReconcileStep(spec, env, rollout);
    }

    // From the pod readiness check on.
    method ReconcileStep(spec: Spec, env: Env, rollout: CanaryRollout) returns (result: Result)
      requires rollout.Snapshot() == store.stored && rollout.currentStep < |spec.config.steps|
      requires Plan(spec, store.stored, env) == PlanReadiness(spec.config, store.stored, env)
      modifies mesh, store, rollout
      ensures TheWorld() == Next(spec, old(TheWorld()), env)
      ensures result == Returned(spec, old(TheWorld()), env)
    {
      if env.readiness == CheckFailed {
        return Failed;
      }
      if env.readiness == NotReady {
        if env.now - rollout.lastTransition > READINESS_TIMEOUT {
          var _ := mesh.SetVirtualServiceWeights(PatchFor(spec.config, 0), env.meshRead, env.meshWrite);
          var ok := rollout.SetStatus(store, PhaseFailed, rollout.currentStep, 0, env.now, env.statusWrite);
          return Reply(ok, 0);
        }
        return Done(10 * SECOND);
      }
      var step := spec.config.steps[rollout.currentStep];
      if rollout.currentWeight != step.weight {
        var patched := mesh.SetVirtualServiceWeights(PatchFor(spec.config, step.weight), env.meshRead, env.meshWrite);
        if !patched {
          return Failed;
        }
        var ok := rollout.SetStatus(store, PhaseRunning, rollout.currentStep, step.weight, env.now, env.statusWrite);
        return Reply(ok, Pause(step));
      }
      result := ReconcileAnalysis(spec, env, rollout);
    }

    // From the SPRT block on; the weight of the current step is in place.
    method ReconcileAnalysis(spec: Spec, env: Env, rollout: CanaryRollout) returns (result: Result)
      requires rollout.Snapshot() == store.stored && rollout.currentStep < |spec.config.steps|
      requires Plan(spec, store.stored, env) == PlanAnalysis(spec.config, store.stored, env)
      modifies mesh, store, rollout
      ensures TheWorld() == Next(spec, old(TheWorld()), env)
      ensures result == Returned(spec, old(TheWorld()), env)
    {
      var cfg := spec.config;
      if cfg.prometheus && cfg.analysis.Some? {
        var outcome := RunSprt(cfg.analysis.value, env.clientOk, rollout.analysis, env.readings);
        if outcome.QueryFailed? {
          return Done(15 * SECOND);
        }
        rollout.analysis := outcome.states;
        if outcome.decision == RollBack {
          var _ := mesh.SetVirtualServiceWeights(PatchFor(cfg, 0), env.meshRead, env.meshWrite);
          var ok := rollout.SetStatus(store, PhaseAborted, rollout.currentStep, 0, env.now, env.statusWrite);
          return Reply(ok, 0);
        }
      }
      result := ReconcileTimer(cfg, env, rollout);
    }

    // The timer, the gate and the advance; the status in memory may carry new analysis states.
    method ReconcileTimer(cfg: Config, env: Env, rollout: CanaryRollout) returns (result: Result)
      requires rollout.currentStep < |cfg.steps|
      modifies store, rollout
      ensures var e := PlanTimer(cfg, old(rollout.Snapshot()), env);
        store.stored == (if env.statusWrite == Rejected then old(store.stored) else e.flush.value)
        && result == (if env.statusWrite == Acknowledged then e.result else Failed)
    {
      var step := cfg.steps[rollout.currentStep];
      var elapsed := env.now - rollout.lastTransition;
      var interval := 10 * SECOND;
      if cfg.analysis.Some? && cfg.analysis.value.intervalSeconds > 0 {
        interval := cfg.analysis.value.intervalSeconds * SECOND;
      }
      if elapsed < Pause(step) {
        var remaining := Pause(step) - elapsed;
        var requeue := interval;
        if remaining < requeue {
          requeue := remaining;
        }
        var ok := store.Update(rollout, env.statusWrite);
        return Reply(ok, requeue);
      }
      if Pause(step) > 0 && cfg.analysis.Some? {
        var allPromote := PromotesAll(rollout.analysis);
        if !allPromote {
          var ok := store.Update(rollout, env.statusWrite);
          return Reply(ok, interval);
        }
      }
      rollout.analysis := [];
      var nextStep := rollout.currentStep + 1;
      if nextStep >= |cfg.steps| {
        var ok := rollout.SetStatus(store, PhasePromoted, nextStep, 100, env.now, env.statusWrite);
        return Reply(ok, 0);
      }
      var ok := rollout.SetStatus(store, PhaseRunning, nextStep, rollout.currentWeight, env.now, env.statusWrite);
      return Reply(ok, SECOND);
    }
  }
}
