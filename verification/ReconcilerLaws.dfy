/** What one reconcile does to the cluster and returns, branch by branch, in terms of worlds, literal times and the
    answers of the environment alone; and what that means for whole runs. Times are nanoseconds. */
module ReconcilerLaws {
  import opened Wrappers
  import opened Sprt
  import MetricRuns
  import AnalyzerLaws
  import opened Aggregation
  import opened VirtualServices
  import opened Rollout
  import opened RolloutSafety
  import opened PromotionCertificate
  import opened StoredStates

  // ---------------------------------------------------------------- how a world may change

  // The status is st, unless its write was rejected.
  predicate Stores(w: World, env: Env, w': World, st: Status) {
    w'.status == if env.statusWrite == Rejected then w.status else st
  }

  // The route carries the canary weight and its complement, unless the object could not be read, patched or written.
  ghost predicate Routes(cfg: Config, w: World, env: Env, w': World, weight: int) {
    if env.meshRead && env.meshWrite != Rejected && Patchable(w.vs) then
      OnlyWeightsPatched(w.vs, w'.vs, Patch(cfg.stableHost, 100 - weight, cfg.canaryHost, weight))
    else w'.vs == w.vs
  }

  // The patch is known to have been made.
  predicate KnownPatched(w: World, env: Env) {
    env.meshRead && env.meshWrite == Acknowledged && Patchable(w.vs)
  }

  // The reconcile comes back after this long, unless it could not be sure of its status write.
  predicate ComesBack(env: Env, result: Result, nanoseconds: int) {
    result == if env.statusWrite == Acknowledged then Done(nanoseconds) else Failed
  }

  // The step logic is reached: the resource is there, nobody asks to abort or pause, and the rollout is running, or
  // has failed.
  predicate Steps(spec: Spec, w: World, env: Env) {
    env.fetch == Found && !spec.abort && !spec.paused && (w.status.phase == PhaseRunning || w.status.phase == PhaseFailed)
  }

  // The analyzer is reached: the canary is ready and has the weight of its step.
  predicate Analyses(spec: Spec, w: World, env: Env) {
    Steps(spec, w, env) && w.status.currentStep < |spec.config.steps| && env.readiness == Ready
    && w.status.currentWeight == spec.config.steps[w.status.currentStep].weight
  }

  // Whether this reconcile polls, and what the cycle says.
  predicate PollsNow(cfg: Config) {
    cfg.prometheus && cfg.analysis.Some?
  }

  // The timer is reached, with these analysis states.
  predicate Times(spec: Spec, w: World, env: Env, states: seq<MetricState>) {
    Analyses(spec, w, env)
    && (if PollsNow(spec.config) then
          env.clientOk
          && var c := Cycle(spec.config.analysis.value, w.status.analysis, env.readings);
             c.Decided? && c.decision != RollBack && states == c.states
        else states == w.status.analysis)
  }

  function StepNanoseconds(spec: Spec, w: World): int
    requires w.status.currentStep < |spec.config.steps|
  {
    spec.config.steps[w.status.currentStep].pauseSeconds * 1_000_000_000
  }

  function IntervalNanoseconds(spec: Spec): int {
    if spec.config.analysis.Some? && spec.config.analysis.value.intervalSeconds > 0
    then spec.config.analysis.value.intervalSeconds * 1_000_000_000
    else 10_000_000_000
  }

  // The gate does not stand in the way: there is no pause, no analysis, or at least one state and all have passed.
  predicate NoGate(spec: Spec, w: World, states: seq<MetricState>)
    requires w.status.currentStep < |spec.config.steps|
  {
    spec.config.steps[w.status.currentStep].pauseSeconds <= 0 || spec.config.analysis == None
    || (states != [] && forall i :: 0 <= i < |states| ==> states[i].verdict == Promote)
  }

  // ---------------------------------------------------------------- ends, aborts and pauses

  /** A resource that is gone, an aborted one, and a promoted one nobody asks to abort are left alone for good. */
  lemma NothingToDo(spec: Spec, w: World, env: Env)
    requires env.fetch == NotFound
      || (env.fetch == Found && (w.status.phase == PhaseAborted || (w.status.phase == PhasePromoted && !spec.abort)))
    ensures Next(spec, w, env) == w && Returned(spec, w, env) == Done(0)
  {}

  lemma CannotFetch(spec: Spec, w: World, env: Env)
    requires env.fetch == FetchError
    ensures Next(spec, w, env) == w && Returned(spec, w, env) == Failed
  {}

  /** An operator's abort is obeyed in every phase but Aborted, Promoted and Paused included: all traffic goes to stable,
      and the status becomes Aborted exactly when the patch is known to have been made and the status is stored. */
  lemma AbortIsObeyed(spec: Spec, w: World, env: Env)
    requires env.fetch == Found && spec.abort && w.status.phase != PhaseAborted
    ensures var w' := Next(spec, w, env);
      Routes(spec.config, w, env, w', 0)
      && w'.status ==
         (if KnownPatched(w, env) && env.statusWrite != Rejected
          then Status(PhaseAborted, w.status.currentStep, 0, env.now, w.status.analysis) else w.status)
      && (w'.status.phase == PhaseAborted <==> KnownPatched(w, env) && env.statusWrite != Rejected)
      && Returned(spec, w, env) == (if KnownPatched(w, env) && env.statusWrite == Acknowledged then Done(0) else Failed)
  {
    AttemptMeans(w.vs, PatchFor(spec.config, 0), env.meshRead, env.meshWrite);
  }

  /** A pause is obeyed in every phase that is not an end: step, weight, route and analysis states stay. */
  lemma PauseIsObeyed(spec: Spec, w: World, env: Env)
    requires env.fetch == Found && spec.paused && !spec.abort
    requires w.status.phase != PhaseAborted && w.status.phase != PhasePromoted
    ensures var w' := Next(spec, w, env);
      w'.vs == w.vs
      && (if w.status.phase == PhasePaused then w' == w && Returned(spec, w, env) == Done(0)
          else Stores(w, env, w', Status(PhasePaused, w.status.currentStep, w.status.currentWeight, env.now,
                                         w.status.analysis))
               && ComesBack(env, Returned(spec, w, env), 0))
  {}

  /** A paused rollout that is no longer asked to pause runs again where it was, its timer begun anew. */
  lemma ResumeIsObeyed(spec: Spec, w: World, env: Env)
    requires env.fetch == Found && !spec.paused && !spec.abort && w.status.phase == PhasePaused
    ensures var w' := Next(spec, w, env);
      w'.vs == w.vs
      && Stores(w, env, w', Status(PhaseRunning, w.status.currentStep, w.status.currentWeight, env.now,
                                   w.status.analysis))
      && ComesBack(env, Returned(spec, w, env), 1_000_000_000)
  {}

  lemma Begins(spec: Spec, w: World, env: Env)
    requires env.fetch == Found && !spec.paused && !spec.abort
    requires w.status.phase == PhaseUnset || w.status.phase == PhasePending
    ensures var w' := Next(spec, w, env);
      w'.vs == w.vs && Stores(w, env, w', Status(PhaseRunning, 0, 0, env.now, w.status.analysis))
      && ComesBack(env, Returned(spec, w, env), 1_000_000_000)
  {}

  lemma Overruns(spec: Spec, w: World, env: Env)
    requires Steps(spec, w, env) && w.status.currentStep >= |spec.config.steps|
    ensures var w' := Next(spec, w, env);
      w'.vs == w.vs && Stores(w, env, w', Status(PhasePromoted, w.status.currentStep, 100, env.now, w.status.analysis))
      && ComesBack(env, Returned(spec, w, env), 0)
  {}

  // ---------------------------------------------------------------- readiness and weight

  /** While the pods are not ready, or that cannot be found out, nothing changes for five minutes. */
  lemma WaitsForPods(spec: Spec, w: World, env: Env)
    requires Steps(spec, w, env) && w.status.currentStep < |spec.config.steps|
    requires env.readiness == CheckFailed
      || (env.readiness == NotReady && env.now - w.status.lastTransition <= 300_000_000_000)
    ensures Next(spec, w, env) == w
    ensures Returned(spec, w, env) == if env.readiness == CheckFailed then Failed else Done(10_000_000_000)
  {}

  /** After five minutes the canary is taken out of traffic, whether or not the patch can be made. */
  lemma GivesUpOnPods(spec: Spec, w: World, env: Env)
    requires Steps(spec, w, env) && w.status.currentStep < |spec.config.steps|
    requires env.readiness == NotReady && env.now - w.status.lastTransition > 300_000_000_000
    ensures var w' := Next(spec, w, env);
      Routes(spec.config, w, env, w', 0)
      && Stores(w, env, w', Status(PhaseFailed, w.status.currentStep, 0, env.now, w.status.analysis))
      && ComesBack(env, Returned(spec, w, env), 0)
  {
    AttemptMeans(w.vs, PatchFor(spec.config, 0), env.meshRead, env.meshWrite);
  }

  /** With the pods ready, a step gets its weight; the status says so exactly when the patch is known to have been made
      and the status is stored. The reconcile comes back when the pause is over. */
  lemma SetsTheWeight(spec: Spec, w: World, env: Env)
    requires Steps(spec, w, env) && w.status.currentStep < |spec.config.steps| && env.readiness == Ready
    requires w.status.currentWeight != spec.config.steps[w.status.currentStep].weight
    ensures var w', weight := Next(spec, w, env), spec.config.steps[w.status.currentStep].weight;
      Routes(spec.config, w, env, w', weight)
      && w'.status ==
         (if KnownPatched(w, env) && env.statusWrite != Rejected
          then Status(PhaseRunning, w.status.currentStep, weight, env.now, w.status.analysis) else w.status)
      && Returned(spec, w, env)
         == (if KnownPatched(w, env) && env.statusWrite == Acknowledged then Done(StepNanoseconds(spec, w)) else Failed)
  {
    AttemptMeans(w.vs, PatchFor(spec.config, spec.config.steps[w.status.currentStep].weight), env.meshRead, env.meshWrite);
  }

  // ---------------------------------------------------------------- analysis, timer and gate

  /** A failed query changes nothing and is tried again after fifteen seconds. */
  lemma RetriesQueries(spec: Spec, w: World, env: Env)
    requires Analyses(spec, w, env) && PollsNow(spec.config)
    requires !env.clientOk || Cycle(spec.config.analysis.value, w.status.analysis, env.readings).QueryFailed?
    ensures Next(spec, w, env) == w && Returned(spec, w, env) == Done(15_000_000_000)
  {}

  /** A rollback aborts, with the states the cycle returned, whether or not the patch can be made. */
  lemma RollsBackAtOnce(spec: Spec, w: World, env: Env)
    requires Analyses(spec, w, env) && PollsNow(spec.config) && env.clientOk
    requires Cycle(spec.config.analysis.value, w.status.analysis, env.readings).Decided?
    requires Cycle(spec.config.analysis.value, w.status.analysis, env.readings).decision == RollBack
    ensures var w' := Next(spec, w, env);
      Routes(spec.config, w, env, w', 0)
      && Stores(w, env, w', Status(PhaseAborted, w.status.currentStep, 0, env.now,
                                   Cycle(spec.config.analysis.value, w.status.analysis, env.readings).states))
      && ComesBack(env, Returned(spec, w, env), 0)
  {
    AttemptMeans(w.vs, PatchFor(spec.config, 0), env.meshRead, env.meshWrite);
  }

  /** Until the pause is over only the analysis states change, and the reconcile comes back after the analysis interval,
      or when the pause is over if that is sooner. */
  lemma WaitsForTimer(spec: Spec, w: World, env: Env, states: seq<MetricState>)
    requires Times(spec, w, env, states) && env.now - w.status.lastTransition < StepNanoseconds(spec, w)
    ensures var w', left := Next(spec, w, env), w.status.lastTransition + StepNanoseconds(spec, w) - env.now;
      w'.vs == w.vs && Stores(w, env, w', w.status.(analysis := states))
      && ComesBack(env, Returned(spec, w, env),
                   if left < IntervalNanoseconds(spec) then left else IntervalNanoseconds(spec))
  {}

  /** In front of a closed gate likewise, and it comes back after the analysis interval. */
  lemma WaitsAtGate(spec: Spec, w: World, env: Env, states: seq<MetricState>)
    requires Times(spec, w, env, states) && env.now - w.status.lastTransition >= StepNanoseconds(spec, w)
    requires !NoGate(spec, w, states)
    ensures var w' := Next(spec, w, env);
      w'.vs == w.vs && Stores(w, env, w', w.status.(analysis := states))
      && ComesBack(env, Returned(spec, w, env), IntervalNanoseconds(spec))
  {}

  /** Otherwise the step is left, with no analysis states: for the next one at the same weight, or for Promoted. */
  lemma LeavesTheStep(spec: Spec, w: World, env: Env, states: seq<MetricState>)
    requires Times(spec, w, env, states) && env.now - w.status.lastTransition >= StepNanoseconds(spec, w)
    requires NoGate(spec, w, states)
    ensures var w', c := Next(spec, w, env), w.status.currentStep + 1;
      w'.vs == w.vs
      && (if c < |spec.config.steps| then
            Stores(w, env, w', Status(PhaseRunning, c, w.status.currentWeight, env.now, []))
            && ComesBack(env, Returned(spec, w, env), 1_000_000_000)
          else
            Stores(w, env, w', Status(PhasePromoted, c, 100, env.now, []))
            && ComesBack(env, Returned(spec, w, env), 0))
  {}

  // ---------------------------------------------------------------- over runs: aborts

  /** Once an abort request has met working writes, the rollout is aborted and drained, and stays so. */
  lemma AbortedOnRequest(r: Run, cfg: Config, i: nat, j: nat)
    requires Fixed(r, cfg) && i < j <= |r.events| && Routable(cfg, At(r, i).vs)
    requires At(r, i).status.phase != PhaseAborted
    requires r.events[i].env.fetch == Found && r.events[i].spec.abort && WritesWork(r.events[i].env)
    ensures At(r, j).status.phase == PhaseAborted && At(r, j).status.currentWeight == 0
    ensures At(r, j).status.currentStep == At(r, i).status.currentStep
    ensures CanaryShare(cfg, At(r, j).vs) == 0 && StableShare(cfg, At(r, j).vs) == 100
  {
    var ev, w := r.events[i], At(r, i);
    Reconciled(r, i);
    AbortIsObeyed(ev.spec, w, ev.env);
    AttemptShares(cfg, Plan(ev.spec, w.status, ev.env), w.vs, ev.env);
    AbortedIsFinal(r, i + 1, j);
  }

  // The states end with one that has rolled back, and each is its metric's own test, begun afresh, over the rows.
  ghost predicate EndInRollback(an: Analysis, rows: seq<seq<Reading>>, states: seq<MetricState>) {
    0 < |states| <= |an.metrics|
    && states[|states| - 1].verdict == Rollback && states[|states| - 1].ratio >= (1.0 - an.beta) / an.alpha
    && forall j :: 0 <= j < |states| ==>
         states[j] == MetricRuns.Run(an.Limits(), an.metrics[j], Fresh(an.metrics[j].name), Column(rows, j))
  }

  lemma RollbackPlanned(ev: Event, w: World)
    requires w.status.phase != PhaseAborted && !ev.spec.abort
    requires Next(ev.spec, w, ev.env).status.phase == PhaseAborted
    ensures Gathers(ev, w.status) && SprtDecision(ev.spec, w.status, ev.env) == RollBack
    ensures Next(ev.spec, w, ev.env).status.analysis == SprtStates(ev.spec, w.status, ev.env)
  {}

  lemma RollbackStates(an: Analysis, rows: seq<seq<Reading>>, row: seq<Reading>)
    requires an.DistinctNames() && Quiet(an, rows)
    requires Cycle(an, RunCycles(an, rows), row).Decided? && Cycle(an, RunCycles(an, rows), row).decision == RollBack
    ensures EndInRollback(an, rows + [row], Cycle(an, RunCycles(an, rows), row).states)
  {
    var states := Cycle(an, RunCycles(an, rows), row).states;
    AnalyzerLaws.RollbackReturns(an, RunCycles(an, rows), row);
    QuietIndependence(an, rows);
    forall j | 0 <= j < |states| ensures states[j] == Alone(an, rows + [row], j) {
      AloneStep(an, rows, row, j);
    }
  }

  /** A run that enters Aborted without a request stores, last in its list, the state of the metric that rolled back: the
      metric's own test, begun afresh in the step, over the readings stored in it and the last poll. */
  lemma AbortedByAnalysis(r: Run, cfg: Config, i: nat)
    requires Fixed(r, cfg) && FreshStatus(At(r, 0).status) && i < |r.events|
    requires cfg.analysis.Some? ==> cfg.analysis.value.DistinctNames()
    requires At(r, i).status.phase != PhaseAborted && At(r, i + 1).status.phase == PhaseAborted
    requires !r.events[i].spec.abort
    ensures cfg.analysis.Some?
    ensures EndInRollback(cfg.analysis.value, Rows(r, Evidence(r, i)) + [r.events[i].env.readings],
                          At(r, i + 1).status.analysis)
  {
    Reconciled(r, i);
    RollbackPlanned(r.events[i], At(r, i));
    StatesExplained(r, cfg, i);
    RollbackStates(cfg.analysis.value, Rows(r, Evidence(r, i)), r.events[i].env.readings);
  }

  // ---------------------------------------------------------------- over runs: traffic only to a ready canary

  /** A reconcile that gives the canary a share, other than none and other than the one it had, has found the pods ready
      and nobody asking to pause or abort, and the share is the weight of the current step. */
  lemma SharesNeedReadiness(spec: Spec, w: World, env: Env)
    requires Routable(spec.config, w.vs)
    requires CanaryShare(spec.config, Next(spec, w, env).vs) != 0
    requires CanaryShare(spec.config, Next(spec, w, env).vs) != CanaryShare(spec.config, w.vs)
    ensures env.readiness == Ready && Steps(spec, w, env) && w.status.currentStep < |spec.config.steps|
    ensures CanaryShare(spec.config, Next(spec, w, env).vs) == spec.config.steps[w.status.currentStep].weight
  {
    AttemptShares(spec.config, Plan(spec, w.status, env), w.vs, env);
  }

  lemma {:induction false} RoutableStays(r: Run, cfg: Config, i: nat)
    requires Fixed(r, cfg) && Routable(cfg, At(r, 0).vs) && i <= |r.events|
    ensures Routable(cfg, At(r, i).vs)
  {
    if i == 0 {
    } else {
      RoutableStays(r, cfg, i - 1);
      Reconciled(r, i - 1);
      var ev, w := r.events[i - 1], At(r, i - 1);
      AttemptShares(cfg, Plan(ev.spec, w.status, ev.env), w.vs, ev.env);
    }
  }

  /** Whatever writes fail: a canary that has traffic was given just that share by a reconcile that found its pods ready,
      and has had it since. */
  lemma {:induction false} TrafficWasEarned(r: Run, cfg: Config, i: nat) returns (h: nat)
    requires Fixed(r, cfg) && ReadyToRoll(cfg, At(r, 0)) && i <= |r.events| && CanaryShare(cfg, At(r, i).vs) != 0
    ensures h < i && r.events[h].env.readiness == Ready && Steps(r.events[h].spec, At(r, h), r.events[h].env)
    ensures forall m :: h < m <= i ==> CanaryShare(cfg, At(r, m).vs) == CanaryShare(cfg, At(r, i).vs)
    ensures At(r, h).status.currentStep < |cfg.steps|
            && CanaryShare(cfg, At(r, i).vs) == cfg.steps[At(r, h).status.currentStep].weight
  {
    Reconciled(r, i - 1);
    RoutableStays(r, cfg, i - 1);
    var ev, w := r.events[i - 1], At(r, i - 1);
    if CanaryShare(cfg, w.vs) == CanaryShare(cfg, At(r, i).vs) {
      h := TrafficWasEarned(r, cfg, i - 1);
    } else {
      h := i - 1;
      SharesNeedReadiness(ev.spec, w, ev.env);
    }
  }

  // ---------------------------------------------------------------- over runs: the rest of the VirtualService

  /** Whatever the spec says and whatever writes fail, a rollout never touches anything of the VirtualService but weights
      in its first HTTP route. */
  lemma {:induction false} OnlyWeightsEverChange(r: Run, i: nat)
    requires i <= |r.events|
    ensures SameButWeights(At(r, 0).vs, At(r, i).vs)
  {
    if i == 0 {
    } else {
      OnlyWeightsEverChange(r, i - 1);
      Reconciled(r, i - 1);
      var ev, w := r.events[i - 1], At(r, i - 1);
      var e := Plan(ev.spec, w.status, ev.env);
      if e.patch.Some? {
        AttemptKeeps(w.vs, PatchFor(ev.spec.config, e.patch.value), ev.env.meshRead, ev.env.meshWrite);
        SameButWeightsTrans(At(r, 0).vs, w.vs, At(r, i).vs);
      }
    }
  }
}
