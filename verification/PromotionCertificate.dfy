/** What a promotion, or any step advance, proves about the run before it. */
module PromotionCertificate {
  import opened Wrappers
  import opened Sprt
  import MetricRuns
  import opened Aggregation
  import opened VirtualServices
  import opened Rollout
  import opened RolloutSafety
  import opened RouteAgreement

  // ---------------------------------------------------------------- the gate

  // The reconcile gets as far as the SPRT block, and the block decides something.
  predicate RanSprt(spec: Spec, st: Status, env: Env) {
    env.fetch == Found && !spec.abort && !spec.paused && AtWeight(spec.config, st) && env.readiness == Ready
    && spec.config.prometheus && spec.config.analysis.Some?
    && Outcome(spec.config.analysis.value, st, env).Decided?
  }

  function SprtStates(spec: Spec, st: Status, env: Env): seq<MetricState>
    requires RanSprt(spec, st, env)
  {
    Outcome(spec.config.analysis.value, st, env).states
  }

  function SprtDecision(spec: Spec, st: Status, env: Env): Decision
    requires RanSprt(spec, st, env)
  {
    Outcome(spec.config.analysis.value, st, env).decision
  }

  predicate TimerElapsed(cfg: Config, st: Status, env: Env)
    requires st.currentStep < |cfg.steps|
  {
    env.now - st.lastTransition >= Pause(cfg.steps[st.currentStep])
  }

  /** The gate's scan of the stored verdicts agrees with what the analyzer returned. */
  lemma ScanAgrees(an: Analysis, current: seq<MetricState>, readings: seq<Reading>)
    requires Cycle(an, current, readings).Decided?
    ensures AllPromoted(Cycle(an, current, readings).states) <==> Cycle(an, current, readings).decision == PromoteAll
  {
    var k := FirstStop(an, current, readings, 0);
    if k < |an.metrics| {
      var states := States(an, current, readings, k + 1);
      assert states[k] in states && states[k].verdict == Rollback;
    }
  }

  // The plan leaves the current step.
  predicate PlansAdvance(spec: Spec, st: Status, env: Env) {
    var e := Plan(spec, st, env);
    e.flush.Some? && e.flush.value.currentStep == st.currentStep + 1
  }

  lemma AdvanceLands(spec: Spec, w: World, env: Env)
    ensures Next(spec, w, env).status.currentStep == w.status.currentStep + 1
            <==> PlansAdvance(spec, w.status, env) && env.statusWrite != Rejected
  {
    PlanMoves(spec, w.status, env);
  }

  predicate Undisturbed(spec: Spec, st: Status, env: Env) {
    env.fetch == Found && !spec.abort && !spec.paused && AtWeight(spec.config, st) && env.readiness == Ready
  }

  /** What it takes to leave a step, whatever the configuration. */
  lemma AdvanceCondition(spec: Spec, st: Status, env: Env)
    ensures PlansAdvance(spec, st, env) <==>
      Undisturbed(spec, st, env) && TimerElapsed(spec.config, st, env)
      && (if spec.config.prometheus && spec.config.analysis.Some?
          then RanSprt(spec, st, env) && SprtDecision(spec, st, env) != RollBack
               && GateOpen(spec.config, st.(analysis := SprtStates(spec, st, env)))
          else GateOpen(spec.config, st))
  {}

  /** With Prometheus and analysis configured, a step with a pause is left exactly when its timer has elapsed and
      the analyzer returned promote in that very reconcile, which ran undisturbed and could store its status. */
  lemma GateRefinement(spec: Spec, w: World, env: Env)
    requires spec.config.prometheus && spec.config.analysis.Some?
    requires w.status.currentStep < |spec.config.steps| && Pause(spec.config.steps[w.status.currentStep]) > 0
    ensures Next(spec, w, env).status.currentStep == w.status.currentStep + 1
            <==> RanSprt(spec, w.status, env) && SprtDecision(spec, w.status, env) == PromoteAll
                 && TimerElapsed(spec.config, w.status, env) && env.statusWrite != Rejected
  {
    AdvanceLands(spec, w, env);
    AdvanceCondition(spec, w.status, env);
    if RanSprt(spec, w.status, env) {
      ScanAgrees(spec.config.analysis.value, w.status.analysis, env.readings);
    }
  }

  // ---------------------------------------------------------------- the step's weight was held

  // The status without its analysis states.
  function Core(st: Status): Status {
    st.(analysis := [])
  }

  // The reconcile that last changed the core of the status before world i; -1 if none has.
  ghost function LastTransition(r: Run, i: nat): int
    requires i <= |r.events|
  {
    if i == 0 then -1
    else if Core(At(r, i).status) == Core(At(r, i - 1).status) then LastTransition(r, i - 1)
    else i - 1
  }

  lemma PlanStamps(spec: Spec, st: Status, env: Env)
    ensures var e := Plan(spec, st, env);
      e.flush.Some? && Core(e.flush.value) != Core(st) ==> e.flush.value.lastTransition == env.now
  {}

  lemma NextStamps(spec: Spec, w: World, env: Env)
    ensures var st := Next(spec, w, env).status;
      Core(st) != Core(w.status) ==> st.lastTransition == env.now
  {
    PlanStamps(spec, w.status, env);
  }

  lemma {:induction false} HeldSince(r: Run, i: nat)
    requires i <= |r.events|
    ensures var h := LastTransition(r, i);
      -1 <= h < i
      && (forall m :: h < m <= i ==> Core(At(r, m).status) == Core(At(r, i).status))
      && (h >= 0 ==> At(r, i).status.lastTransition == r.events[h].env.now)
  {
    if i == 0 {
    } else {
      Reconciled(r, i - 1);
      HeldSince(r, i - 1);
      NextStamps(r.events[i - 1].spec, At(r, i - 1), r.events[i - 1].env);
      var st, st' := At(r, i - 1).status, At(r, i).status;
      assert Core(st') == Core(st) ==> st'.lastTransition == st.lastTransition;
    }
  }

  // Reconcile m finds the run at step j with its weight in the route, unless a half drain has led that astray. The
  // rollout is not paused, and if the reconcile sees it asked to pause, it fails.
  ghost predicate StandsAt(r: Run, cfg: Config, j: nat, m: nat)
    requires j < |cfg.steps| && m < |r.events|
  {
    var ev, w := r.events[m], At(r, m);
    w.status.currentStep == j && w.status.phase != PhasePaused
    && (!Astray(r, cfg, m) ==> CanaryShare(cfg, w.vs) == cfg.steps[j].weight)
    && StableShare(cfg, w.vs) + CanaryShare(cfg, w.vs) == 100
    && (ev.env.fetch == Found && ev.spec.paused ==> Returned(ev.spec, w, ev.env) == Failed)
  }

  // Step j stood, unpaused, from reconcile h to reconcile t and for at least its pause.
  ghost predicate Held(r: Run, cfg: Config, j: nat, h: nat, t: nat)
    requires j < |cfg.steps| && h < t < |r.events|
  {
    r.events[t].env.now - r.events[h].env.now >= Pause(cfg.steps[j])
    && forall m :: h < m <= t ==> StandsAt(r, cfg, j, m)
  }

  // An active rollout whose status a reconcile leaves alone was not asked to pause, or the reconcile failed.
  lemma SameCoreUnpaused(spec: Spec, w: World, env: Env)
    requires Active(w.status) && Core(Next(spec, w, env).status) == Core(w.status)
    ensures env.fetch == Found && spec.paused ==> Returned(spec, w, env) == Failed
  {}

  lemma HeldAt(r: Run, cfg: Config, h: nat, m: nat, t: nat)
    requires Fixed(r, cfg) && cfg.steps != [] && ReadyToRoll(cfg, At(r, 0))
    requires h < m <= t < |r.events| && h == LastTransition(r, t)
    requires AtWeight(cfg, At(r, t).status) && !r.events[t].spec.paused
    ensures StandsAt(r, cfg, At(r, t).status.currentStep, m)
  {
    HeldSince(r, t);
    assert Core(At(r, m).status) == Core(At(r, t).status);
    RouteHolds(r, cfg, m);
    if m < t {
      assert Core(At(r, m + 1).status) == Core(At(r, t).status);
      Reconciled(r, m);
      SameCoreUnpaused(r.events[m].spec, At(r, m), r.events[m].env);
    }
  }

  /** A step that is left was held, unpaused, for at least its pause, whatever writes failed meanwhile. */
  lemma AdvanceWasHeld(r: Run, cfg: Config, t: nat) returns (h: nat)
    requires Fixed(r, cfg) && cfg.steps != [] && ReadyToRoll(cfg, At(r, 0)) && t < |r.events|
    requires At(r, t + 1).status.currentStep == At(r, t).status.currentStep + 1
    ensures h < t && At(r, t).status.currentStep < |cfg.steps|
    ensures Held(r, cfg, At(r, t).status.currentStep, h, t)
  {
    var ev, st := r.events[t], At(r, t).status;
    Reconciled(r, t);
    AdvanceLands(ev.spec, At(r, t), ev.env);
    AdvanceCondition(ev.spec, st, ev.env);
    HeldSince(r, t);
    var g := LastTransition(r, t);
    assert g >= 0;
    h := g;
    forall m | h < m <= t ensures StandsAt(r, cfg, st.currentStep, m) {
      HeldAt(r, cfg, h, m, t);
    }
  }

  // A reconcile whose writes work and that sees the rollout asked to pause does not fail.
  lemma PauseIsHeeded(spec: Spec, w: World, env: Env)
    requires WritesWork(env) && env.fetch == Found && spec.paused && Routable(spec.config, w.vs)
    ensures Returned(spec, w, env) != Failed
  {
    AttemptShares(spec.config, Plan(spec, w.status, env), w.vs, env);
  }

  /** Without write faults a step that was held had exactly its weight in the route all the time, and nobody asked for
      a pause. */
  lemma HeldInRoute(r: Run, cfg: Config, j: nat, h: nat, t: nat)
    requires Fixed(r, cfg) && FaultFree(r) && cfg.steps != [] && ReadyToRoll(cfg, At(r, 0))
    requires j < |cfg.steps| && h < t < |r.events| && Held(r, cfg, j, h, t)
    ensures forall m :: h < m <= t ==>
      CanaryShare(cfg, At(r, m).vs) == cfg.steps[j].weight && StableShare(cfg, At(r, m).vs) == 100 - cfg.steps[j].weight
      && (r.events[m].env.fetch == Found ==> !r.events[m].spec.paused)
  {
    forall m | h < m <= t
      ensures CanaryShare(cfg, At(r, m).vs) == cfg.steps[j].weight
      ensures StableShare(cfg, At(r, m).vs) == 100 - cfg.steps[j].weight
      ensures r.events[m].env.fetch == Found ==> !r.events[m].spec.paused
    {
      assert StandsAt(r, cfg, j, m);
      FaultFreeNeverAstray(r, cfg, m);
      RunShaped(r, cfg, m);
      if r.events[m].env.fetch == Found && r.events[m].spec.paused {
        PauseIsHeeded(r.events[m].spec, At(r, m), r.events[m].env);
      }
    }
  }

  // ---------------------------------------------------------------- the evidence was gathered in the step

  // The reconcile runs the analyzer and its states reach the stored status.
  predicate Gathers(ev: Event, st: Status) {
    RanSprt(ev.spec, st, ev.env) && ev.env.statusWrite != Rejected
  }

  // The reconciles whose readings make up the stored analysis states of world i: those since the last advance.
  ghost function Evidence(r: Run, i: nat): (idx: seq<nat>)
    requires i <= |r.events|
    ensures forall x :: 0 <= x < |idx| ==> idx[x] < |r.events|
  {
    if i == 0 || At(r, i).status.currentStep != At(r, i - 1).status.currentStep then []
    else if Gathers(r.events[i - 1], At(r, i - 1).status) then Evidence(r, i - 1) + [i - 1]
    else Evidence(r, i - 1)
  }

  // Reconciles before `end`, in order, all made while the run stood at step j.
  ghost predicate Within(r: Run, idx: seq<nat>, j: nat, end: nat)
    requires end <= |r.events|
  {
    (forall x :: 0 <= x < |idx| ==> idx[x] < end && At(r, idx[x]).status.currentStep == j)
    && forall x, y :: 0 <= x < y < |idx| ==> idx[x] < idx[y]
  }

  function Rows(r: Run, idx: seq<nat>): seq<seq<Reading>>
    requires forall x :: 0 <= x < |idx| ==> idx[x] < |r.events|
  {
    if idx == [] then []
    else Rows(r, idx[..|idx| - 1]) + [r.events[idx[|idx| - 1]].env.readings]
  }

  // The analyzer makes these states of these readings, starting afresh and never rolling back.
  ghost predicate Explains(an: Analysis, states: seq<MetricState>, rows: seq<seq<Reading>>) {
    states == RunCycles(an, rows) && Quiet(an, rows)
  }

  lemma WithinLater(r: Run, idx: seq<nat>, j: nat, t: nat)
    requires t < |r.events| && Within(r, idx, j, t)
    ensures Within(r, idx, j, t + 1)
  {}

  lemma {:induction false} EvidenceWithin(r: Run, i: nat)
    requires i <= |r.events|
    ensures Within(r, Evidence(r, i), At(r, i).status.currentStep, i)
  {
    if i == 0 || At(r, i).status.currentStep != At(r, i - 1).status.currentStep {
      assert Evidence(r, i) == [];
    } else {
      var idx, j := Evidence(r, i - 1), At(r, i - 1).status.currentStep;
      EvidenceWithin(r, i - 1);
      if Gathers(r.events[i - 1], At(r, i - 1).status) {
        WithinSnoc(r, idx, j, i - 1);
      } else {
        WithinLater(r, idx, j, i - 1);
      }
    }
  }

  lemma GatherExplains(ev: Event, st: Status, an: Analysis, rows: seq<seq<Reading>>)
    requires Gathers(ev, st) && ev.spec.config.analysis == Some(an) && Explains(an, st.analysis, rows)
    requires SprtDecision(ev.spec, st, ev.env) != RollBack
    ensures Explains(an, SprtStates(ev.spec, st, ev.env), rows + [ev.env.readings])
  {
    OneMoreCycle(an, rows, ev.env.readings);
  }

  /** What a reconcile that does not abort stores as analysis states. */
  lemma PlanAnalysisStates(spec: Spec, st: Status, env: Env)
    ensures var e := Plan(spec, st, env);
      (RanSprt(spec, st, env) ==>
         e.flush.Some? && !e.mustPatch
         && (SprtDecision(spec, st, env) == RollBack ==> e.flush.value.phase == PhaseAborted))
      && (e.flush.Some? && e.flush.value.phase != PhaseAborted ==>
            e.flush.value.analysis ==
              (if e.flush.value.currentStep == st.currentStep + 1 then []
               else if RanSprt(spec, st, env) then SprtStates(spec, st, env) else st.analysis))
  {}

  lemma LandAnalysisStates(spec: Spec, w: World, env: Env)
    requires NotStarted(w.status) ==> FreshStatus(w.status)
    requires Next(spec, w, env).status.phase != PhaseAborted
    ensures var st := Next(spec, w, env).status;
      st.analysis ==
        (if st.currentStep != w.status.currentStep then []
         else if RanSprt(spec, w.status, env) && env.statusWrite != Rejected then SprtStates(spec, w.status, env)
         else w.status.analysis)
      && (RanSprt(spec, w.status, env) && env.statusWrite != Rejected ==> SprtDecision(spec, w.status, env) != RollBack)
  {
    PlanAnalysisStates(spec, w.status, env);
    PlanMoves(spec, w.status, env);
  }

  lemma NextExplains(ev: Event, w: World, an: Analysis, rows: seq<seq<Reading>>)
    requires ev.spec.config.analysis == Some(an) && Explains(an, w.status.analysis, rows)
    requires NotStarted(w.status) ==> FreshStatus(w.status)
    requires Next(ev.spec, w, ev.env).status.phase != PhaseAborted
    ensures var st := Next(ev.spec, w, ev.env).status;
      Explains(an, st.analysis,
               if st.currentStep != w.status.currentStep then []
               else if Gathers(ev, w.status) then rows + [ev.env.readings] else rows)
  {
    LandAnalysisStates(ev.spec, w, ev.env);
    if Gathers(ev, w.status) {
      GatherExplains(ev, w.status, an, rows);
    }
  }

  lemma RowsSnoc(r: Run, idx: seq<nat>, t: nat)
    requires t < |r.events| && forall x :: 0 <= x < |idx| ==> idx[x] < |r.events|
    ensures Rows(r, idx + [t]) == Rows(r, idx) + [r.events[t].env.readings]
  {
    assert (idx + [t])[..|idx|] == idx;
  }

  lemma EvidenceRows(r: Run, i: nat)
    requires i < |r.events|
    ensures Rows(r, Evidence(r, i + 1))
            == (if At(r, i + 1).status.currentStep != At(r, i).status.currentStep then []
                else if Gathers(r.events[i], At(r, i).status) then Rows(r, Evidence(r, i)) + [r.events[i].env.readings]
                else Rows(r, Evidence(r, i)))
  {
    RowsSnoc(r, Evidence(r, i), i);
  }

  lemma StillExplained(r: Run, cfg: Config, i: nat)
    requires Fixed(r, cfg) && cfg.analysis.Some? && i < |r.events| && At(r, i + 1).status.phase != PhaseAborted
    requires NotStarted(At(r, i).status) ==> FreshStatus(At(r, i).status)
    requires Explains(cfg.analysis.value, At(r, i).status.analysis, Rows(r, Evidence(r, i)))
    ensures Explains(cfg.analysis.value, At(r, i + 1).status.analysis, Rows(r, Evidence(r, i + 1)))
  {
    Reconciled(r, i);
    NextExplains(r.events[i], At(r, i), cfg.analysis.value, Rows(r, Evidence(r, i)));
    EvidenceRows(r, i);
  }

  /** Whatever writes fail, the stored states are those of tests begun afresh in the current step. */
  lemma {:induction false} StatesExplained(r: Run, cfg: Config, i: nat)
    requires Fixed(r, cfg) && cfg.analysis.Some? && FreshStatus(At(r, 0).status) && i <= |r.events|
    requires At(r, i).status.phase != PhaseAborted
    ensures Within(r, Evidence(r, i), At(r, i).status.currentStep, i)
    ensures Explains(cfg.analysis.value, At(r, i).status.analysis, Rows(r, Evidence(r, i)))
  {
    EvidenceWithin(r, i);
    if i == 0 {
    } else {
      NotYetAborted(r, i - 1, i);
      StatesExplained(r, cfg, i - 1);
      NotStartedIsFresh(r, i - 1);
      StillExplained(r, cfg, i - 1);
    }
  }

  // ---------------------------------------------------------------- the certificate

  ghost predicate AllPass(an: Analysis, rows: seq<seq<Reading>>) {
    an.metrics != []
    && forall k :: 0 <= k < |an.metrics| ==>
         Alone(an, rows, k).verdict == Promote && Alone(an, rows, k).ratio <= an.Limits().lower
  }

  // Every metric passed the test of step j: the one begun afresh in that step, on every reading stored in it and the
  // one that reconcile t gathered.
  ghost predicate Cleared(r: Run, an: Analysis, j: nat, t: nat)
    requires t < |r.events|
  {
    var idx := Evidence(r, t) + [t];
    Within(r, idx, j, t + 1) && AllPass(an, Rows(r, idx))
  }

  lemma {:induction false} PromoteMeansBelow(b: Bounds, m: Metric, rs: seq<Reading>)
    ensures var s := MetricRuns.Run(b, m, Fresh(m.name), rs); s.verdict == Promote ==> s.ratio <= b.lower
  {
    if rs == [] {
    } else {
      PromoteMeansBelow(b, m, rs[..|rs| - 1]);
    }
  }

  lemma PausedAdvance(spec: Spec, w: World, env: Env)
    requires spec.config.prometheus && spec.config.analysis.Some?
    requires w.status.currentStep < |spec.config.steps| && Pause(spec.config.steps[w.status.currentStep]) > 0
    requires Next(spec, w, env).status.currentStep == w.status.currentStep + 1
    ensures w.status.phase != PhaseAborted
    ensures var c := Cycle(spec.config.analysis.value, w.status.analysis, env.readings);
      c.Decided? && c.decision == PromoteAll
  {
    GateRefinement(spec, w, env);
  }

  lemma WithinSnoc(r: Run, idx: seq<nat>, j: nat, t: nat)
    requires t < |r.events| && Within(r, idx, j, t) && At(r, t).status.currentStep == j
    ensures Within(r, idx + [t], j, t + 1)
  {}

  // The next cycle of a quiet run promotes: every metric has passed its own test.
  lemma AllPassedAlone(an: Analysis, rows: seq<seq<Reading>>, last: seq<Reading>)
    requires an.DistinctNames() && Quiet(an, rows)
    requires Cycle(an, RunCycles(an, rows), last).Decided? && Cycle(an, RunCycles(an, rows), last).decision == PromoteAll
    ensures AllPass(an, rows + [last])
  {
    var all := rows + [last];
    OneMoreCycle(an, rows, last);
    QuietIndependence(an, all);
    ScanAgrees(an, RunCycles(an, rows), last);
    var states := RunCycles(an, all);
    forall k | 0 <= k < |an.metrics|
      ensures Alone(an, all, k).verdict == Promote && Alone(an, all, k).ratio <= an.Limits().lower
    {
      assert states[k] in states;
      PromoteMeansBelow(an.Limits(), an.metrics[k], Column(all, k));
    }
  }

  /** A paused step under analysis is left only when every metric has passed its own test of that step. */
  lemma AdvanceWasCleared(r: Run, cfg: Config, t: nat)
    requires Fixed(r, cfg) && FreshStatus(At(r, 0).status) && t < |r.events|
    requires cfg.prometheus && cfg.analysis.Some? && cfg.analysis.value.DistinctNames()
    requires At(r, t).status.currentStep < |cfg.steps| && Pause(cfg.steps[At(r, t).status.currentStep]) > 0
    requires At(r, t + 1).status.currentStep == At(r, t).status.currentStep + 1
    ensures Cleared(r, cfg.analysis.value, At(r, t).status.currentStep, t)
  {
    var ev, w, an := r.events[t], At(r, t), cfg.analysis.value;
    Reconciled(r, t);
    PausedAdvance(ev.spec, w, ev.env);
    StatesExplained(r, cfg, t);
    var idx := Evidence(r, t);
    AllPassedAlone(an, Rows(r, idx), ev.env.readings);
    RowsSnoc(r, idx, t);
    WithinSnoc(r, idx, w.status.currentStep, t);
  }

  // Reconcile t leaves step j, having served it.
  ghost predicate StepServed(r: Run, cfg: Config, j: nat, t: nat) {
    j < |cfg.steps| && t < |r.events|
    && At(r, t).status.currentStep == j && At(r, t + 1).status.currentStep == j + 1
    && (exists h: nat :: h < t && Held(r, cfg, j, h, t))
    && (cfg.prometheus && cfg.analysis.Some? && Pause(cfg.steps[j]) > 0 ==> Cleared(r, cfg.analysis.value, j, t))
  }

  /** At any point of a run whatever writes fail, every step before the current one has been served, in order. */
  lemma {:induction false} StepsServed(r: Run, cfg: Config, i: nat) returns (ts: seq<nat>)
    requires Fixed(r, cfg) && cfg.steps != [] && ReadyToRoll(cfg, At(r, 0)) && i <= |r.events|
    requires cfg.analysis.Some? ==> cfg.analysis.value.DistinctNames()
    ensures |ts| == At(r, i).status.currentStep
    ensures forall j :: 0 <= j < |ts| ==> ts[j] < i && StepServed(r, cfg, j, ts[j])
    ensures forall j, k :: 0 <= j < k < |ts| ==> ts[j] < ts[k]
  {
    if i == 0 {
      return [];
    }
    var t := i - 1;
    ts := StepsServed(r, cfg, t);
    StepsMoveForward(r, t, i);
    if At(r, i).status.currentStep != At(r, t).status.currentStep {
      var h := AdvanceWasHeld(r, cfg, t);
      var j := At(r, t).status.currentStep;
      if cfg.prometheus && cfg.analysis.Some? && Pause(cfg.steps[j]) > 0 {
        AdvanceWasCleared(r, cfg, t);
      }
      assert StepServed(r, cfg, j, t);
      ts := ts + [t];
    }
  }

  /** The certificate of a promotion, whatever writes failed on the way: every step was visited in order; its weight
      stood, unpaused, for at least its pause before it was left, in the route too unless a half drain had led that
      astray; and where the step has a pause and is analysed, every metric ended the test of that step at or below the
      lower bound. */
  lemma CertificateOfPromotion(r: Run, cfg: Config) returns (ts: seq<nat>)
    requires Fixed(r, cfg) && cfg.steps != [] && ReadyToRoll(cfg, At(r, 0))
    requires cfg.analysis.Some? ==> cfg.analysis.value.DistinctNames()
    requires At(r, |r.events|).status.phase == PhasePromoted
    ensures |ts| == |cfg.steps|
    ensures forall j :: 0 <= j < |ts| ==> StepServed(r, cfg, j, ts[j])
    ensures forall j, k :: 0 <= j < k < |ts| ==> ts[j] < ts[k]
  {
    ts := StepsServed(r, cfg, |r.events|);
    StepsInRange(r, cfg, |r.events|);
  }
}
