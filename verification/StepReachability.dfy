/** Which steps a rollout can ever get past. */
module StepReachability {
  import opened Wrappers
  import opened Scaling
  import opened Sprt
  import MetricRuns
  import BoundedDecision
  import opened Aggregation
  import opened VirtualServices
  import opened Rollout
  import opened RolloutSafety

  // Some run from w0 gets past step k.
  ghost predicate Passable(cfg: Config, w0: World, k: nat) {
    exists r: Run, i: nat :: i <= |r.events| && Fixed(r, cfg) && At(r, 0) == w0 && At(r, i).status.currentStep > k
  }

  // The gate can open: there is no analysis, or an analysis that has metrics and somewhere to query them.
  predicate CanOpen(cfg: Config) {
    cfg.analysis == None || (cfg.prometheus && cfg.analysis.value.metrics != [])
  }

  // The gate does not stand in front of step j, or can open.
  predicate CanLeave(cfg: Config, j: nat)
    requires j < |cfg.steps|
  {
    CanOpen(cfg) || Pause(cfg.steps[j]) <= 0
  }

  // ---------------------------------------------------------------- a gate that cannot open

  // Before or at step k, with no verdicts stored.
  predicate Stuck(k: nat, st: Status) {
    st.analysis == [] && st.currentStep <= k && st.phase != PhasePromoted
  }

  lemma NoMetricsNoVerdict(an: Analysis, readings: seq<Reading>)
    requires an.metrics == []
    ensures Cycle(an, [], readings) == Decided(Continue, [])
  {}

  lemma PlanStuck(spec: Spec, st: Status, env: Env, k: nat)
    requires !CanOpen(spec.config) && Stuck(k, st)
    requires k < |spec.config.steps| && Pause(spec.config.steps[k]) > 0
    ensures var e := Plan(spec, st, env); e.flush.Some? ==> Stuck(k, e.flush.value)
  {
    if spec.config.prometheus {
      NoMetricsNoVerdict(spec.config.analysis.value, env.readings);
    }
  }

  /** With an analysis that has no metrics or no Prometheus URL, no step that has a pause is ever left: no verdict can
      arrive and the gate waits for one. */
  lemma {:induction false} NeverPasses(r: Run, cfg: Config, k: nat, i: nat)
    requires Fixed(r, cfg) && FreshStatus(At(r, 0).status) && i <= |r.events| && k < |cfg.steps| && !CanLeave(cfg, k)
    ensures Stuck(k, At(r, i).status)
  {
    if i == 0 {
    } else {
      Reconciled(r, i - 1);
      NeverPasses(r, cfg, k, i - 1);
      PlanStuck(r.events[i - 1].spec, At(r, i - 1).status, r.events[i - 1].env, k);
    }
  }

  // ---------------------------------------------------------------- readings that pass every metric at once

  lemma CeilingOf(x: real) returns (n: nat)
    ensures n > 0 && n as real >= x
  {
    n := if x < 0.0 then 1 else x.Floor + 1;
  }

  lemma Absorbed(b: Bounds, m: Metric, r: Reading, n: nat, p0: Rate)
    requires n > 0 && r == Sampled(Some(n), Some(0), Some(1), Some(0)) && p0 == BaselineRate(0, 1)
    ensures var s := StepMetric(b, m, Fresh(m.name), r);
      s.Some? && s.value.ratio == Scale(1.0, SuccessFactor(p0, Alternative(p0, m)), n)
      && (s.value.verdict == Promote <==> Judge(b, s.value.ratio) == Promote)
  {
    MetricRuns.NextForward(b, m, Fresh(m.name), r);
  }

  // Enough successes in one poll, against a stable version without failures.
  lemma PassingReading(b: Bounds, m: Metric) returns (r: Reading)
    requires b.lower > 0.0 && b.upper > 0.0
    ensures var s := StepMetric(b, m, Fresh(m.name), r); s.Some? && s.value.verdict == Promote
  {
    var p0: Rate := BaselineRate(0, 1);
    var p1 := Alternative(p0, m);
    var goal := if b.lower < b.upper / 2.0 then b.lower else b.upper / 2.0;
    var n := CeilingOf((1.0 / goal - 1.0) * ((1.0 - p1) / (p1 - p0)));
    BoundedDecision.EnoughDecay(1.0, goal, p0, p1, n);
    r := Sampled(Some(n), Some(0), Some(1), Some(0));
    Absorbed(b, m, r, n, p0);
  }

  lemma {:induction false} PassingReadings(an: Analysis, k: nat) returns (row: seq<Reading>)
    requires k <= |an.metrics|
    ensures |row| == k
    ensures forall i :: 0 <= i < k ==>
      var s := StepMetric(an.Limits(), an.metrics[i], Fresh(an.metrics[i].name), row[i]);
      s.Some? && s.value.verdict == Promote
  {
    if k == 0 {
      return [];
    }
    row := PassingReadings(an, k - 1);
    MetricRuns.BoundsStraddleOne(an);
    var r := PassingReading(an.Limits(), an.metrics[k - 1]);
    row := row + [r];
  }

  /** Whatever the metrics, names given twice and alpha + beta >= 1 included, some poll promotes all of them at once. */
  lemma PassingPoll(an: Analysis) returns (row: seq<Reading>)
    requires an.metrics != []
    ensures Cycle(an, [], row).Decided? && Cycle(an, [], row).decision == PromoteAll
  {
    row := PassingReadings(an, |an.metrics|);
    forall i | 0 <= i < |an.metrics|
      ensures After(an, [], row, i).Some? && After(an, [], row, i).value.verdict == Promote
    {
      assert Answer(row, i) == row[i];
    }
    CycleMeaning(an, [], row);
  }

  // ---------------------------------------------------------------- a run through the steps

  // On step k, with no states stored yet and a route to patch.
  predicate EntersAt(cfg: Config, k: nat, w: World) {
    w.status.phase == PhaseRunning && w.status.currentStep == k && w.status.analysis == [] && FirstRoute(w.vs).Some?
  }

  lemma WeightSet(cfg: Config, ev: Event, w: World)
    requires w.status.currentStep < |cfg.steps| && EntersAt(cfg, w.status.currentStep, w) && !AtWeight(cfg, w.status)
    requires ev == Tick(cfg, ev.env.now, ev.env.readings)
    ensures var w' := Next(ev.spec, w, ev.env);
      EntersAt(cfg, w.status.currentStep, w') && AtWeight(cfg, w'.status)
  {}

  // What the analyzer may say for a step to be left.
  predicate LetsPass(cfg: Config, k: nat, readings: seq<Reading>)
    requires k < |cfg.steps|
  {
    cfg.analysis.Some? && cfg.prometheus ==>
      var c := Cycle(cfg.analysis.value, [], readings);
      c.Decided? && c.decision != RollBack && (c.decision == PromoteAll || Pause(cfg.steps[k]) <= 0)
  }

  lemma StepLeft(cfg: Config, ev: Event, w: World)
    requires EntersAt(cfg, w.status.currentStep, w) && AtWeight(cfg, w.status) && CanLeave(cfg, w.status.currentStep)
    requires ev == Tick(cfg, ev.env.now, ev.env.readings)
    requires ev.env.now - w.status.lastTransition >= Pause(cfg.steps[w.status.currentStep])
    requires LetsPass(cfg, w.status.currentStep, ev.env.readings)
    ensures var k, w' := w.status.currentStep, Next(ev.spec, w, ev.env);
      w'.status.currentStep == k + 1 && (k + 1 < |cfg.steps| ==> EntersAt(cfg, k + 1, w'))
  {}

  // A run from w0 without faults that ends on step k.
  ghost predicate Reaches(r: Run, cfg: Config, w0: World, k: nat) {
    Fixed(r, cfg) && FaultFree(r) && At(r, 0) == w0 && EntersAt(cfg, k, At(r, |r.events|))
  }

  lemma SetStep(r: Run, cfg: Config, w0: World, k: nat) returns (r': Run)
    requires k < |cfg.steps| && Reaches(r, cfg, w0, k)
    ensures Reaches(r', cfg, w0, k) && AtWeight(cfg, At(r', |r'.events|).status)
  {
    r' := r;
    if !AtWeight(cfg, At(r, |r.events|).status) {
      var raise := Tick(cfg, 0, []);
      WeightSet(cfg, raise, At(r, |r.events|));
      r' := Then(r, raise);
    }
  }

  lemma PassingRow(cfg: Config, k: nat) returns (row: seq<Reading>)
    requires k < |cfg.steps| && CanLeave(cfg, k)
    ensures LetsPass(cfg, k, row)
  {
    row := [];
    if cfg.analysis.Some? && cfg.analysis.value.metrics != [] {
      row := PassingPoll(cfg.analysis.value);
    } else if cfg.analysis.Some? {
      NoMetricsNoVerdict(cfg.analysis.value, row);
    }
  }

  lemma LeaveStep(r: Run, cfg: Config, w0: World, k: nat) returns (r': Run)
    requires k < |cfg.steps| && CanLeave(cfg, k) && Reaches(r, cfg, w0, k)
    ensures Fixed(r', cfg) && FaultFree(r') && At(r', 0) == w0 && At(r', |r'.events|).status.currentStep == k + 1
    ensures k + 1 < |cfg.steps| ==> Reaches(r', cfg, w0, k + 1)
  {
    r' := SetStep(r, cfg, w0, k);
    var w := At(r', |r'.events|);
    var row := PassingRow(cfg, k);
    var leave := Tick(cfg, w.status.lastTransition + Pause(cfg.steps[k]), row);
    StepLeft(cfg, leave, w);
    r' := Then(r', leave);
  }

  lemma {:induction false} RunTo(cfg: Config, w0: World, k: nat) returns (r: Run)
    requires k < |cfg.steps| && forall j :: 0 <= j < k ==> CanLeave(cfg, j)
    requires FreshStatus(w0.status) && FirstRoute(w0.vs).Some?
    ensures Reaches(r, cfg, w0, k)
  {
    if k == 0 {
      r := Then(Begin(w0), Tick(cfg, 0, []));
    } else {
      r := RunTo(cfg, w0, k - 1);
      r := LeaveStep(r, cfg, w0, k - 1);
    }
  }

  /** From any fresh resource with a route to patch, step k can be passed exactly when the gate can open, that is there
      is no analysis, or there are a URL and some metrics; or no step up to k has a pause. */
  lemma PassableSteps(cfg: Config, w0: World, k: nat)
    requires k < |cfg.steps| && FreshStatus(w0.status) && FirstRoute(w0.vs).Some?
    ensures Passable(cfg, w0, k) <==> CanOpen(cfg) || forall j :: 0 <= j <= k ==> Pause(cfg.steps[j]) <= 0
  {
    if forall j :: 0 <= j <= k ==> CanLeave(cfg, j) {
      var r := RunTo(cfg, w0, k);
      r := LeaveStep(r, cfg, w0, k);
      assert At(r, |r.events|).status.currentStep > k;
      forall j | 0 <= j <= k && !CanOpen(cfg) ensures Pause(cfg.steps[j]) <= 0 {
        assert CanLeave(cfg, j);
      }
    } else {
      var j :| 0 <= j <= k && !CanLeave(cfg, j);
      forall r: Run, i: nat | i <= |r.events| && Fixed(r, cfg) && At(r, 0) == w0
        ensures At(r, i).status.currentStep <= k
      {
        NeverPasses(r, cfg, j, i);
      }
    }
  }
}
