/** How much one-sided traffic a step under analysis can see, whatever writes fail meanwhile. */
module StepDuration {
  import opened Wrappers
  import opened Sprt
  import MetricRuns
  import opened BoundedDecision
  import opened Aggregation
  import opened VirtualServices
  import opened Rollout
  import opened RolloutSafety
  import opened PromotionCertificate
  import opened StoredStates
  import opened RolloutProgress

  const ZERO: Counts := Counts(0, 0)

  // ---------------------------------------------------------------- tests begun afresh

  // Metric m at baseline p0, with an alternative above it.
  predicate Degradable(m: Metric, p0: Rate) {
    p0 < Alternative(p0, m)
  }

  lemma FreshIsBanded(an: Analysis, m: Metric)
    requires an.alpha + an.beta < 1.0
    ensures MetricRuns.Banded(an.Limits(), Fresh(m.name))
  {
    MetricRuns.BoundsStraddleOne(an);
  }

  ghost function PassLimit(an: Analysis, m: Metric, p0: Rate): real
    requires Degradable(m, p0)
  {
    RequestsToPromote(an.Limits(), 1.0, p0, Alternative(p0, m))
  }

  ghost function FailLimit(an: Analysis, m: Metric, p0: Rate): real
    requires Degradable(m, p0)
  {
    RequestsToRollback(an.Limits(), 1.0, p0, Alternative(p0, m))
  }

  lemma BrokenMetric(an: Analysis, m: Metric, p0: Rate, rs: seq<Reading>)
    requires an.alpha + an.beta < 1.0 && Degradable(m, p0) && BrokenStream(ZERO, p0, rs)
    ensures var t := MetricRuns.Run(an.Limits(), m, Fresh(m.name), rs);
      NewRequests(ZERO, rs) >= 0 && t.verdict != Promote
      && (NewRequests(ZERO, rs) as real >= FailLimit(an, m, p0) ==> t.verdict == Rollback)
  {
    FreshIsBanded(an, m);
    MetricRuns.FactorOrder(p0, Alternative(p0, m));
    BrokenTracks(an.Limits(), m, Fresh(m.name), p0, FailureFactor(p0, Alternative(p0, m)), rs);
    if NewRequests(ZERO, rs) as real >= FailLimit(an, m, p0) {
      BrokenStreamRollsBack(an.Limits(), m, Fresh(m.name), p0, Alternative(p0, m), rs);
    }
  }

  lemma HealthyMetric(an: Analysis, m: Metric, p0: Rate, rs: seq<Reading>)
    requires an.alpha + an.beta < 1.0 && Degradable(m, p0) && HealthyStream(ZERO, p0, rs)
    ensures var t := MetricRuns.Run(an.Limits(), m, Fresh(m.name), rs);
      NewRequests(ZERO, rs) >= 0 && t.verdict != Rollback
      && (NewRequests(ZERO, rs) as real >= PassLimit(an, m, p0) ==> t.verdict == Promote)
  {
    FreshIsBanded(an, m);
    MetricRuns.FactorOrder(p0, Alternative(p0, m));
    HealthyTracks(an.Limits(), m, Fresh(m.name), p0, SuccessFactor(p0, Alternative(p0, m)), rs);
    if NewRequests(ZERO, rs) as real >= PassLimit(an, m, p0) {
      HealthyStreamPromotes(an.Limits(), m, Fresh(m.name), p0, Alternative(p0, m), rs);
    }
  }

  // ---------------------------------------------------------------- a metric with nothing but failures

  lemma NotRolledBack(r: Run, cfg: Config, i: nat, k: nat)
    requires Analysed(r, cfg) && i <= |r.events| && k < |cfg.analysis.value.metrics|
    requires At(r, i).status.phase != PhaseAborted
    ensures var an := cfg.analysis.value; var m := an.metrics[k];
      MetricRuns.Run(an.Limits(), m, Fresh(m.name), Gathered(r, i, k)).verdict != Rollback
  {
    var an := cfg.analysis.value;
    StatesExplained(r, cfg, i);
    QuietIndependence(an, Rows(r, Evidence(r, i)));
    NoStrandedVerdict(r, i);
    FindNoRollback(At(r, i).status.analysis, an.metrics[k].name);
    assert Before(an, At(r, i).status.analysis, k) == Alone(an, Rows(r, Evidence(r, i)), k);
  }

  /** A rollout one of whose metrics shows nothing but failures is aborted before the polls stored in its step have shown
      as many of its requests as the test needs for a rollback, however often they repeat themselves or have no data. */
  lemma BrokenMetricAborts(r: Run, cfg: Config, i: nat, k: nat, p0: Rate)
    requires Analysed(r, cfg) && cfg.analysis.value.alpha + cfg.analysis.value.beta < 1.0
    requires i <= |r.events| && k < |cfg.analysis.value.metrics| && Degradable(cfg.analysis.value.metrics[k], p0)
    requires BrokenStream(ZERO, p0, Gathered(r, i, k)) && At(r, i).status.phase != PhaseAborted
    ensures NewRequests(ZERO, Gathered(r, i, k)) as real
            < FailLimit(cfg.analysis.value, cfg.analysis.value.metrics[k], p0)
  {
    NotRolledBack(r, cfg, i, k);
    BrokenMetric(cfg.analysis.value, cfg.analysis.value.metrics[k], p0, Gathered(r, i, k));
  }

  // An undisturbed reconcile at which the analyzer answers, metric k has shown nothing but failures in the step, and,
  // if the reconcile is on time, a new one.
  ghost predicate FailsAt(r: Run, cfg: Config, k: nat, p0: Rate, i: nat)
    requires i < |r.events| && Analysed(r, cfg) && k < |cfg.analysis.value.metrics|
  {
    var ev, an := r.events[i], cfg.analysis.value;
    var rs, reading := Gathered(r, i, k), Answer(ev.env.readings, k);
    Smooth(cfg, ev) && ev.env.clientOk && Cycle(an, At(r, i).status.analysis, ev.env.readings).Decided?
    && BrokenStream(ZERO, p0, rs + [reading])
    && (OnTime(r, i) ==> Fruitful(Seen(ZERO, rs), reading))
  }

  // Aborted, or still at the weight of step c with a new failure for every reconcile on time since reconcile i0.
  ghost predicate Failing(r: Run, cfg: Config, k: nat, p0: Rate, c: nat, i0: nat, i: nat)
    requires i0 <= i <= |r.events|
  {
    At(r, i).status.phase == PhaseAborted
    || (AtWeight(cfg, At(r, i).status) && At(r, i).status.currentStep == c
        && BrokenStream(ZERO, p0, Gathered(r, i, k))
        && NewRequests(ZERO, Gathered(r, i, k)) >= OnTimeCount(r, i) - OnTimeCount(r, i0))
  }

  // What is asked of the reconciles from i0 up to i, as long as the rollout is not aborted.
  ghost predicate FailsFrom(r: Run, cfg: Config, k: nat, p0: Rate, i0: nat, i: nat)
    requires i0 <= i <= |r.events| && Analysed(r, cfg) && k < |cfg.analysis.value.metrics|
    decreases i
  {
    i == i0
    || (FailsFrom(r, cfg, k, p0, i0, i - 1)
        && (At(r, i - 1).status.phase == PhaseAborted || FailsAt(r, cfg, k, p0, i - 1)))
  }

  // What the metric and its step must be like.
  ghost predicate Breakable(r: Run, cfg: Config, k: nat, p0: Rate, c: nat) {
    Analysed(r, cfg) && cfg.prometheus && cfg.analysis.value.alpha + cfg.analysis.value.beta < 1.0
    && k < |cfg.analysis.value.metrics| && Degradable(cfg.analysis.value.metrics[k], p0)
    && c < |cfg.steps| && Pause(cfg.steps[c]) > 0
  }

  lemma StreamGrows(p0: Rate, rs: seq<Reading>, r: Reading)
    requires BrokenStream(ZERO, p0, rs + [r])
    ensures BrokenStream(ZERO, p0, rs)
    ensures NewRequests(ZERO, rs + [r]) >= NewRequests(ZERO, rs)
    ensures Fruitful(Seen(ZERO, rs), r) ==> NewRequests(ZERO, rs + [r]) > NewRequests(ZERO, rs)
  {
    assert (rs + [r])[..|rs|] == rs;
  }

  lemma GatheredGrows(r: Run, i: nat, k: nat)
    requires i < |r.events| && Gathers(r.events[i], At(r, i).status)
    requires At(r, i + 1).status.currentStep == At(r, i).status.currentStep
    ensures Gathered(r, i + 1, k) == Gathered(r, i, k) + [Answer(r.events[i].env.readings, k)]
  {
    RowsSnoc(r, Evidence(r, i), i);
    var rows, row := Rows(r, Evidence(r, i)), r.events[i].env.readings;
    assert (rows + [row])[..|rows|] == rows;
  }

  lemma ColumnSnoc(rows: seq<seq<Reading>>, row: seq<Reading>, k: nat)
    ensures Column(rows + [row], k) == Column(rows, k) + [Answer(row, k)]
  {
    assert (rows + [row])[..|rows|] == rows;
  }

  lemma PromotingCycle(an: Analysis, current: seq<MetricState>, row: seq<Reading>, k: nat)
    requires k < |an.metrics| && Cycle(an, current, row).Decided?
    ensures Cycle(an, current, row).decision == PromoteAll ==>
      After(an, current, row, k).Some? && After(an, current, row, k).value.verdict == Promote
  {
    if Cycle(an, current, row).decision == PromoteAll {
      QuietCycleSteps(an, current, row);
      CycleMeaning(an, current, row);
    }
  }

  // While a metric is broken no cycle promotes: its test does not pass.
  lemma BrokenCycle(an: Analysis, k: nat, p0: Rate, rows: seq<seq<Reading>>, row: seq<Reading>)
    requires an.DistinctNames() && an.alpha + an.beta < 1.0 && Quiet(an, rows)
    requires k < |an.metrics| && Degradable(an.metrics[k], p0)
    requires BrokenStream(ZERO, p0, Column(rows, k) + [Answer(row, k)])
    requires Cycle(an, RunCycles(an, rows), row).Decided?
    ensures Cycle(an, RunCycles(an, rows), row).decision != PromoteAll
  {
    QuietIndependence(an, rows);
    AloneStep(an, rows, row, k);
    ColumnSnoc(rows, row, k);
    BrokenMetric(an, an.metrics[k], p0, Column(rows + [row], k));
    PromotingCycle(an, RunCycles(an, rows), row, k);
  }

  lemma BrokenReconcile(cfg: Config, ev: Event, w: World)
    requires Smooth(cfg, ev) && AtWeight(cfg, w.status) && cfg.prometheus && cfg.analysis.Some? && ev.env.clientOk
    requires Pause(cfg.steps[w.status.currentStep]) > 0
    requires Cycle(cfg.analysis.value, w.status.analysis, ev.env.readings).Decided?
    requires Cycle(cfg.analysis.value, w.status.analysis, ev.env.readings).decision != PromoteAll
    ensures var st := Next(ev.spec, w, ev.env).status;
      Gathers(ev, w.status)
      && (st.phase == PhaseAborted || (AtWeight(cfg, st) && st.currentStep == w.status.currentStep))
  {
    ScanAgrees(cfg.analysis.value, w.status.analysis, ev.env.readings);
  }

  lemma FailingStep(r: Run, cfg: Config, k: nat, p0: Rate, c: nat, i0: nat, i: nat)
    requires Breakable(r, cfg, k, p0, c) && i0 <= i < |r.events| && Failing(r, cfg, k, p0, c, i0, i)
    requires At(r, i).status.phase != PhaseAborted ==> FailsAt(r, cfg, k, p0, i)
    ensures Failing(r, cfg, k, p0, c, i0, i + 1)
  {
    Reconciled(r, i);
    if At(r, i).status.phase == PhaseAborted {
      AbortedIsFinal(r, i, i + 1);
    } else {
      StatesExplained(r, cfg, i);
      BrokenCycle(cfg.analysis.value, k, p0, Rows(r, Evidence(r, i)), r.events[i].env.readings);
      BrokenReconcile(cfg, r.events[i], At(r, i));
      if At(r, i + 1).status.phase != PhaseAborted {
        GatheredGrows(r, i, k);
        StreamGrows(p0, Gathered(r, i, k), Answer(r.events[i].env.readings, k));
      }
    }
  }

  lemma {:induction false} StaysFailing(r: Run, cfg: Config, k: nat, p0: Rate, c: nat, i0: nat, i: nat)
    requires Breakable(r, cfg, k, p0, c) && i0 <= i <= |r.events| && Failing(r, cfg, k, p0, c, i0, i0)
    requires FailsFrom(r, cfg, k, p0, i0, i)
    ensures Failing(r, cfg, k, p0, c, i0, i)
    decreases i
  {
    if i == i0 {
    } else {
      StaysFailing(r, cfg, k, p0, c, i0, i - 1);
      FailingStep(r, cfg, k, p0, c, i0, i - 1);
    }
  }

  lemma {:induction false} FailsFirst(r: Run, cfg: Config, k: nat, p0: Rate, i0: nat, i: nat)
    requires i0 < i <= |r.events| && Analysed(r, cfg) && k < |cfg.analysis.value.metrics|
    requires FailsFrom(r, cfg, k, p0, i0, i) && At(r, i0).status.phase != PhaseAborted
    ensures FailsAt(r, cfg, k, p0, i0)
    decreases i
  {
    if i == i0 + 1 {
    } else {
      FailsFirst(r, cfg, k, p0, i0, i - 1);
    }
  }

  /** From the moment the weight of a step with a pause is set, a metric that shows nothing but failures aborts the
      rollout within as many reconciles on time as its test needs requests for a rollback, early ones not counted. */
  lemma BrokenStepAborts(r: Run, cfg: Config, k: nat, p0: Rate, i0: nat, i: nat)
    requires i0 < i <= |r.events| && AtWeight(cfg, At(r, i0).status)
    requires Breakable(r, cfg, k, p0, At(r, i0).status.currentStep) && FailsFrom(r, cfg, k, p0, i0, i)
    requires (OnTimeCount(r, i) - OnTimeCount(r, i0)) as real
             >= FailLimit(cfg.analysis.value, cfg.analysis.value.metrics[k], p0)
    ensures At(r, i).status.phase == PhaseAborted
  {
    FailsFirst(r, cfg, k, p0, i0, i);
    StreamGrows(p0, Gathered(r, i0, k), Answer(r.events[i0].env.readings, k));
    BrokenMetric(cfg.analysis.value, cfg.analysis.value.metrics[k], p0, Gathered(r, i0, k));
    StaysFailing(r, cfg, k, p0, At(r, i0).status.currentStep, i0, i);
    if At(r, i).status.phase != PhaseAborted {
      BrokenMetricAborts(r, cfg, i, k, p0);
    }
  }

  // ---------------------------------------------------------------- metrics with nothing but successes

  // The polls stored in the step have shown nothing but successes of metric k, and as many as its test needs to pass.
  ghost predicate PassesOnSuccesses(r: Run, i: nat, an: Analysis, k: nat, p0: Rate)
    requires i <= |r.events| && k < |an.metrics|
  {
    Degradable(an.metrics[k], p0) && HealthyStream(ZERO, p0, Gathered(r, i, k))
    && NewRequests(ZERO, Gathered(r, i, k)) as real >= PassLimit(an, an.metrics[k], p0)
  }

  // Once every state is a pass, no reading and no failed query changes the decision.
  lemma PassedCycle(an: Analysis, current: seq<MetricState>, readings: seq<Reading>)
    requires an.metrics != [] && forall k :: 0 <= k < |an.metrics| ==> Before(an, current, k).verdict == Promote
    ensures Cycle(an, current, readings).Decided? && Cycle(an, current, readings).decision == PromoteAll
  {
    forall k | 0 <= k < |an.metrics|
      ensures After(an, current, readings, k) == Some(Before(an, current, k))
    {}
    CycleMeaning(an, current, readings);
  }

  lemma PassingReconcile(ev: Event, w: World, an: Analysis)
    requires PromotionCertificate.Undisturbed(ev.spec, w.status, ev.env) && TimerElapsed(ev.spec.config, w.status, ev.env)
    requires ev.spec.config.prometheus && ev.spec.config.analysis == Some(an) && ev.env.clientOk
    requires Cycle(an, w.status.analysis, ev.env.readings).Decided?
    requires Cycle(an, w.status.analysis, ev.env.readings).decision == PromoteAll && ev.env.statusWrite != Rejected
    ensures Next(ev.spec, w, ev.env).status.currentStep == w.status.currentStep + 1
  {
    ScanAgrees(an, w.status.analysis, ev.env.readings);
    AdvanceCondition(ev.spec, w.status, ev.env);
    AdvanceLands(ev.spec, w, ev.env);
  }

  /** A step all of whose metrics show nothing but successes is left by the first undisturbed reconcile that comes when
      the pause is over and the stored polls have shown as many requests of each metric as its test needs. */
  lemma HealthyStepIsLeft(r: Run, cfg: Config, i: nat, p0s: seq<Rate>)
    requires Analysed(r, cfg) && cfg.prometheus && cfg.analysis.value.alpha + cfg.analysis.value.beta < 1.0
    requires i < |r.events| && cfg.analysis.value.metrics != [] && |p0s| == |cfg.analysis.value.metrics|
    requires forall k :: 0 <= k < |p0s| ==> PassesOnSuccesses(r, i, cfg.analysis.value, k, p0s[k])
    requires PromotionCertificate.Undisturbed(r.events[i].spec, At(r, i).status, r.events[i].env)
    requires r.events[i].env.clientOk && r.events[i].env.statusWrite != Rejected
    requires TimerElapsed(cfg, At(r, i).status, r.events[i].env)
    ensures At(r, i + 1).status.currentStep == At(r, i).status.currentStep + 1
  {
    var an, ev, st := cfg.analysis.value, r.events[i], At(r, i).status;
    StatesExplained(r, cfg, i);
    QuietIndependence(an, Rows(r, Evidence(r, i)));
    forall k | 0 <= k < |an.metrics| ensures Before(an, st.analysis, k).verdict == Promote {
      assert PassesOnSuccesses(r, i, an, k, p0s[k]);
      HealthyMetric(an, an.metrics[k], p0s[k], Gathered(r, i, k));
    }
    PassedCycle(an, st.analysis, ev.env.readings);
    Reconciled(r, i);
    PassingReconcile(ev, At(r, i), an);
  }
}
