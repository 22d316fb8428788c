/** A rollout under analysis finishes, when its metrics are healthy. */
module AnalysedProgress {
  import opened Wrappers
  import opened Sprt
  import MetricRuns
  import opened BoundedDecision
  import opened Aggregation
  import opened Rollout
  import opened RolloutSafety
  import opened PromotionCertificate
  import opened StoredStates
  import opened RolloutProgress
  import opened StepDuration

  // Every metric can be told from its degraded self, and n requests of successes pass each of them.
  ghost predicate PassableWithin(an: Analysis, p0s: seq<Rate>, n: nat) {
    |p0s| == |an.metrics| && an.metrics != [] && an.DistinctNames() && an.alpha + an.beta < 1.0
    && forall k :: 0 <= k < |p0s| ==>
         Degradable(an.metrics[k], p0s[k]) && n as real >= PassLimit(an, an.metrics[k], p0s[k])
  }

  // No query fails, and no metric has shown anything but successes since the step began. Polls without data or
  // without new requests are allowed.
  ghost predicate HealthySince(an: Analysis, p0s: seq<Rate>, rows: seq<seq<Reading>>, row: seq<Reading>)
    requires |p0s| == |an.metrics|
  {
    forall k :: 0 <= k < |p0s| ==>
      Answer(row, k).Sampled? && HealthyStream(ZERO, p0s[k], Column(rows, k) + [Answer(row, k)])
  }

  /** Every fruitful row brings a new request to every metric. */
  lemma {:induction false} HarvestBrings(an: Analysis, p0: Rate, rows: seq<seq<Reading>>, k: nat)
    requires k < |an.metrics| && HealthyStream(ZERO, p0, Column(rows, k))
    ensures Harvest(an, rows) <= NewRequests(ZERO, Column(rows, k))
  {
    if rows == [] {
    } else {
      var front, row := rows[..|rows| - 1], rows[|rows| - 1];
      assert rows == front + [row];
      ColumnSnoc(front, row, k);
      var rs := Column(rows, k);
      assert rs[..|rs| - 1] == Column(front, k) && rs[|rs| - 1] == Answer(row, k);
      HarvestBrings(an, p0, front, k);
    }
  }

  lemma HealthyCycle(an: Analysis, p0s: seq<Rate>, n: nat, rows: seq<seq<Reading>>, row: seq<Reading>)
    requires PassableWithin(an, p0s, n) && Quiet(an, rows) && HealthySince(an, p0s, rows, row)
    ensures var c := Cycle(an, RunCycles(an, rows), row);
      c.Decided? && c.decision != RollBack && (Harvest(an, rows + [row]) >= n ==> c.decision == PromoteAll)
  {
    var states := RunCycles(an, rows);
    QuietIndependence(an, rows);
    forall k | 0 <= k < |an.metrics|
      ensures After(an, states, row, k).Some? && After(an, states, row, k).value.verdict != Rollback
      ensures Harvest(an, rows + [row]) >= n ==> After(an, states, row, k).value.verdict == Promote
    {
      var m := an.metrics[k];
      AloneStep(an, rows, row, k);
      ColumnSnoc(rows, row, k);
      HealthyMetric(an, m, p0s[k], Column(rows + [row], k));
      HarvestBrings(an, p0s[k], rows + [row], k);
    }
    CycleMeaning(an, states, row);
  }

  // Whenever the rollout stands at the weight of a step, its metrics are healthy; and every reconcile on time finds a
  // new request for each of them.
  ghost predicate HealthyAt(r: Run, cfg: Config, an: Analysis, p0s: seq<Rate>, i: nat)
    requires |p0s| == |an.metrics| && i < |r.events|
  {
    var rows, env := Rows(r, Evidence(r, i)), r.events[i].env;
    env.clientOk && HealthySince(an, p0s, rows, env.readings) && (OnTime(r, i) ==> Brings(an, rows, env.readings))
  }

  lemma HealthyHelps(r: Run, cfg: Config, an: Analysis, p0s: seq<Rate>, n: nat, i: nat)
    requires Fixed(r, cfg) && FreshStatus(At(r, 0).status) && cfg.prometheus && cfg.analysis == Some(an)
    requires PassableWithin(an, p0s, n) && i < |r.events| && AtWeight(cfg, At(r, i).status)
    requires HealthyAt(r, cfg, an, p0s, i)
    ensures Helps(r, cfg, n, i)
  {
    var rows, row := Rows(r, Evidence(r, i)), r.events[i].env.readings;
    StatesExplained(r, cfg, i);
    HealthyCycle(an, p0s, n, rows, row);
    assert (rows + [row])[..|rows|] == rows;
  }

  /** A fresh rollout all of whose metrics show nothing but successes is promoted within 1 + the sum over its steps of
      (2 + ceil(pause / interval) + n) reconciles on time, where n requests pass the slowest metric. Reconciles on time
      find a new request for every metric; early ones may find none, or no data. */
  lemma HealthyRolloutFinishes(r: Run, cfg: Config, an: Analysis, p0s: seq<Rate>, n: nat)
    requires cfg.prometheus && cfg.analysis == Some(an) && PassableWithin(an, p0s, n)
    requires r.events != [] && cfg.steps != [] && FreshStatus(At(r, 0).status) && UnderWay(cfg, At(r, 0)) && ClockRuns(r)
    requires forall i :: 0 <= i < |r.events| ==> Smooth(cfg, r.events[i])
    requires forall i :: 0 <= i < |r.events| && AtWeight(cfg, At(r, i).status) ==> HealthyAt(r, cfg, an, p0s, i)
    requires OnTimeCount(r, |r.events|) >= 1 + Rest(cfg, n, 0)
    ensures At(r, |r.events|).status.phase == PhasePromoted
  {
    forall i | 0 <= i < |r.events| && AtWeight(cfg, At(r, i).status) ensures Helps(r, cfg, n, i) {
      HealthyHelps(r, cfg, an, p0s, n, i);
    }
    FreshRolloutFinishes(r, cfg, n);
  }
}
