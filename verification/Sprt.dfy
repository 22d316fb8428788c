/** The analyzer: one cycle of the sequential probability ratio test over all configured metrics.

    The accumulator is kept as the likelihood ratio itself, the exponential of the source's
    log-likelihood, so adding k * ln(x) becomes multiplying by x^k and the two bounds are
    (1 - beta) / alpha and beta / (1 - alpha). */
module Sprt {
  import opened Wrappers
  import opened Scaling

  const EPSILON: real := 0.0000000001

  type Rate = p: real | 0.0 < p < 1.0 witness 0.5

  datatype Verdict = Pending | Promote | Rollback

  datatype RawMetric = Metric(name: string, delta: real)
  type Metric = m: RawMetric | m.delta > 0.0 witness Metric("", 1.0)

  // Reaching upper rejects "the canary is as good as stable"; reaching lower accepts it.
  datatype Bounds = Bounds(lower: real, upper: real)

  datatype Analysis = Analysis(alpha: Rate, beta: Rate, intervalSeconds: int, metrics: seq<Metric>) {
    function Limits(): (b: Bounds)
      ensures b.lower > 0.0 && b.upper > 0.0
    {
      Bounds(beta / (1.0 - alpha), (1.0 - beta) / alpha)
    }

    ghost predicate DistinctNames() {
      forall i, j :: 0 <= i < j < |metrics| ==> metrics[i].name != metrics[j].name
    }
  }

  /** The answers to the four counter queries of one metric: an error in any of them, or four
      cumulative counters, each absent when the query returned no sample. */
  datatype RawReading =
    | QueryError
    | Sampled(canaryTotal: Option<nat>, canaryFailure: Option<nat>,
              stableTotal: Option<nat>, stableFailure: Option<nat>)
  {
    predicate Usable() {
      Sampled? && canaryTotal.Some? && canaryFailure.Some? && stableTotal.Some? && stableFailure.Some?
      && stableTotal.value != 0
    }
  }

  // The stable version does not fail every single request, so that 1 - p0 is not zero.
  type Reading = r: RawReading | r.Usable() ==> r.stableFailure.value < r.stableTotal.value witness QueryError

  datatype MetricState = MetricState(
    name: string, ratio: real, observations: nat, failures: nat, baselineRate: real,
    lastTotal: nat, lastFailure: nat, verdict: Verdict)

  datatype Decision = Continue | PromoteAll | RollBack
  datatype CycleOutcome = QueryFailed | Decided(decision: Decision, states: seq<MetricState>)

  // ---------------------------------------------------------------- one metric

  function Fresh(name: string): MetricState {
    MetricState(name, 1.0, 0, 0, 0.0, 0, 0, Pending)
  }

  function BaselineRate(failure: nat, total: nat): (p0: Rate)
    requires failure < total
  {
    var p := failure as real / total as real;
    assert 0.0 <= p < 1.0;
    if p < EPSILON then EPSILON else p
  }

  function Baseline(r: Reading): (p0: Rate)
    requires r.Usable()
  {
    BaselineRate(r.stableFailure.value, r.stableTotal.value)
  }

  function Alternative(p0: Rate, m: Metric): (p1: Rate) {
    if p0 + m.delta >= 1.0 then 1.0 - EPSILON else p0 + m.delta
  }

  // What one more failure, or one more success, multiplies the likelihood ratio by.
  function FailureFactor(p0: Rate, p1: Rate): real { p1 as real / p0 as real }
  function SuccessFactor(p0: Rate, p1: Rate): real { (1.0 - p1) / (1.0 - p0) }

  /** ratio * (p1/p0)^failures * ((1-p1)/(1-p0))^(total - failures). */
  function Weigh(ratio: real, p0: Rate, p1: Rate, failures: nat, total: nat): real {
    var afterFailures := Scale(ratio, FailureFactor(p0, p1), failures);
    if failures <= total then Scale(afterFailures, SuccessFactor(p0, p1), total - failures)
    else Scale(afterFailures, SuccessFactor(p1, p0), failures - total)
  }

  function Judge(b: Bounds, ratio: real): Verdict {
    if ratio >= b.upper then Rollback
    else if ratio <= b.lower then Promote
    else Pending
  }

  predicate IsReset(s: MetricState, r: Reading)
    requires r.Usable()
  {
    r.canaryTotal.value < s.lastTotal || r.canaryFailure.value < s.lastFailure
  }

  function Absorb(b: Bounds, m: Metric, s: MetricState, r: Reading): MetricState
    requires r.Usable()
  {
    var p0 := Baseline(r);
    var ct, cf := r.canaryTotal.value, r.canaryFailure.value;
    if IsReset(s, r) then
      MetricState(m.name, 1.0, 0, 0, p0, ct, cf, Pending)
    else
      var total, failures := ct - s.lastTotal, cf - s.lastFailure;
      var ratio := if total > 0 then Weigh(s.ratio, p0, Alternative(p0, m), failures, total) else s.ratio;
      var judged := Judge(b, ratio);
      MetricState(s.name, ratio,
                  if total > 0 then s.observations + total else s.observations,
                  if total > 0 then s.failures + failures else s.failures,
                  p0, ct, cf, if judged == Pending then s.verdict else judged)
  }

  /** One cycle of one metric on its own. None: a query failed and the whole cycle is abandoned. */
  function StepMetric(b: Bounds, m: Metric, s: MetricState, r: Reading): Option<MetricState> {
    if s.verdict != Pending then Some(s)
    else if r.QueryError? then None
    else if !r.Usable() then Some(s)
    else Some(Absorb(b, m, s, r))
  }

  // ---------------------------------------------------------------- all metrics

  function FindOrInit(states: seq<MetricState>, name: string): MetricState {
    if states == [] then Fresh(name)
    else if states[0].name == name then states[0]
    else FindOrInit(states[1..], name)
  }

  // A metric for which the environment recorded no answer counts as a failed query.
  function Answer(readings: seq<Reading>, i: nat): Reading {
    if i < |readings| then readings[i] else QueryError
  }

  function Before(an: Analysis, current: seq<MetricState>, i: nat): MetricState
    requires i < |an.metrics|
  {
    FindOrInit(current, an.metrics[i].name)
  }

  function After(an: Analysis, current: seq<MetricState>, readings: seq<Reading>, i: nat): Option<MetricState>
    requires i < |an.metrics|
  {
    StepMetric(an.Limits(), an.metrics[i], Before(an, current, i), Answer(readings, i))
  }

  predicate RollsBack(an: Analysis, current: seq<MetricState>, readings: seq<Reading>, i: nat)
    requires i < |an.metrics|
  {
    Before(an, current, i).verdict == Pending
    && After(an, current, readings, i).Some?
    && After(an, current, readings, i).value.verdict == Rollback
  }

  // The cycle ends early at a metric whose query fails or that newly decides to roll back.
  predicate Stops(an: Analysis, current: seq<MetricState>, readings: seq<Reading>, i: nat)
    requires i < |an.metrics|
  {
    After(an, current, readings, i).None? || RollsBack(an, current, readings, i)
  }

  function FirstStop(an: Analysis, current: seq<MetricState>, readings: seq<Reading>, from: nat): (k: nat)
    requires from <= |an.metrics|
    ensures from <= k <= |an.metrics|
    ensures forall i :: from <= i < k ==>
      After(an, current, readings, i).Some? && !RollsBack(an, current, readings, i)
    ensures k < |an.metrics| ==> Stops(an, current, readings, k)
    decreases |an.metrics| - from
  {
    if from == |an.metrics| || Stops(an, current, readings, from) then from
    else FirstStop(an, current, readings, from + 1)
  }

  function States(an: Analysis, current: seq<MetricState>, readings: seq<Reading>, k: nat): (states: seq<MetricState>)
    requires k <= |an.metrics|
    requires forall i :: 0 <= i < k ==> After(an, current, readings, i).Some?
    ensures |states| == k
    ensures forall i :: 0 <= i < k ==> states[i] == After(an, current, readings, i).value
  {
    if k == 0 then []
    else States(an, current, readings, k - 1) + [After(an, current, readings, k - 1).value]
  }

  predicate AllPromoted(states: seq<MetricState>) {
    |states| > 0 && forall s :: s in states ==> s.verdict == Promote
  }

  /** What one cycle decides, stated by independent per-metric steps: every metric is stepped from
      its own stored state, and the first one that fails or rolls back settles the cycle. */
  function Cycle(an: Analysis, current: seq<MetricState>, readings: seq<Reading>): CycleOutcome {
    var k := FirstStop(an, current, readings, 0);
    if k < |an.metrics| then
      if After(an, current, readings, k).None? then QueryFailed
      else Decided(RollBack, States(an, current, readings, k + 1))
    else
      var states := States(an, current, readings, k);
      Decided(if AllPromoted(states) then PromoteAll else Continue, states)
  }

  // ---------------------------------------------------------------- the imperative analyzer

  method FindOrInitState(states: seq<MetricState>, name: string) returns (state: MetricState)
    ensures state == FindOrInit(states, name)
  {
    for i := 0 to |states|
      invariant FindOrInit(states, name) == FindOrInit(states[i..], name)
    {
      assert states[i..][1..] == states[i + 1..];
      if states[i].name == name {
        return states[i];
      }
    }
    return Fresh(name);
  }

  // The part of the loop body of RunSprt that works on one metric's numbers.
  method Accumulate(b: Bounds, metric: Metric, before: MetricState, reading: Reading) returns (state: MetricState)
    requires reading.Usable() && before.verdict == Pending
    ensures state == Absorb(b, metric, before, reading)
  {
    state := before;
    var p0 := Baseline(reading);
    var p1 := Alternative(p0, metric);
    var newTotal := reading.canaryTotal.value - state.lastTotal;
    var newFailures := reading.canaryFailure.value - state.lastFailure;

    if newTotal < 0 || newFailures < 0 {
      return MetricState(metric.name, 1.0, 0, 0, p0,
                         reading.canaryTotal.value, reading.canaryFailure.value, Pending);
    }
    if newTotal > 0 {
      state := state.(ratio := Weigh(state.ratio, p0, p1, newFailures, newTotal));
      state := state.(observations := state.observations + newTotal);
      state := state.(failures := state.failures + newFailures);
    }
    state := state.(lastTotal := reading.canaryTotal.value);
    state := state.(lastFailure := reading.canaryFailure.value);
    state := state.(baselineRate := p0);

    if state.ratio >= b.upper {
      state := state.(verdict := Rollback);
    } else if state.ratio <= b.lower {
      state := state.(verdict := Promote);
    }
  }

  // The scan shared by the end of RunSprt and the reconciler's gate.
  method PromotesAll(states: seq<MetricState>) returns (allPromote: bool)
    ensures allPromote == AllPromoted(states)
  {
    allPromote := |states| > 0;
    for i := 0 to |states|
      invariant allPromote == (|states| > 0 && forall j :: 0 <= j < i ==> states[j].verdict == Promote)
    {
      if states[i].verdict != Promote {
        allPromote := false;
        break;
      }
    }
  }

  method RunSprt(an: Analysis, clientOk: bool, current: seq<MetricState>, readings: seq<Reading>)
    returns (outcome: CycleOutcome)
    ensures !clientOk ==> outcome == QueryFailed
    ensures clientOk ==> outcome == Cycle(an, current, readings)
  {
    if !clientOk {
      return QueryFailed;
    }
    var bounds := Bounds(an.beta / (1.0 - an.alpha), (1.0 - an.beta) / an.alpha);
    var updated: seq<MetricState> := [];
    for i := 0 to |an.metrics|
      invariant FirstStop(an, current, readings, 0) == FirstStop(an, current, readings, i)
      invariant forall j :: 0 <= j < i ==> !Stops(an, current, readings, j)
      invariant updated == States(an, current, readings, i)
    {
      var metric := an.metrics[i];
      var state := FindOrInitState(current, metric.name);

      if state.verdict == Promote || state.verdict == Rollback {
        updated := updated + [state];
        continue;
      }
      var reading := Answer(readings, i);
      if reading.QueryError? {
        return QueryFailed;
      }
      if reading.canaryTotal == None || reading.canaryFailure == None
         || reading.stableTotal == None || reading.stableFailure == None {
        updated := updated + [state];
        continue;
      }
      if reading.stableTotal.value == 0 {
        updated := updated + [state];
        continue;
      }
      state := Accumulate(bounds, metric, state, reading);
      assert Some(state) == After(an, current, readings, i);
      updated := updated + [state];
      if state.verdict == Rollback {
        return Decided(RollBack, updated);
      }
    }
    var allPromote := PromotesAll(updated);
    if allPromote {
      return Decided(PromoteAll, updated);
    }
    return Decided(Continue, updated);
  }
}
