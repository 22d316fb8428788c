/** What one poll means, in terms of the counters, the two rates and the two bounds alone. */
module AnalyzerLaws {
  import opened Wrappers
  import opened Scaling
  import opened Sprt
  import MetricRuns
  import opened Aggregation

  // ---------------------------------------------------------------- the likelihood ratio

  function Power(x: real, n: nat): (p: real)
    ensures n == 0 ==> p == 1.0
  {
    if n == 0 then 1.0 else x * Power(x, n - 1)
  }

  ghost predicate Times(x: real, a: real, b: real) {
    x * a == b
  }

  ghost predicate Balanced(w: real, l0: real, ratio: real, l1: real) {
    w * l0 == ratio * l1
  }

  lemma {:induction false} ScaleIsPower(r: real, x: real, n: nat)
    ensures Scale(r, x, n) == r * Power(x, n)
  {
    if n == 0 {
    } else {
      ScaleIsPower(r, x, n - 1);
      ScaleSnoc(r, x, n - 1);
    }
  }

  lemma {:induction false} PowerPositive(x: real, n: nat)
    requires x > 0.0
    ensures Power(x, n) > 0.0
  {
    if n == 0 {
    } else {
      PowerPositive(x, n - 1);
    }
  }

  lemma Interchange(q: real, a: real, y: real, b: real, x: real, c: real)
    requires q * y == x && a * b == c
    ensures (q * a) * (y * b) == x * c
  {
    assert (q * a) * (y * b) == (q * y) * (a * b);
  }

  lemma {:induction false} PowerOfQuotient(x: real, y: real, q: real, n: nat)
    requires Times(q, y, x)
    ensures Times(Power(q, n), Power(y, n), Power(x, n))
  {
    if n == 0 {
    } else {
      PowerOfQuotient(x, y, q, n - 1);
      Interchange(q, Power(q, n - 1), y, Power(y, n - 1), x, Power(x, n - 1));
    }
  }

  // The probability of one particular course of `total` requests, `failures` of which fail, at failure rate p.
  function Likelihood(p: Rate, failures: nat, total: nat): real
    requires failures <= total
  {
    Power(p, failures) * Power(1.0 - p, total - failures)
  }

  lemma LikelihoodPositive(p: Rate, failures: nat, total: nat)
    requires failures <= total
    ensures Likelihood(p, failures, total) > 0.0
  {
    PowerPositive(p, failures);
    PowerPositive(1.0 - p, total - failures);
  }

  lemma FourFactors(r: real, s: real, w: real, a: real, b: real, c: real, d: real, ac: real, bd: real, l0: real, l1: real)
    requires Times(r, a, s) && Times(s, b, w) && Times(a, c, ac) && Times(b, d, bd) && Times(c, d, l0) && Times(ac, bd, l1)
    ensures Balanced(w, l0, r, l1)
  {
    Interchange(a, b, c, d, ac, bd);
    assert w * l0 == r * ((a * b) * (c * d));
  }

  // The accumulator after new requests: failures weighed by p1 / p0, then successes by q.
  lemma WeighedTwice(ratio: real, x: real, q: real, failures: nat, n: nat) returns (s: real)
    ensures s == Scale(ratio, x, failures) && Times(ratio, Power(x, failures), s)
    ensures Times(s, Power(q, n), Scale(s, q, n))
  {
    s := Scale(ratio, x, failures);
    ScaleIsPower(ratio, x, failures);
    ScaleIsPower(s, q, n);
  }

  // From ratio to w, new requests multiply by their likelihood under the alternative over that under the baseline. If
  // counters show more new failures than new requests, the difference counts against as many successes.
  ghost predicate LikelihoodRatio(ratio: real, w: real, p0: Rate, p1: Rate, failures: nat, total: nat) {
    if failures <= total then Balanced(w, Likelihood(p0, failures, total), ratio, Likelihood(p1, failures, total))
    else Balanced(w, Crossed(p0, p1, failures, failures - total), ratio, Crossed(p1, p0, failures, failures - total))
  }

  function Crossed(p: Rate, q: Rate, failures: nat, excess: nat): real {
    Power(p, failures) * Power(1.0 - q, excess)
  }

  lemma ScaledTwice(ratio: real, x: real, q: real, failures: nat, n: nat, a0: real, a1: real, b0: real, b1: real,
                    l0: real, l1: real, w: real)
    requires Times(x, a0, a1) && Times(q, b0, b1) && w == Scale(Scale(ratio, x, failures), q, n)
    requires Times(Power(a0, failures), Power(b0, n), l0) && Times(Power(a1, failures), Power(b1, n), l1)
    ensures Balanced(w, l0, ratio, l1)
  {
    var s := WeighedTwice(ratio, x, q, failures, n);
    PowerOfQuotient(a1, a0, x, failures);
    PowerOfQuotient(b1, b0, q, n);
    FourFactors(ratio, s, w, Power(x, failures), Power(q, n), Power(a0, failures), Power(b0, n),
                Power(a1, failures), Power(b1, n), l0, l1);
  }

  lemma FactorsTimesRates(p0: Rate, p1: Rate)
    ensures Times(FailureFactor(p0, p1), p0, p1) && Times(SuccessFactor(p0, p1), 1.0 - p0, 1.0 - p1)
  {}

  lemma LikelihoodFactors(p: Rate, q: Rate, failures: nat, n: nat)
    ensures Times(Power(p, failures), Power(1.0 - p, n), Likelihood(p, failures, failures + n))
    ensures Times(Power(p, failures), Power(1.0 - q, n), Crossed(p, q, failures, n))
  {}

  lemma WeighUpTo(ratio: real, p0: Rate, p1: Rate, failures: nat, total: nat)
    requires failures <= total
    ensures LikelihoodRatio(ratio, Weigh(ratio, p0, p1, failures, total), p0, p1, failures, total)
  {
    var n := total - failures;
    FactorsTimesRates(p0, p1);
    LikelihoodFactors(p0, p0, failures, n);
    LikelihoodFactors(p1, p1, failures, n);
    ScaledTwice(ratio, FailureFactor(p0, p1), SuccessFactor(p0, p1), failures, n, p0, p1, 1.0 - p0, 1.0 - p1,
                Likelihood(p0, failures, total), Likelihood(p1, failures, total), Weigh(ratio, p0, p1, failures, total));
  }

  lemma WeighBeyond(ratio: real, p0: Rate, p1: Rate, failures: nat, total: nat)
    requires failures > total
    ensures LikelihoodRatio(ratio, Weigh(ratio, p0, p1, failures, total), p0, p1, failures, total)
  {
    var n := failures - total;
    FactorsTimesRates(p0, p1);
    FactorsTimesRates(p1, p0);
    LikelihoodFactors(p0, p1, failures, n);
    LikelihoodFactors(p1, p0, failures, n);
    ScaledTwice(ratio, FailureFactor(p0, p1), SuccessFactor(p1, p0), failures, n, p0, p1, 1.0 - p1, 1.0 - p0,
                Crossed(p0, p1, failures, n), Crossed(p1, p0, failures, n), Weigh(ratio, p0, p1, failures, total));
  }

  /** The accumulator is the likelihood ratio. */
  lemma WeighIsLikelihoodRatio(ratio: real, p0: Rate, p1: Rate, failures: nat, total: nat)
    ensures LikelihoodRatio(ratio, Weigh(ratio, p0, p1, failures, total), p0, p1, failures, total)
  {
    if failures <= total {
      WeighUpTo(ratio, p0, p1, failures, total);
    } else {
      WeighBeyond(ratio, p0, p1, failures, total);
    }
  }

  // ---------------------------------------------------------------- one poll of one metric

  // The rates one poll compares: stable's own, but at least 1e-10; and delta above it, but below 1 by as much.
  predicate Compares(m: Metric, r: Reading, p0: Rate, p1: Rate)
    requires r.Sampled? && r.stableFailure.Some? && r.stableTotal.Some? && r.stableTotal.value > 0
  {
    var rate := r.stableFailure.value as real / r.stableTotal.value as real;
    p0 == (if rate < 0.0000000001 then 0.0000000001 else rate)
    && p1 == (if p0 + m.delta >= 1.0 then 0.9999999999 else p0 + m.delta)
  }

  // A poll that says something: all four counters, and traffic on stable.
  predicate Complete(r: Reading) {
    r.Sampled? && r.canaryTotal.Some? && r.canaryFailure.Some? && r.stableTotal.Some? && r.stableFailure.Some?
    && r.stableTotal.value > 0
  }

  /** A decided metric is not queried, a failed query gives up the cycle, and a poll with a counter missing, or without
      traffic on stable, leaves the metric as it is. */
  lemma IdleSteps(b: Bounds, m: Metric, s: MetricState, r: Reading)
    ensures s.verdict != Pending ==> StepMetric(b, m, s, r) == Some(s)
    ensures StepMetric(b, m, s, r) == None <==> s.verdict == Pending && r.QueryError?
    ensures s.verdict == Pending && r.Sampled? && !Complete(r) ==> StepMetric(b, m, s, r) == Some(s)
  {}

  // What a counter that goes backwards leaves: a test begun again from the counters shown.
  predicate Restarts(m: Metric, r: Reading, t: MetricState, p0: Rate)
    requires Complete(r)
  {
    t.name == m.name && t.ratio == 1.0 && t.observations == 0 && t.failures == 0 && t.verdict == Pending
    && t.lastTotal == r.canaryTotal.value && t.lastFailure == r.canaryFailure.value && t.baselineRate == p0
  }

  // What counters that do not go backwards leave: new requests are counted and weighed, if there are any, and the
  // ratio is compared with (1 - beta) / alpha and then with beta / (1 - alpha).
  ghost predicate Counts(an: Analysis, s: MetricState, r: Reading, t: MetricState, p0: Rate, p1: Rate)
    requires Complete(r)
  {
    var total, failures := r.canaryTotal.value - s.lastTotal, r.canaryFailure.value - s.lastFailure;
    t.name == s.name && t.baselineRate == p0
    && t.lastTotal == r.canaryTotal.value && t.lastFailure == r.canaryFailure.value
    && t.observations == s.observations + total
    && t.failures == (if total > 0 then s.failures + failures else s.failures)
    && (total == 0 ==> t.ratio == s.ratio)
    && (total > 0 && failures >= 0 ==> LikelihoodRatio(s.ratio, t.ratio, p0, p1, failures, total))
    && t.verdict == (if t.ratio >= (1.0 - an.beta) / an.alpha then Rollback
                     else if t.ratio <= an.beta / (1.0 - an.alpha) then Promote else Pending)
  }

  lemma ForwardPollMeans(an: Analysis, m: Metric, s: MetricState, r: Reading, p0: Rate, p1: Rate)
    requires s.verdict == Pending && Complete(r) && p0 == Baseline(r) && p1 == Alternative(p0, m)
    requires r.canaryTotal.value >= s.lastTotal && r.canaryFailure.value >= s.lastFailure
    ensures Counts(an, s, r, Absorb(an.Limits(), m, s, r), p0, p1)
  {
    var total, failures := r.canaryTotal.value - s.lastTotal, r.canaryFailure.value - s.lastFailure;
    WeighIsLikelihoodRatio(s.ratio, p0, p1, failures, total);
  }

  /** What a complete poll makes of an undecided metric. */
  lemma PollMeans(an: Analysis, m: Metric, s: MetricState, r: Reading, p0: Rate, p1: Rate)
    requires s.verdict == Pending && Complete(r) && Compares(m, r, p0, p1)
    ensures var t := StepMetric(an.Limits(), m, s, r);
      t.Some?
      && (if r.canaryTotal.value < s.lastTotal || r.canaryFailure.value < s.lastFailure then Restarts(m, r, t.value, p0)
          else Counts(an, s, r, t.value, p0, p1))
  {
    assert p0 == Baseline(r) && p1 == Alternative(p0, m);
    if r.canaryTotal.value >= s.lastTotal && r.canaryFailure.value >= s.lastFailure {
      ForwardPollMeans(an, m, s, r, p0, p1);
    }
  }

  // ---------------------------------------------------------------- one cycle of all metrics

  /** The state looked up is the first of that name, or a fresh one: ratio 1, nothing counted, undecided. */
  lemma {:induction false} FirstOfName(states: seq<MetricState>, name: string)
    ensures var s := FindOrInit(states, name);
      (exists j :: 0 <= j < |states| && states[j] == s && s.name == name && forall i :: 0 <= i < j ==> states[i].name != name)
      || (s == MetricState(name, 1.0, 0, 0, 0.0, 0, 0, Pending) && forall i :: 0 <= i < |states| ==> states[i].name != name)
  {
    if states == [] {
    } else if states[0].name != name {
      var s := FindOrInit(states[1..], name);
      FirstOfName(states[1..], name);
      if j :| 0 <= j < |states[1..]| && states[1..][j] == s && s.name == name
              && forall i :: 0 <= i < j ==> states[1..][i].name != name {
        assert states[j + 1] == s;
        forall i | 0 <= i < j + 1 ensures states[i].name != name {
          assert i > 0 ==> states[i] == states[1..][i - 1];
        }
      } else {
        forall i | 0 <= i < |states| ensures states[i].name != name {
          assert i > 0 ==> states[i] == states[1..][i - 1];
        }
      }
    }
  }

  /** A cycle is given up exactly when a query of some undecided metric fails before any metric rolls back. */
  lemma CycleFails(an: Analysis, current: seq<MetricState>, readings: seq<Reading>)
    ensures Cycle(an, current, readings).QueryFailed?
            <==> exists i :: 0 <= i < |an.metrics|
                   && Before(an, current, i).verdict == Pending && Answer(readings, i).QueryError?
                   && forall j :: 0 <= j < i ==> !RollsBack(an, current, readings, j)
  {
    var k := FirstStop(an, current, readings, 0);
    if k < |an.metrics| && After(an, current, readings, k).None? {
      assert Before(an, current, k).verdict == Pending && Answer(readings, k).QueryError?;
    }
    forall i | 0 <= i < |an.metrics|
      && Before(an, current, i).verdict == Pending && Answer(readings, i).QueryError?
      ensures After(an, current, readings, i).None?
    {}
  }

  /** A rollback returns the metrics' own steps up to the one that rolls back, which comes last: it was undecided, its
      ratio has reached (1 - beta) / alpha, and its counters are those of this poll. */
  lemma RollbackReturns(an: Analysis, current: seq<MetricState>, readings: seq<Reading>)
    requires Cycle(an, current, readings).Decided? && Cycle(an, current, readings).decision == RollBack
    ensures var states := Cycle(an, current, readings).states; var k := |states| - 1;
      0 <= k < |an.metrics|
      && (forall i :: 0 <= i <= k ==>
            After(an, current, readings, i) == Some(states[i]) && states[i].name == an.metrics[i].name)
      && (forall i :: 0 <= i < k ==> !RollsBack(an, current, readings, i))
    ensures var states := Cycle(an, current, readings).states; var k := |states| - 1;
      var before, last, r := FindOrInit(current, an.metrics[k].name), states[k], Answer(readings, k);
      before.verdict == Pending && Complete(r)
      && last.verdict == Rollback && last.ratio >= (1.0 - an.beta) / an.alpha
      && last.lastTotal == r.canaryTotal.value && last.lastFailure == r.canaryFailure.value
      && last.observations == before.observations + (r.canaryTotal.value - before.lastTotal)
      && (r.canaryTotal.value > before.lastTotal ==>
            last.failures == before.failures + (r.canaryFailure.value - before.lastFailure))
  {
    var k := FirstStop(an, current, readings, 0);
    var states := States(an, current, readings, k + 1);
    forall i | 0 <= i <= k ensures states[i].name == an.metrics[i].name {
      FindKeepsName(current, an.metrics[i].name);
      IdleSteps(an.Limits(), an.metrics[i], Before(an, current, i), Answer(readings, i));
    }
    IdleSteps(an.Limits(), an.metrics[k], Before(an, current, k), Answer(readings, k));
  }
}
