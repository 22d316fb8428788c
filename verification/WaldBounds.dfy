/** Wald's error inequalities for the analyzer's batched rule.

    A run of one test is a tree of coin flips: each cycle the canary serves a batch of requests, every
    request fails with the hypothesised probability, and at the end of the batch the analyzer polls the
    counters and judges. The size of each batch and the stable counters may depend on everything
    observed so far. The probability of a verdict is the total weight of the leaves that reach it. */
module WaldBounds {
  import opened Wrappers
  import opened Scaling
  import opened Sprt
  import opened MetricRuns

  datatype RawBatch = Batch(requests: nat, stableFailure: nat, stableTotal: nat)
  type Batch = c: RawBatch | c.stableFailure < c.stableTotal witness Batch(0, 0, 1)

  // What the next cycle looks like, given the number of failures in each cycle so far.
  type Policy = seq<nat> -> Batch

  type Chance = p: real | 0.0 <= p <= 1.0

  // The chances of failure of the canary's requests, each given all outcomes so far: the failures of every earlier
  // cycle, those of this cycle, and the requests still to come in it.
  datatype Hypothesis = H0 | H1 | Given(chance: (seq<nat>, nat, nat) -> Chance)

  function BatchRate(c: Batch): Rate {
    BaselineRate(c.stableFailure, c.stableTotal)
  }

  // H0: the stable rate. H1: that rate degraded by delta.
  function RateUnder(h: Hypothesis, m: Metric, policy: Policy, history: seq<nat>, failures: nat, left: nat): Chance {
    match h
    case H0 => BatchRate(policy(history))
    case H1 => Alternative(BatchRate(policy(history)), m)
    case Given(chance) => chance(history, failures, left)
  }

  // The counters as they stand after a batch in which `failures` requests failed.
  function Poll(s: MetricState, c: Batch, failures: nat): Reading {
    Sampled(Some(s.lastTotal + c.requests), Some(s.lastFailure + failures), Some(c.stableTotal), Some(c.stableFailure))
  }

  /** The probability, under h, that a test in state s stands at verdict `goal` after `cycles` more cycles. */
  ghost function Mass(b: Bounds, m: Metric, policy: Policy, h: Hypothesis, goal: Verdict,
                      s: MetricState, history: seq<nat>, cycles: nat): real
    decreases cycles, 1, 0
  {
    if s.verdict != Pending || cycles == 0 then (if s.verdict == goal then 1.0 else 0.0)
    else BatchMass(b, m, policy, h, goal, s, history, cycles, 0, policy(history).requests)
  }

  // One coin flip.
  function Mix(p: Chance, ifFailure: real, ifSuccess: real): real {
    p * ifFailure + (1.0 - p) * ifSuccess
  }

  // The same in the middle of a batch: `failures` so far and `left` requests to come.
  ghost function BatchMass(b: Bounds, m: Metric, policy: Policy, h: Hypothesis, goal: Verdict,
                           s: MetricState, history: seq<nat>, cycles: nat, failures: nat, left: nat): real
    requires cycles > 0
    decreases cycles, 0, left
  {
    if left == 0 then
      Mass(b, m, policy, h, goal, Next(b, m, s, Poll(s, policy(history), failures)), history + [failures], cycles - 1)
    else
      Mix(RateUnder(h, m, policy, history, failures, left),
          BatchMass(b, m, policy, h, goal, s, history, cycles, failures + 1, left - 1),
          BatchMass(b, m, policy, h, goal, s, history, cycles, failures, left - 1))
  }

  // ---------------------------------------------------------------- it is a probability

  ghost predicate Distribution(promote: real, rollback: real, pending: real) {
    promote >= 0.0 && rollback >= 0.0 && pending >= 0.0 && promote + rollback + pending == 1.0
  }

  lemma MixAdd(p: Chance, a1: real, a2: real, c1: real, c2: real)
    ensures Mix(p, a1, a2) + Mix(p, c1, c2) == Mix(p, a1 + c1, a2 + c2)
  {}

  lemma WeightedOrder(p: real, q: real, a: real, a': real, c: real, c': real)
    requires p >= 0.0 && q >= 0.0 && a <= a' && c <= c'
    ensures p * a + q * c <= p * a' + q * c'
  {
    MulMono(p, a, a');
    MulMono(q, c, c');
  }

  lemma MixOrder(p: Chance, a: real, a': real, c: real, c': real)
    requires a <= a' && c <= c'
    ensures Mix(p, a, c) <= Mix(p, a', c')
  {
    WeightedOrder(p, 1.0 - p, a, a', c, c');
  }

  lemma MixConstant(p: Chance, c: real)
    ensures Mix(p, c, c) == c
  {}

  lemma MixDistribution(p: Chance, a1: real, b1: real, c1: real, a2: real, b2: real, c2: real)
    requires Distribution(a1, b1, c1) && Distribution(a2, b2, c2)
    ensures Distribution(Mix(p, a1, a2), Mix(p, b1, b2), Mix(p, c1, c2))
  {
    MixConstant(p, 0.0);
    MixConstant(p, 1.0);
    MixOrder(p, 0.0, a1, 0.0, a2);
    MixOrder(p, 0.0, b1, 0.0, b2);
    MixOrder(p, 0.0, c1, 0.0, c2);
    MixAdd(p, a1, a2, b1, b2);
    MixAdd(p, a1 + b1, a2 + b2, c1, c2);
  }

  /** The three verdicts exhaust every outcome sequence and exclude each other. */
  lemma {:induction false} VerdictsPartition(b: Bounds, m: Metric, policy: Policy, h: Hypothesis,
                                             s: MetricState, history: seq<nat>, cycles: nat)
    ensures Distribution(Mass(b, m, policy, h, Promote, s, history, cycles),
                         Mass(b, m, policy, h, Rollback, s, history, cycles),
                         Mass(b, m, policy, h, Pending, s, history, cycles))
    decreases cycles, 1, 0
  {
    if s.verdict == Pending && cycles > 0 {
      BatchPartition(b, m, policy, h, s, history, cycles, 0, policy(history).requests);
    }
  }

  lemma {:induction false} BatchPartition(b: Bounds, m: Metric, policy: Policy, h: Hypothesis,
                                          s: MetricState, history: seq<nat>, cycles: nat, failures: nat, left: nat)
    requires cycles > 0
    ensures Distribution(BatchMass(b, m, policy, h, Promote, s, history, cycles, failures, left),
                         BatchMass(b, m, policy, h, Rollback, s, history, cycles, failures, left),
                         BatchMass(b, m, policy, h, Pending, s, history, cycles, failures, left))
    decreases cycles, 0, left
  {
    if left == 0 {
      VerdictsPartition(b, m, policy, h, Next(b, m, s, Poll(s, policy(history), failures)),
                        history + [failures], cycles - 1);
    } else {
      BatchPartition(b, m, policy, h, s, history, cycles, failures + 1, left - 1);
      BatchPartition(b, m, policy, h, s, history, cycles, failures, left - 1);
      MixDistribution(RateUnder(h, m, policy, history, failures, left),
        BatchMass(b, m, policy, h, Promote, s, history, cycles, failures + 1, left - 1),
        BatchMass(b, m, policy, h, Rollback, s, history, cycles, failures + 1, left - 1),
        BatchMass(b, m, policy, h, Pending, s, history, cycles, failures + 1, left - 1),
        BatchMass(b, m, policy, h, Promote, s, history, cycles, failures, left - 1),
        BatchMass(b, m, policy, h, Rollback, s, history, cycles, failures, left - 1),
        BatchMass(b, m, policy, h, Pending, s, history, cycles, failures, left - 1));
    }
  }

  // ---------------------------------------------------------------- change of measure

  // The ratio w carried so far turns H1-probabilities into H0-probabilities, up to the bound crossed:
  // at least `bound` for the rollback verdict, at most `bound` for the promote verdict.
  ghost predicate Converts(goal: Verdict, bound: real, w: real, mass1: real, mass0: real) {
    if goal == Rollback then w * mass1 >= bound * mass0 else w * mass1 <= bound * mass0
  }

  lemma MixScale(p: Chance, k: real, a: real, c: real)
    ensures k * Mix(p, a, c) == Mix(p, k * a, k * c)
  {}

  lemma Reweigh(w: real, x: real, wx: real, p0: real, p1: real, f: real)
    requires x * p0 == p1 && wx == x * w
    ensures p0 * (wx * f) == w * (p1 * f)
  {
    assert p0 * wx == w * p1 by {
      assert p0 * (x * w) == (x * p0) * w;
    }
    assert p0 * (wx * f) == (p0 * wx) * f;
  }

  // The same flip seen from either hypothesis.
  lemma MixReweigh(p0: Rate, p1: Rate, w: real, wx: real, wq: real, f: real, s: real)
    requires wx == FailureFactor(p0, p1) * w && wq == SuccessFactor(p0, p1) * w
    ensures w * Mix(p1, f, s) == Mix(p0, wx * f, wq * s)
  {
    var x, q := FailureFactor(p0, p1), SuccessFactor(p0, p1);
    assert x * p0 == p1;
    assert q * (1.0 - p0) == 1.0 - p1;
    Reweigh(w, x, wx, p0, p1, f);
    Reweigh(w, q, wq, 1.0 - p0, 1.0 - p1, s);
  }

  lemma MixConverts(goal: Verdict, bound: real, p0: Rate, p1: Rate, w: real, wx: real, wq: real,
                    f1: real, f0: real, s1: real, s0: real)
    requires wx == FailureFactor(p0, p1) * w && wq == SuccessFactor(p0, p1) * w
    requires Converts(goal, bound, wx, f1, f0) && Converts(goal, bound, wq, s1, s0)
    ensures Converts(goal, bound, w, Mix(p1, f1, s1), Mix(p0, f0, s0))
  {
    MixReweigh(p0, p1, w, wx, wq, f1, s1);
    MixScale(p0, bound, f0, s0);
    if goal == Rollback {
      MixOrder(p0, bound * f0, wx * f1, bound * s0, wq * s1);
    } else {
      MixOrder(p0, wx * f1, bound * f0, wq * s1, bound * s0);
    }
  }

  // One more request in the batch.
  lemma WeighFailure(ratio: real, p0: Rate, p1: Rate, failures: nat, total: nat)
    requires failures <= total
    ensures Weigh(ratio, p0, p1, failures + 1, total + 1) == FailureFactor(p0, p1) * Weigh(ratio, p0, p1, failures, total)
  {
    var x, q, v := FailureFactor(p0, p1), SuccessFactor(p0, p1), Scale(ratio, FailureFactor(p0, p1), failures);
    ScaleSnoc(ratio, x, failures);
    ScaleLinear(x, v, Scale(ratio, x, failures + 1), q, total - failures);
  }

  lemma WeighSuccess(ratio: real, p0: Rate, p1: Rate, failures: nat, total: nat)
    requires failures <= total
    ensures Weigh(ratio, p0, p1, failures, total + 1) == SuccessFactor(p0, p1) * Weigh(ratio, p0, p1, failures, total)
  {
    ScaleSnoc(Scale(ratio, FailureFactor(p0, p1), failures), SuccessFactor(p0, p1), total - failures);
  }

  ghost predicate Crossing(b: Bounds, goal: Verdict, bound: real) {
    (goal == Rollback && bound == b.upper) || (goal == Promote && bound == b.lower && bound >= 0.0)
  }

  /** Change of measure: from state s, the H1-probability of a verdict times the ratio of s is at least
      (rollback) or at most (promote) the bound times its H0-probability. */
  lemma {:induction false} ChangeOfMeasure(b: Bounds, m: Metric, policy: Policy, goal: Verdict, bound: real,
                                           s: MetricState, history: seq<nat>, cycles: nat)
    requires Crossing(b, goal, bound)
    requires s.verdict == Rollback ==> s.ratio >= b.upper
    requires s.verdict == Promote ==> s.ratio <= b.lower
    ensures Converts(goal, bound, s.ratio,
                     Mass(b, m, policy, H1, goal, s, history, cycles), Mass(b, m, policy, H0, goal, s, history, cycles))
    decreases cycles, 1, 0
  {
    if s.verdict == Pending && cycles > 0 {
      var c := policy(history);
      BatchChangeOfMeasure(b, m, policy, goal, bound, s, history, cycles, 0, c.requests);
      WeighNothing(s.ratio, BatchRate(c), Alternative(BatchRate(c), m));
    }
  }

  // The change of measure survives one more request, given its two continuations.
  lemma OneRequestConverts(goal: Verdict, bound: real, ratio: real, p0: Rate, p1: Rate, failures: nat, done: nat,
                           f1: real, f0: real, s1: real, s0: real)
    requires failures <= done
    requires Converts(goal, bound, Weigh(ratio, p0, p1, failures + 1, done + 1), f1, f0)
    requires Converts(goal, bound, Weigh(ratio, p0, p1, failures, done + 1), s1, s0)
    ensures Converts(goal, bound, Weigh(ratio, p0, p1, failures, done), Mix(p1, f1, s1), Mix(p0, f0, s0))
  {
    WeighFailure(ratio, p0, p1, failures, done);
    WeighSuccess(ratio, p0, p1, failures, done);
    MixConverts(goal, bound, p0, p1, Weigh(ratio, p0, p1, failures, done),
      Weigh(ratio, p0, p1, failures + 1, done + 1), Weigh(ratio, p0, p1, failures, done + 1), f1, f0, s1, s0);
  }

  lemma {:induction false} BatchChangeOfMeasure(b: Bounds, m: Metric, policy: Policy, goal: Verdict, bound: real,
                                                s: MetricState, history: seq<nat>, cycles: nat, failures: nat, left: nat)
    requires Crossing(b, goal, bound)
    requires cycles > 0 && s.verdict == Pending && left <= policy(history).requests
    requires failures <= policy(history).requests - left
    ensures var c := policy(history); var p0 := BatchRate(c);
      Converts(goal, bound, Weigh(s.ratio, p0, Alternative(p0, m), failures, c.requests - left),
               BatchMass(b, m, policy, H1, goal, s, history, cycles, failures, left),
               BatchMass(b, m, policy, H0, goal, s, history, cycles, failures, left))
    decreases cycles, 0, left
  {
    var c := policy(history);
    var p0 := BatchRate(c);
    var p1 := Alternative(p0, m);
    if left == 0 {
      var r := Poll(s, c, failures);
      NextForward(b, m, s, r);
      ChangeOfMeasure(b, m, policy, goal, bound, Next(b, m, s, r), history + [failures], cycles - 1);
    } else {
      var done := c.requests - left;
      BatchChangeOfMeasure(b, m, policy, goal, bound, s, history, cycles, failures + 1, left - 1);
      BatchChangeOfMeasure(b, m, policy, goal, bound, s, history, cycles, failures, left - 1);
      OneRequestConverts(goal, bound, s.ratio, p0, p1, failures, done,
        BatchMass(b, m, policy, H1, goal, s, history, cycles, failures + 1, left - 1),
        BatchMass(b, m, policy, H0, goal, s, history, cycles, failures + 1, left - 1),
        BatchMass(b, m, policy, H1, goal, s, history, cycles, failures, left - 1),
        BatchMass(b, m, policy, H0, goal, s, history, cycles, failures, left - 1));
    }
  }

  // ---------------------------------------------------------------- Wald's inequalities

  ghost function Wrong(an: Analysis, m: Metric, policy: Policy, h: Hypothesis, cycles: nat): real
    requires !h.Given?
  {
    Mass(an.Limits(), m, policy, h, if h.H0? then Rollback else Promote, Fresh(m.name), [], cycles)
  }

  ghost function Right(an: Analysis, m: Metric, policy: Policy, h: Hypothesis, cycles: nat): real
    requires !h.Given?
  {
    Mass(an.Limits(), m, policy, h, if h.H0? then Promote else Rollback, Fresh(m.name), [], cycles)
  }

  lemma ClearDenominator(n: real, d: real, q: real, x: real, y: real)
    requires d > 0.0 && q == n / d && q * x <= y
    ensures n * x <= d * y
  {
    assert q * d == n;
    assert d * (q * x) == (q * d) * x;
    MulMono(d, q * x, y);
  }

  lemma ClearDenominator'(n: real, d: real, q: real, x: real, y: real)
    requires d > 0.0 && q == n / d && q * x >= y
    ensures n * x >= d * y
  {
    assert q * d == n;
    assert d * (q * x) == (q * d) * x;
    MulMono(d, y, q * x);
  }

  /** Before relaxation: a false rollback is bounded by a true one, a missed degradation by a true pass. */
  lemma WaldUnrelaxed(an: Analysis, m: Metric, policy: Policy, cycles: nat)
    ensures (1.0 - an.beta) * Wrong(an, m, policy, H0, cycles) <= an.alpha * Right(an, m, policy, H1, cycles)
    ensures (1.0 - an.alpha) * Wrong(an, m, policy, H1, cycles) <= an.beta * Right(an, m, policy, H0, cycles)
  {
    var b := an.Limits();
    BoundsStraddleOne(an);
    ChangeOfMeasure(b, m, policy, Rollback, b.upper, Fresh(m.name), [], cycles);
    ChangeOfMeasure(b, m, policy, Promote, b.lower, Fresh(m.name), [], cycles);
    ClearDenominator(1.0 - an.beta, an.alpha, b.upper,
      Wrong(an, m, policy, H0, cycles), Right(an, m, policy, H1, cycles));
    ClearDenominator'(an.beta, 1.0 - an.alpha, b.lower,
      Right(an, m, policy, H0, cycles), Wrong(an, m, policy, H1, cycles));
  }

  lemma Divide(x: real, n: real, d: real)
    requires d > 0.0 && d * x <= n
    ensures x <= n / d
  {
    var q := n / d;
    assert q * d == n;
    SignOfFactor(q - x, d, n - d * x);
  }

  lemma Relax(n: real, d: real, wrong: real, right: real)
    requires n >= 0.0 && d > 0.0 && d * wrong <= n * right && right <= 1.0
    ensures wrong <= n / d
  {
    MulMono(n, right, 1.0);
    Divide(wrong, n, d);
  }

  /** Wald's inequalities, for every horizon, batch schedule and sequence of rates: a false rollback has
      probability at most alpha / (1 - beta), a missed degradation at most beta / (1 - alpha). */
  lemma WaldErrorBounds(an: Analysis, m: Metric, policy: Policy, cycles: nat)
    ensures Wrong(an, m, policy, H0, cycles) <= an.alpha / (1.0 - an.beta)
    ensures Wrong(an, m, policy, H1, cycles) <= an.beta / (1.0 - an.alpha)
  {
    var b := an.Limits();
    WaldUnrelaxed(an, m, policy, cycles);
    VerdictsPartition(b, m, policy, H0, Fresh(m.name), [], cycles);
    VerdictsPartition(b, m, policy, H1, Fresh(m.name), [], cycles);
    Relax(an.alpha, 1.0 - an.beta, Wrong(an, m, policy, H0, cycles), Right(an, m, policy, H1, cycles));
    Relax(an.beta, 1.0 - an.alpha, Wrong(an, m, policy, H1, cycles), Right(an, m, policy, H0, cycles));
  }

  lemma SumUp(alpha: Rate, beta: Rate, wrong0: real, wrong1: real, right0: real, right1: real)
    requires (1.0 - beta) * wrong0 <= alpha * right1 && right1 <= 1.0 - wrong1
    requires (1.0 - alpha) * wrong1 <= beta * right0 && right0 <= 1.0 - wrong0
    ensures wrong0 + wrong1 <= alpha + beta
  {
    MulMono(alpha, right1, 1.0 - wrong1);
    MulMono(beta, right0, 1.0 - wrong0);
  }

  /** The two error probabilities together never exceed alpha + beta. */
  lemma WaldSumBound(an: Analysis, m: Metric, policy: Policy, cycles: nat)
    ensures Wrong(an, m, policy, H0, cycles) + Wrong(an, m, policy, H1, cycles) <= an.alpha + an.beta
  {
    var b := an.Limits();
    WaldUnrelaxed(an, m, policy, cycles);
    VerdictsPartition(b, m, policy, H0, Fresh(m.name), [], cycles);
    VerdictsPartition(b, m, policy, H1, Fresh(m.name), [], cycles);
    SumUp(an.alpha, an.beta, Wrong(an, m, policy, H0, cycles), Wrong(an, m, policy, H1, cycles),
          Right(an, m, policy, H0, cycles), Right(an, m, policy, H1, cycles));
  }

  // ---------------------------------------------------------------- canaries between and beyond the hypotheses

  // p is `from`, or lies on the side of it away from `to`.
  predicate Leans(p: Chance, from: Rate, to: Rate) {
    p == from as real || (p < from as real && from < to) || (p > from as real && to < from)
  }

  predicate NoWorseAt(m: Metric, policy: Policy, h: Hypothesis, history: seq<nat>, failures: nat, left: nat) {
    var p0 := BatchRate(policy(history));
    Leans(RateUnder(h, m, policy, history, failures, left), p0, Alternative(p0, m))
  }

  // Every request fails with the stable rate, or with less where the alternative is a degradation.
  ghost predicate NoWorse(m: Metric, policy: Policy, h: Hypothesis) {
    forall history, failures, left :: NoWorseAt(m, policy, h, history, failures, left)
  }

  predicate DegradedAt(m: Metric, policy: Policy, h: Hypothesis, history: seq<nat>, failures: nat, left: nat) {
    var p0 := BatchRate(policy(history));
    Leans(RateUnder(h, m, policy, history, failures, left), Alternative(p0, m), p0)
  }

  // Every request fails with the alternative rate, or with more where that is a degradation.
  ghost predicate Degraded(m: Metric, policy: Policy, h: Hypothesis) {
    forall history, failures, left :: DegradedAt(m, policy, h, history, failures, left)
  }

  lemma Tilt(p: Chance, from: Chance, x: real, q: real)
    requires Mix(from, x, q) == 1.0 && (p == from || (p < from && x >= q) || (p > from && x <= q))
    ensures Mix(p, x, q) <= 1.0
  {
    if p < from {
      NonNegative(from - p, x - q);
    } else if p > from {
      NonNegative(p - from, q - x);
    }
    assert Mix(p, x, q) - Mix(from, x, q) == (p - from) * (x - q);
  }

  /** A test of `from` against `to` does not drift towards `to`. */
  lemma NoDrift(p: Chance, from: Rate, to: Rate)
    requires Leans(p, from, to)
    ensures Mix(p, FailureFactor(from, to), SuccessFactor(from, to)) <= 1.0
  {
    var x, q := FailureFactor(from, to), SuccessFactor(from, to);
    FactorOrder(from, to);
    FactorOrder(to, from);
    assert x * from == to;
    assert q * (1.0 - from) == 1.0 - to;
    assert Mix(from, x, q) == 1.0;
    Tilt(p, from, x, q);
  }

  ghost predicate Capped(factor: real, mass: real, limit: real) {
    factor * mass <= limit
  }

  /** The ratio is a supermartingale while the canary is no worse than stable: it bounds `upper` times the chance of
      still reaching the rollback. */
  lemma {:induction false} RollbackUnlikely(b: Bounds, m: Metric, policy: Policy, h: Hypothesis,
                                            s: MetricState, history: seq<nat>, cycles: nat)
    requires NoWorse(m, policy, h) && s.ratio > 0.0 && (s.verdict == Rollback ==> s.ratio >= b.upper)
    ensures Capped(b.upper, Mass(b, m, policy, h, Rollback, s, history, cycles), s.ratio)
    decreases cycles, 1, 0
  {
    if s.verdict == Pending && cycles > 0 {
      var c := policy(history);
      BatchRollbackUnlikely(b, m, policy, h, s, history, cycles, 0, c.requests);
      WeighNothing(s.ratio, BatchRate(c), Alternative(BatchRate(c), m));
    }
  }

  lemma BelowOnAverage(upper: real, p: Chance, w: real, x: real, q: real, f: real, s: real)
    requires w > 0.0 && Mix(p, x, q) <= 1.0 && Capped(upper, f, x * w) && Capped(upper, s, q * w)
    ensures Capped(upper, Mix(p, f, s), w)
  {
    MixScale(p, upper, f, s);
    MixOrder(p, upper * f, w * x, upper * s, w * q);
    MixScale(p, w, x, q);
    MulMono(w, Mix(p, x, q), 1.0);
  }

  lemma StaysBelow(upper: real, p: Chance, ratio: real, p0: Rate, p1: Rate, failures: nat, done: nat, f: real, s: real)
    requires Leans(p, p0, p1) && ratio > 0.0 && failures <= done
    requires Capped(upper, f, Weigh(ratio, p0, p1, failures + 1, done + 1))
    requires Capped(upper, s, Weigh(ratio, p0, p1, failures, done + 1))
    ensures Capped(upper, Mix(p, f, s), Weigh(ratio, p0, p1, failures, done))
  {
    var x, q, w := FailureFactor(p0, p1), SuccessFactor(p0, p1), Weigh(ratio, p0, p1, failures, done);
    WeighPositive(ratio, p0, p1, failures, done);
    WeighFailure(ratio, p0, p1, failures, done);
    WeighSuccess(ratio, p0, p1, failures, done);
    NoDrift(p, p0, p1);
    BelowOnAverage(upper, p, w, x, q, f, s);
  }

  lemma {:induction false} BatchRollbackUnlikely(b: Bounds, m: Metric, policy: Policy, h: Hypothesis,
                                                 s: MetricState, history: seq<nat>, cycles: nat, failures: nat, left: nat)
    requires NoWorse(m, policy, h) && s.ratio > 0.0 && cycles > 0 && s.verdict == Pending
    requires left <= policy(history).requests && failures <= policy(history).requests - left
    ensures var c := policy(history); var p0 := BatchRate(c);
      Capped(b.upper, BatchMass(b, m, policy, h, Rollback, s, history, cycles, failures, left),
             Weigh(s.ratio, p0, Alternative(p0, m), failures, c.requests - left))
    decreases cycles, 0, left
  {
    var c := policy(history);
    var p0 := BatchRate(c);
    var p1 := Alternative(p0, m);
    if left == 0 {
      WeighPositive(s.ratio, p0, p1, failures, c.requests);
      NextForward(b, m, s, Poll(s, c, failures));
      RollbackUnlikely(b, m, policy, h, Next(b, m, s, Poll(s, c, failures)), history + [failures], cycles - 1);
    } else {
      var done := c.requests - left;
      BatchRollbackUnlikely(b, m, policy, h, s, history, cycles, failures + 1, left - 1);
      BatchRollbackUnlikely(b, m, policy, h, s, history, cycles, failures, left - 1);
      assert NoWorseAt(m, policy, h, history, failures, left);
      StaysBelow(b.upper, RateUnder(h, m, policy, history, failures, left), s.ratio, p0, p1, failures, done,
        BatchMass(b, m, policy, h, Rollback, s, history, cycles, failures + 1, left - 1),
        BatchMass(b, m, policy, h, Rollback, s, history, cycles, failures, left - 1));
    }
  }

  /** Its inverse is one while the canary is at least as bad as the alternative: `lower` bounds the ratio times the
      chance of still being promoted. */
  lemma {:induction false} PromotionUnlikely(b: Bounds, m: Metric, policy: Policy, h: Hypothesis,
                                             s: MetricState, history: seq<nat>, cycles: nat)
    requires Degraded(m, policy, h) && s.ratio > 0.0 && b.lower >= 0.0 && (s.verdict == Promote ==> s.ratio <= b.lower)
    ensures Capped(s.ratio, Mass(b, m, policy, h, Promote, s, history, cycles), b.lower)
    decreases cycles, 1, 0
  {
    if s.verdict == Pending && cycles > 0 {
      var c := policy(history);
      BatchPromotionUnlikely(b, m, policy, h, s, history, cycles, 0, c.requests);
      WeighNothing(s.ratio, BatchRate(c), Alternative(BatchRate(c), m));
    }
  }

  lemma Undo(x: real, y: real, a: real, c: real, w: real, wx: real)
    requires a > 0.0 && c > 0.0 && x == c / a && y == a / c && wx == x * w
    ensures y * wx == w
  {
    assert x * a == c;
    assert y * c == a;
    assert (y * x) * a == y * c;
    SignOfFactor(y * x - 1.0, a, (y * x) * a - a);
    assert y * wx == (y * x) * w;
  }

  // One request taken back.
  lemma WeighBack(ratio: real, p0: Rate, p1: Rate, failures: nat, total: nat)
    requires failures <= total
    ensures FailureFactor(p1, p0) * Weigh(ratio, p0, p1, failures + 1, total + 1) == Weigh(ratio, p0, p1, failures, total)
    ensures SuccessFactor(p1, p0) * Weigh(ratio, p0, p1, failures, total + 1) == Weigh(ratio, p0, p1, failures, total)
  {
    var w := Weigh(ratio, p0, p1, failures, total);
    WeighFailure(ratio, p0, p1, failures, total);
    WeighSuccess(ratio, p0, p1, failures, total);
    Undo(FailureFactor(p0, p1), FailureFactor(p1, p0), p0, p1, w, Weigh(ratio, p0, p1, failures + 1, total + 1));
    Undo(SuccessFactor(p0, p1), SuccessFactor(p1, p0), 1.0 - p0, 1.0 - p1, w, Weigh(ratio, p0, p1, failures, total + 1));
  }

  lemma Regained(y: real, wx: real, w: real, f: real, lower: real)
    requires y > 0.0 && y * wx == w && wx * f <= lower
    ensures w * f <= lower * y
  {
    MulMono(y, wx * f, lower);
    assert y * (wx * f) == (y * wx) * f;
  }

  lemma AboveOnAverage(lower: real, p: Chance, w: real, y: real, z: real, wx: real, wq: real, f: real, s: real)
    requires lower >= 0.0 && y > 0.0 && z > 0.0 && Mix(p, y, z) <= 1.0
    requires y * wx == w && z * wq == w && Capped(wx, f, lower) && Capped(wq, s, lower)
    ensures Capped(w, Mix(p, f, s), lower)
  {
    Regained(y, wx, w, f, lower);
    Regained(z, wq, w, s, lower);
    MixScale(p, w, f, s);
    MixOrder(p, w * f, lower * y, w * s, lower * z);
    MixScale(p, lower, y, z);
    MulMono(lower, Mix(p, y, z), 1.0);
  }

  lemma StaysAbove(lower: real, p: Chance, ratio: real, p0: Rate, p1: Rate, failures: nat, done: nat, f: real, s: real)
    requires Leans(p, p1, p0) && ratio > 0.0 && lower >= 0.0 && failures <= done
    requires Capped(Weigh(ratio, p0, p1, failures + 1, done + 1), f, lower)
    requires Capped(Weigh(ratio, p0, p1, failures, done + 1), s, lower)
    ensures Capped(Weigh(ratio, p0, p1, failures, done), Mix(p, f, s), lower)
  {
    var y, z, w := FailureFactor(p1, p0), SuccessFactor(p1, p0), Weigh(ratio, p0, p1, failures, done);
    var wx, wq := Weigh(ratio, p0, p1, failures + 1, done + 1), Weigh(ratio, p0, p1, failures, done + 1);
    WeighBack(ratio, p0, p1, failures, done);
    NoDrift(p, p1, p0);
    FactorOrder(p1, p0);
    AboveOnAverage(lower, p, w, y, z, wx, wq, f, s);
  }

  lemma {:induction false} BatchPromotionUnlikely(b: Bounds, m: Metric, policy: Policy, h: Hypothesis,
                                                  s: MetricState, history: seq<nat>, cycles: nat, failures: nat, left: nat)
    requires Degraded(m, policy, h) && s.ratio > 0.0 && b.lower >= 0.0 && cycles > 0 && s.verdict == Pending
    requires left <= policy(history).requests && failures <= policy(history).requests - left
    ensures var c := policy(history); var p0 := BatchRate(c);
      Capped(Weigh(s.ratio, p0, Alternative(p0, m), failures, c.requests - left),
             BatchMass(b, m, policy, h, Promote, s, history, cycles, failures, left), b.lower)
    decreases cycles, 0, left
  {
    var c := policy(history);
    var p0 := BatchRate(c);
    var p1 := Alternative(p0, m);
    if left == 0 {
      WeighPositive(s.ratio, p0, p1, failures, c.requests);
      NextForward(b, m, s, Poll(s, c, failures));
      PromotionUnlikely(b, m, policy, h, Next(b, m, s, Poll(s, c, failures)), history + [failures], cycles - 1);
    } else {
      var done := c.requests - left;
      BatchPromotionUnlikely(b, m, policy, h, s, history, cycles, failures + 1, left - 1);
      BatchPromotionUnlikely(b, m, policy, h, s, history, cycles, failures, left - 1);
      assert DegradedAt(m, policy, h, history, failures, left);
      StaysAbove(b.lower, RateUnder(h, m, policy, history, failures, left), s.ratio, p0, p1, failures, done,
        BatchMass(b, m, policy, h, Promote, s, history, cycles, failures + 1, left - 1),
        BatchMass(b, m, policy, h, Promote, s, history, cycles, failures, left - 1));
    }
  }

  lemma InverseBound(n: real, d: real, q: real, x: real)
    requires n > 0.0 && d > 0.0 && q == n / d && q * x <= 1.0
    ensures x <= d / n
  {
    ClearDenominator(n, d, q, x, 1.0);
    Divide(x, d, n);
  }

  /** Wald's inequalities beyond the two hypotheses: whatever the canary's requests do individually and however they
      depend on the past, one that is never worse than stable is rolled back with probability at most
      alpha / (1 - beta), and one that is never better than the alternative passes with at most beta / (1 - alpha). */
  lemma RobustErrorBounds(an: Analysis, m: Metric, policy: Policy, h: Hypothesis, cycles: nat)
    ensures NoWorse(m, policy, h) ==>
      Mass(an.Limits(), m, policy, h, Rollback, Fresh(m.name), [], cycles) <= an.alpha / (1.0 - an.beta)
    ensures Degraded(m, policy, h) ==>
      Mass(an.Limits(), m, policy, h, Promote, Fresh(m.name), [], cycles) <= an.beta / (1.0 - an.alpha)
  {
    var b := an.Limits();
    BoundsStraddleOne(an);
    if NoWorse(m, policy, h) {
      RollbackUnlikely(b, m, policy, h, Fresh(m.name), [], cycles);
      InverseBound(1.0 - an.beta, an.alpha, b.upper, Mass(b, m, policy, h, Rollback, Fresh(m.name), [], cycles));
    }
    if Degraded(m, policy, h) {
      PromotionUnlikely(b, m, policy, h, Fresh(m.name), [], cycles);
    }
  }

  // ---------------------------------------------------------------- the tighter claim

  ghost function OneCycle(c: Batch): Policy {
    (history: seq<nat>) => c
  }

  /** "False rollbacks with probability at most alpha, missed degradations with probability at most beta." */
  ghost predicate ErrorsWithinAlphaBeta(an: Analysis) {
    forall m: Metric, policy: Policy, cycles: nat ::
      Wrong(an, m, policy, H0, cycles) <= an.alpha && Wrong(an, m, policy, H1, cycles) <= an.beta
  }

  lemma AtLeastOneSide(p: Chance, a: real, f: real, s: real)
    requires a <= f && s >= 0.0
    ensures Mix(p, f, s) >= p * a
  {
    MixOrder(p, a, f, 0.0, s);
  }

  // At least the path on which every request of the batch fails.
  lemma {:induction false} AllFailuresMass(b: Bounds, m: Metric, policy: Policy, s: MetricState, history: seq<nat>,
                                           failures: nat, left: nat)
    requires Next(b, m, s, Poll(s, policy(history), failures + left)).verdict == Rollback
    ensures BatchMass(b, m, policy, H0, Rollback, s, history, 1, failures, left)
            >= Scale(1.0, BatchRate(policy(history)), left)
    decreases left
  {
    if left == 0 {
    } else {
      var p := BatchRate(policy(history));
      AllFailuresMass(b, m, policy, s, history, failures + 1, left - 1);
      BatchPartition(b, m, policy, H0, s, history, 1, failures, left - 1);
      ScaleSnoc(1.0, p, left - 1);
      AtLeastOneSide(p, Scale(1.0, p, left - 1),
                     BatchMass(b, m, policy, H0, Rollback, s, history, 1, failures + 1, left - 1),
                     BatchMass(b, m, policy, H0, Rollback, s, history, 1, failures, left - 1));
    }
  }

  // Bounds on the wrong side of 1 condemn the canary before it has served anything.
  lemma EmptyBatch(b: Bounds, m: Metric, c: Batch)
    requires b.upper <= 1.0 && c.requests == 0
    ensures Mass(b, m, OneCycle(c), H0, Rollback, Fresh(m.name), [], 1) >= 1.0
  {
    assert Next(b, m, Fresh(m.name), Poll(Fresh(m.name), c, 0)).verdict == Rollback;
    AllFailuresMass(b, m, OneCycle(c), Fresh(m.name), [], 0, 0);
  }

  lemma BatchBetween(lo: Rate, hi: real, k: nat) returns (c: Batch, p0: Rate)
    requires lo < hi < 1.0 && k > 0 && Scale(1.0, EPSILON, k) <= lo
    ensures c.requests == k && p0 == BatchRate(c) && lo < Scale(1.0, p0, k) < hi
  {
    var n, d := PowerBetween(lo, hi, k);
    c := Batch(k, n, d);
    var p := n as real / d as real;
    if p <= EPSILON {
      PowerStep(p, EPSILON, EPSILON - p, k);
      assert false;
    }
    p0 := BatchRate(c);
  }

  lemma Under(z: real, hi: real, u: real)
    requires z < hi && u > 0.0 && hi * u == 1.0
    ensures z * u < 1.0
  {
    SignOfFactor(hi - z, u, 1.0 - z * u);
  }

  lemma Portion(e: real, k: real, x: real)
    requires k >= 1.0 && 0.0 < x < 1.0 && e * k == 1.0 - x
    ensures 0.0 < e < 1.0 && k * e == 1.0 - x
  {
    SameSign(e, k);
    MulMono(e, 1.0, k);
  }

  // A rate above p0 whose k-th power is at least u times that of p0.
  lemma AlternativeReaching(p0: Rate, k: nat, u: real, z: real) returns (p1: Rate)
    requires k > 0 && u > 1.0 && z == Scale(1.0, p0, k) && z > 0.0 && z * u < 1.0
    ensures p1 > p0 && Scale(1.0, p1, k) >= u * z
  {
    var e := Quotient(1.0 - z * u, k as real);
    Portion(e, k as real, z * u);
    assert z * u > z by {
      SignOfFactor(u - 1.0, z, u * z - z);
    }
    p1 := 1.0 - e;
    PowerStep(p1, 1.0, e, k);
    PowerOfOne(k);
    if p1 <= p0 {
      PowerStep(p1, p0, p0 - p1, k);
      assert false;
    }
  }

  lemma HighEnough(v: real, u: real, z: real, vz: real)
    requires z > 0.0 && v * z == vz && vz >= u * z
    ensures v >= u
  {
    SignOfFactor(v - u, z, v * z - u * z);
  }

  lemma AllFailuresRollBack(b: Bounds, m: Metric, c: Batch, p0: Rate, p1: Rate, z: real)
    requires p0 == BatchRate(c) && p1 == Alternative(p0, m) && z == Scale(1.0, p0, c.requests)
    requires z > 0.0 && Scale(1.0, p1, c.requests) >= b.upper * z
    ensures Next(b, m, Fresh(m.name), Poll(Fresh(m.name), c, c.requests)).verdict == Rollback
  {
    var k, x := c.requests, FailureFactor(p0, p1);
    NextForward(b, m, Fresh(m.name), Poll(Fresh(m.name), c, k));
    assert x * p0 == p1;
    PowerProduct(1.0, 1.0, 1.0, x, p0, p1, k);
    HighEnough(Scale(1.0, x, k), b.upper, z, Scale(1.0, p1, k));
  }

  // One batch, sized so that the chance of seeing nothing but failures lies between alpha and
  // alpha / (1 - beta), and an alternative under which that outcome just reaches the upper bound.
  lemma AllFailingBatch(b: Bounds, alpha: Rate, hi: real, u: real) returns (m: Metric, policy: Policy)
    requires u == b.upper && alpha < hi < 1.0 < u && hi * u == 1.0
    ensures Mass(b, m, policy, H0, Rollback, Fresh(m.name), [], 1) > alpha
  {
    var k := PowerBelow(EPSILON, alpha);
    var c, p0 := BatchBetween(alpha, hi, k);
    var z := Scale(1.0, p0, k);
    Under(z, hi, u);
    var p1 := AlternativeReaching(p0, k, u, z);
    m := Metric("", p1 - p0);
    policy := OneCycle(c);
    AllFailuresRollBack(b, m, c, p0, p1, z);
    AllFailuresMass(b, m, policy, Fresh(m.name), [], 0, k);
  }

  // The rates between alpha and alpha / (1 - beta) and what the upper bound makes of them.
  lemma RatesAboveAlpha(alpha: Rate, beta: Rate, hi: real, u: real)
    requires alpha + beta < 1.0 && hi == alpha / (1.0 - beta) && u == (1.0 - beta) / alpha
    ensures alpha < hi < 1.0 < u && hi * u == 1.0
  {
    QuotientOrder(alpha, 1.0 - beta);
    QuotientOrder(1.0 - beta, alpha);
    QuotientInverse(alpha, 1.0 - beta);
    assert 1.0 / hi == u;
    assert hi * (1.0 - beta) == alpha;
    assert hi * beta > 0.0;
  }

  /** Whatever alpha and beta, some metric and some single batch roll back falsely with more than alpha. */
  lemma FalseRollbackExceedsAlpha(an: Analysis) returns (m: Metric, policy: Policy)
    ensures Wrong(an, m, policy, H0, 1) > an.alpha
  {
    var b := an.Limits();
    if an.alpha + an.beta < 1.0 {
      var hi := an.alpha / (1.0 - an.beta);
      RatesAboveAlpha(an.alpha, an.beta, hi, b.upper);
      m, policy := AllFailingBatch(b, an.alpha, hi, b.upper);
    } else {
      QuotientOrder(1.0 - an.beta, an.alpha);
      m, policy := Metric("", 1.0), OneCycle(Batch(0, 0, 1));
      EmptyBatch(b, m, Batch(0, 0, 1));
    }
  }

  /** The tighter claim holds for no alpha and beta at all. */
  lemma NeverWithinAlphaBeta(an: Analysis)
    ensures !ErrorsWithinAlphaBeta(an)
  {
    var m, policy := FalseRollbackExceedsAlpha(an);
    assert Wrong(an, m, policy, H0, 1) > an.alpha;
  }

  // ---------------------------------------------------------------- powers of a rational rate

  lemma {:induction false} PowerOfOne(n: nat)
    ensures Scale(1.0, 1.0, n) == 1.0
  {
    if n == 0 {
    } else {
      PowerOfOne(n - 1);
      Unfold(1.0, 1.0, n, 1.0);
    }
  }

  lemma Regroup(x: real, a: real, y: real, c: real)
    ensures (x * a) * (y * c) == (x * y) * (a * c)
  {}

  lemma {:induction false} PowerProduct(r: real, s: real, rs: real, x: real, y: real, xy: real, n: nat)
    requires rs == r * s && xy == x * y
    ensures Scale(r, x, n) * Scale(s, y, n) == Scale(rs, xy, n)
  {
    if n == 0 {
    } else {
      PowerProduct(r, s, rs, x, y, xy, n - 1);
      ScaleSnoc(r, x, n - 1);
      ScaleSnoc(s, y, n - 1);
      ScaleSnoc(rs, xy, n - 1);
      Regroup(x, Scale(r, x, n - 1), y, Scale(s, y, n - 1));
    }
  }

  lemma NonNegative(x: real, y: real)
    requires x >= 0.0 && y >= 0.0
    ensures x * y >= 0.0
  {}

  lemma ProductStep(a: real, b: real, e: real, x: real, y: real, g: real)
    requires 0.0 <= a && b <= 1.0 && e == b - a && e >= 0.0 && 0.0 <= x <= y <= 1.0 && y - x <= g
    ensures 0.0 <= a * x <= b * y <= 1.0
    ensures b * y - a * x <= g + e
  {
    NonNegative(a, x);
    NonNegative(e, x);
    NonNegative(b, y - x);
    NonNegative(1.0 - b, y);
    NonNegative(1.0 - b, y - x);
    NonNegative(1.0 - x, e);
    assert e * x == b * x - a * x;
  }

  /** Powers are monotone on [0, 1] and grow no faster than n times their argument. */
  lemma {:induction false} PowerStep(a: real, b: real, e: real, n: nat)
    requires 0.0 <= a && b <= 1.0 && e == b - a && e >= 0.0
    ensures 0.0 <= Scale(1.0, a, n) <= Scale(1.0, b, n) <= 1.0
    ensures Scale(1.0, b, n) - Scale(1.0, a, n) <= n as real * e
  {
    if n == 0 {
    } else {
      PowerStep(a, b, e, n - 1);
      ScaleSnoc(1.0, a, n - 1);
      ScaleSnoc(1.0, b, n - 1);
      ProductStep(a, b, e, Scale(1.0, a, n - 1), Scale(1.0, b, n - 1), (n - 1) as real * e);
    }
  }

  lemma Decayed(s: real, k: real, y: real, limit: real)
    requires s >= 0.0 && y >= 1.0 && k > 0.0 && k * limit > 1.0 && s * (1.0 + k * y) <= 1.0
    ensures s <= limit
  {
    var g := 1.0 + k * y;
    MulMono(k, 1.0, y);
    MulMono(s, k, g);
    assert s * k <= 1.0 < k * limit;
    SignOfFactor(limit - s, k, k * limit - s * k);
  }

  lemma Archimedes(w: real) returns (d: nat, dr: real)
    requires w > 0.0
    ensures dr == d as real && dr > 0.0 && dr * w > 1.0
  {
    var k := 1.0 / w;
    assert k * w == 1.0;
    SignOfFactor(k, w, 1.0);
    d := k.Floor + 1;
    dr := d as real;
    SignOfFactor(dr - k, w, dr * w - 1.0);
  }

  // A power of x that is at most `limit`.
  lemma PowerBelow(x: real, limit: real) returns (k: nat)
    requires 0.0 < x < 0.5 && 0.0 < limit < 1.0
    ensures k > 0 && Scale(1.0, x, k) <= limit
  {
    var kr;
    k, kr := Archimedes(limit);
    var y := Quotient(1.0 - x, x);
    SignOfFactor(y - 1.0, x, 1.0 - x - x);
    ScaleDecay(1.0, x, y, k);
    Decayed(Scale(1.0, x, k), kr, y, limit);
  }

  lemma GridWidth(e: real, d: real, w: real, k: real, gap: real)
    requires d > 0.0 && e * d == 1.0 && d * w > 1.0 && k > 0.0 && w * k == gap
    ensures e > 0.0 && k * e < gap
  {
    SignOfFactor(e, d, 1.0);
    SignOfFactor(w - e, d, d * w - 1.0);
    SignOfFactor(w - e, k, gap - k * e);
  }

  lemma GridStep(n: real, d: real, e: real, a: real, b: real)
    requires 1.0 <= n <= d && e * d == 1.0 && a == (n - 1.0) / d && b == n / d
    ensures a >= 0.0 && b <= 1.0 && e == b - a
  {
    assert a * d == n - 1.0;
    assert b * d == n;
    SameSign(a, d);
    SignOfFactor(1.0 - b, d, d - n);
    SignOfFactor(e - (b - a), d, 0.0);
  }

  lemma PowerOfZero(k: nat)
    requires k > 0
    ensures Scale(1.0, 0.0, k) == 0.0
  {
    ScaleSnoc(1.0, 0.0, k - 1);
  }

  // The first point of the grid 0, 1/d, ..., 1 whose k-th power exceeds lo.
  lemma FirstAbove(lo: real, d: nat, k: nat) returns (n: nat)
    requires 0.0 < lo < 1.0 && d > 0 && k > 0
    ensures 0 < n <= d
    ensures Scale(1.0, (n - 1) as real / d as real, k) <= lo < Scale(1.0, n as real / d as real, k)
  {
    PowerOfZero(k);
    PowerOfOne(k);
    assert 0.0 / d as real == 0.0 && d as real / d as real == 1.0;
    n := 1;
    while Scale(1.0, n as real / d as real, k) <= lo
      invariant 0 < n <= d
      invariant Scale(1.0, (n - 1) as real / d as real, k) <= lo
      decreases d - n
    {
      n := n + 1;
    }
  }

  /** Some rational rate has its k-th power strictly between two given rates. */
  lemma PowerBetween(lo: real, hi: real, k: nat) returns (n: nat, d: nat)
    requires 0.0 < lo < hi < 1.0 && k > 0
    ensures 0 < n < d && lo < Scale(1.0, n as real / d as real, k) < hi
  {
    var w := Quotient(hi - lo, k as real);
    SignOfFactor(w, k as real, hi - lo);
    var dr;
    d, dr := Archimedes(w);
    var e := Quotient(1.0, dr);
    GridWidth(e, dr, w, k as real, hi - lo);
    PowerOfOne(k);
    PowerOfZero(k);
    n := FirstAbove(lo, d, k);
    var a, b := (n - 1) as real / dr, n as real / dr;
    assert a >= 0.0 && b <= 1.0 && e == b - a by {
      GridStep(n as real, dr, e, a, b);
    }
    PowerStep(a, b, e, k);
    assert n == d ==> b == 1.0;
  }

  // ---------------------------------------------------------------- missed degradations

  lemma OneRequestMass(b: Bounds, m: Metric, c: Batch, h: Hypothesis, goal: Verdict)
    requires c.requests == 1
    ensures var s := Fresh(m.name);
      Mass(b, m, OneCycle(c), h, goal, s, [], 1)
      == Mix(RateUnder(h, m, OneCycle(c), [], 0, 1), if Next(b, m, s, Poll(s, c, 1)).verdict == goal then 1.0 else 0.0,
             if Next(b, m, s, Poll(s, c, 0)).verdict == goal then 1.0 else 0.0)
  {
    var s, policy := Fresh(m.name), OneCycle(c);
    assert BatchMass(b, m, policy, h, goal, s, [], 1, 1, 0)
        == Mass(b, m, policy, h, goal, Next(b, m, s, Poll(s, c, 1)), [] + [1], 0);
    assert BatchMass(b, m, policy, h, goal, s, [], 1, 0, 0)
        == Mass(b, m, policy, h, goal, Next(b, m, s, Poll(s, c, 0)), [] + [0], 0);
  }

  lemma QuotientIs(n: real, d: real, x: real)
    requires d > 0.0 && n == d * x
    ensures n / d == x
  {
    var q := n / d;
    assert q * d == n;
    SignOfFactor(q - x, d, n - d * x);
  }

  // What the lower bound makes of a success under the smallest baseline rate.
  lemma PassRate(alpha: Rate, beta: Rate, p0: Rate, l: real) returns (rate: Rate)
    requires alpha + beta < 1.0 && p0 < alpha && l == beta / (1.0 - alpha)
    ensures p0 < rate < 1.0 - beta && 1.0 - rate == (1.0 - p0) * l
  {
    QuotientOrder(beta, 1.0 - alpha);
    assert l * (1.0 - alpha) == beta;
    SignOfFactor(alpha - p0, l, alpha * l - p0 * l);
    SignOfFactor(1.0 - l, 1.0 - p0, (1.0 - p0) - (1.0 - p0) * l);
    rate := 1.0 - (1.0 - p0) * l;
  }

  lemma OneSuccessPromotes(b: Bounds, m: Metric, c: Batch, p0: Rate, p1: Rate)
    requires c.requests == 1 && p0 == BatchRate(c) && p1 == Alternative(p0, m)
    requires 1.0 - p1 == (1.0 - p0) * b.lower && b.lower < b.upper
    ensures Mass(b, m, OneCycle(c), H1, Promote, Fresh(m.name), [], 1) >= 1.0 - p1
  {
    QuotientIs(1.0 - p1, 1.0 - p0, b.lower);
    NextForward(b, m, Fresh(m.name), Poll(Fresh(m.name), c, 0));
    Unfold(1.0, SuccessFactor(p0, p1), 1, b.lower);
    OneRequestMass(b, m, c, H1, Promote);
  }

  /** The second half of the claim fails too, on its own, for every alpha above the floor on p0: one request
      against a failure-free stable version is enough. */
  lemma MissedDegradationCanExceedBeta(an: Analysis) returns (m: Metric, policy: Policy)
    requires an.alpha + an.beta < 1.0 && an.alpha > EPSILON
    ensures Wrong(an, m, policy, H1, 1) > an.beta
  {
    var b := an.Limits();
    var c := Batch(1, 0, 1);
    var p0 := BatchRate(c);
    assert p0 == EPSILON;
    var rate := PassRate(an.alpha, an.beta, p0, b.lower);
    m := Metric("", rate - p0);
    policy := OneCycle(c);
    BoundsStraddleOne(an);
    OneSuccessPromotes(b, m, c, p0, rate);
  }
}
