/** How many requests the test can see and stay undecided on one-sided traffic, however they are polled. */
module BoundedDecision {
  import opened Scaling
  import opened Sprt
  import opened MetricRuns

  // ---------------------------------------------------------------- one-sided traffic

  datatype Counts = Counts(total: nat, failure: nat)

  function From(s: MetricState): Counts {
    Counts(s.lastTotal, s.lastFailure)
  }

  // The counters as the last poll with data showed them; `start` before there is any.
  function Seen(start: Counts, rs: seq<Reading>): Counts {
    if rs == [] then start
    else
      var r := rs[|rs| - 1];
      if r.Usable() then Counts(r.canaryTotal.value, r.canaryFailure.value) else Seen(start, rs[..|rs| - 1])
  }

  // A poll without data, without new requests, or with new requests that all succeeded, at baseline p0.
  predicate OnlySuccesses(seen: Counts, p0: Rate, r: Reading) {
    r.Usable() ==>
      r.canaryFailure.value == seen.failure && r.canaryTotal.value >= seen.total
      && (r.canaryTotal.value > seen.total ==> Baseline(r) == p0)
  }

  // The same with new requests that all failed.
  predicate OnlyFailures(seen: Counts, p0: Rate, r: Reading) {
    r.Usable() ==>
      r.canaryFailure.value - seen.failure == r.canaryTotal.value - seen.total >= 0
      && (r.canaryTotal.value > seen.total ==> Baseline(r) == p0)
  }

  ghost predicate HealthyStream(start: Counts, p0: Rate, rs: seq<Reading>) {
    rs == []
    || (HealthyStream(start, p0, rs[..|rs| - 1]) && OnlySuccesses(Seen(start, rs[..|rs| - 1]), p0, rs[|rs| - 1]))
  }

  ghost predicate BrokenStream(start: Counts, p0: Rate, rs: seq<Reading>) {
    rs == []
    || (BrokenStream(start, p0, rs[..|rs| - 1]) && OnlyFailures(Seen(start, rs[..|rs| - 1]), p0, rs[|rs| - 1]))
  }

  // The new requests that the polls have shown.
  function NewRequests(start: Counts, rs: seq<Reading>): int {
    Seen(start, rs).total - start.total
  }

  // The poll brings a new request.
  predicate Fruitful(seen: Counts, r: Reading) {
    r.Usable() && r.canaryTotal.value > seen.total
  }

  function FruitfulPolls(start: Counts, rs: seq<Reading>): nat {
    if rs == [] then 0
    else
      FruitfulPolls(start, rs[..|rs| - 1])
      + (if Fruitful(Seen(start, rs[..|rs| - 1]), rs[|rs| - 1]) then 1 else 0)
  }

  /** One-sided polls show at least one new request for each fruitful one among them. */
  lemma {:induction false} FruitfulPollsBring(start: Counts, p0: Rate, rs: seq<Reading>)
    requires HealthyStream(start, p0, rs) || BrokenStream(start, p0, rs)
    ensures FruitfulPolls(start, rs) <= NewRequests(start, rs)
  {
    if rs == [] {
    } else {
      FruitfulPollsBring(start, p0, rs[..|rs| - 1]);
    }
  }

  // A poll at baseline p0 that moves the counters on by `failures` failures and `total` requests, or leaves them.
  lemma OneSidedPoll(b: Bounds, m: Metric, s: MetricState, p0: Rate, r: Reading, failures: nat, total: nat)
    requires s.verdict == Pending && r.Usable() && failures <= total && b.lower < s.ratio < b.upper
    requires r.canaryTotal.value == s.lastTotal + total && r.canaryFailure.value == s.lastFailure + failures
    requires total > 0 ==> Baseline(r) == p0
    ensures var t := Next(b, m, s, r);
      t.ratio == Weigh(s.ratio, p0, Alternative(p0, m), failures, total)
      && t.verdict == Judge(b, t.ratio) && From(t) == Counts(r.canaryTotal.value, r.canaryFailure.value)
  {
    if total == 0 {
      WeighNothing(s.ratio, p0, Alternative(p0, m));
    }
  }

  // ---------------------------------------------------------------- successes only

  lemma MulShrinks(r: real, b: real)
    requires r >= 0.0 && 0.0 <= b <= 1.0
    ensures 0.0 <= r * b <= r
  {
    assert r * (1.0 - b) >= 0.0;
  }

  lemma {:induction false} ScaleShrinks(r: real, b: real, n: nat)
    requires r >= 0.0 && 0.0 <= b <= 1.0
    ensures 0.0 <= Scale(r, b, n) <= r
    decreases n
  {
    if n == 0 {
    } else {
      MulShrinks(r, b);
      ScaleShrinks(r * b, b, n - 1);
    }
  }

  lemma HealthyStep(b: Bounds, m: Metric, s: MetricState, p0: Rate, q: real, r: Reading)
    requires s.verdict == Pending && Banded(b, s) && OnlySuccesses(From(s), p0, r) && r.Usable()
    requires 0.0 < b.lower && q == SuccessFactor(p0, Alternative(p0, m)) <= 1.0
    ensures var t := Next(b, m, s, r);
      t.ratio == Scale(s.ratio, q, r.canaryTotal.value - s.lastTotal)
      && From(t) == Counts(r.canaryTotal.value, r.canaryFailure.value)
      && (t.verdict == Promote || (t.verdict == Pending && Banded(b, t)))
  {
    var total := r.canaryTotal.value - s.lastTotal;
    OneSidedPoll(b, m, s, p0, r, 0, total);
    FactorOrder(p0, Alternative(p0, m));
    ScalePositive(s.ratio, q, total);
    ScaleShrinks(s.ratio, q, total);
  }

  /** While undecided on successes alone, the ratio depends on nothing but the number of new requests. */
  lemma {:induction false} HealthyTracks(b: Bounds, m: Metric, s: MetricState, p0: Rate, q: real, rs: seq<Reading>)
    requires s.verdict == Pending && Banded(b, s) && HealthyStream(From(s), p0, rs)
    requires 0.0 < b.lower && q == SuccessFactor(p0, Alternative(p0, m)) <= 1.0
    ensures var t := Run(b, m, s, rs);
      NewRequests(From(s), rs) >= 0
      && (t.verdict == Promote
          || (t.verdict == Pending && Banded(b, t) && From(t) == Seen(From(s), rs)
              && t.ratio == Scale(s.ratio, q, NewRequests(From(s), rs))))
  {
    if rs == [] {
    } else {
      var front, r := rs[..|rs| - 1], rs[|rs| - 1];
      HealthyTracks(b, m, s, p0, q, front);
      var u := Run(b, m, s, front);
      if u.verdict == Pending && r.Usable() {
        HealthyStep(b, m, u, p0, q, r);
        ScaleAdd(s.ratio, q, NewRequests(From(s), front), r.canaryTotal.value - u.lastTotal);
      }
    }
  }

  /** The number of new requests that promote a canary on successes alone. */
  ghost function RequestsToPromote(b: Bounds, ratio: real, p0: Rate, p1: Rate): real
    requires p0 < p1 && b.lower > 0.0
  {
    (ratio / b.lower - 1.0) * ((1.0 - p1) / (p1 - p0))
  }

  // b/a and (a - b)/b as seen from a and b.
  lemma Reciprocal(a: real, b: real, q: real, y: real)
    requires 0.0 < b <= a && q * a == b && y * b == a - b
    ensures y >= 0.0 && q * (1.0 + y) == 1.0
  {
    SameSign(y, b);
    var k := 1.0 + y;
    assert k * b == a;
    assert q * a == (q * k) * b;
    assert (q * k - 1.0) * b == (q * k) * b - b;
    SameSign(q * k - 1.0, b);
  }

  lemma Inverse(a: real, b: real, y: real, d: real)
    requires a > 0.0 && b > 0.0 && y * b == a && d * a == b
    ensures y * d == 1.0 && y > 0.0
  {
    assert y * d * a == y * (d * a);
    SignOfFactor(y * d - 1.0, a, y * d * a - a);
    SignOfFactor(y, b, a);
  }

  lemma Outgrown(s: real, ratio: real, lower: real, z: real, y: real, d: real, n: real)
    requires s >= 0.0 && lower > 0.0 && y > 0.0 && n >= 0.0
    requires y * d == 1.0 && z * lower == ratio && n >= (z - 1.0) * d
    requires s * (1.0 + n * y) <= ratio
    ensures s <= lower
  {
    var k := 1.0 + n * y;
    assert k >= z by {
      assert (n - (z - 1.0) * d) * y >= 0.0;
      assert (z - 1.0) * d * y == (z - 1.0) * (d * y);
    }
    assert n * y >= 0.0;
    MulMono(lower, z, k);
    SameSign(s - lower, k);
    assert (s - lower) * k == s * k - lower * k;
  }

  lemma DecayBound(ratio: real, lower: real, a: real, b: real, q: real, d: real, y: real, z: real, n: nat)
    requires ratio > 0.0 && lower > 0.0 && 0.0 < b < a && q >= 0.0
    requires q * a == b && d * (a - b) == b && y * b == a - b && z * lower == ratio
    requires n as real >= (z - 1.0) * d
    ensures Scale(ratio, q, n) <= lower
  {
    Reciprocal(a, b, q, y);
    Inverse(a - b, b, y, d);
    ScaleDecay(ratio, q, y, n);
    Outgrown(Scale(ratio, q, n), ratio, lower, z, y, d, n as real);
  }

  lemma EnoughDecay(ratio: real, lower: real, p0: Rate, p1: Rate, n: nat)
    requires ratio > 0.0 && lower > 0.0 && p0 < p1
    requires n as real >= (ratio / lower - 1.0) * ((1.0 - p1) / (p1 - p0))
    ensures Scale(ratio, SuccessFactor(p0, p1), n) <= lower
  {
    var q := Quotient(1.0 - p1, 1.0 - p0);
    var d := Quotient(1.0 - p1, p1 - p0);
    var y := Quotient(p1 - p0, 1.0 - p1);
    var z := Quotient(ratio, lower);
    FactorOrder(p0, p1);
    DecayBound(ratio, lower, 1.0 - p0, 1.0 - p1, q, d, y, z, n);
  }

  lemma HealthyStreamPromotes(b: Bounds, m: Metric, s: MetricState, p0: Rate, p1: Rate, rs: seq<Reading>)
    requires s.verdict == Pending && Banded(b, s) && HealthyStream(From(s), p0, rs)
    requires 0.0 < b.lower && p0 < p1 == Alternative(p0, m)
    requires NewRequests(From(s), rs) as real >= RequestsToPromote(b, s.ratio, p0, p1)
    ensures Run(b, m, s, rs).verdict == Promote
  {
    FactorOrder(p0, p1);
    HealthyTracks(b, m, s, p0, SuccessFactor(p0, p1), rs);
    EnoughDecay(s.ratio, b.lower, p0, p1, NewRequests(From(s), rs));
  }

  // ---------------------------------------------------------------- failures only

  lemma MulGrows(r: real, b: real)
    requires r >= 0.0 && b >= 1.0
    ensures r * b >= r
  {
    assert r * (b - 1.0) >= 0.0;
  }

  lemma {:induction false} ScaleGrows(r: real, b: real, n: nat)
    requires r >= 0.0 && b >= 1.0
    ensures Scale(r, b, n) >= r
    decreases n
  {
    if n == 0 {
    } else {
      MulGrows(r, b);
      ScaleGrows(r * b, b, n - 1);
    }
  }

  lemma BrokenStep(b: Bounds, m: Metric, s: MetricState, p0: Rate, x: real, r: Reading)
    requires s.verdict == Pending && Banded(b, s) && OnlyFailures(From(s), p0, r) && r.Usable()
    requires x == FailureFactor(p0, Alternative(p0, m)) >= 1.0
    ensures var t := Next(b, m, s, r);
      t.ratio == Scale(s.ratio, x, r.canaryTotal.value - s.lastTotal)
      && From(t) == Counts(r.canaryTotal.value, r.canaryFailure.value)
      && (t.verdict == Rollback || (t.verdict == Pending && Banded(b, t)))
  {
    var total := r.canaryTotal.value - s.lastTotal;
    OneSidedPoll(b, m, s, p0, r, total, total);
    ScalePositive(s.ratio, x, total);
    ScaleGrows(s.ratio, x, total);
  }

  lemma {:induction false} BrokenTracks(b: Bounds, m: Metric, s: MetricState, p0: Rate, x: real, rs: seq<Reading>)
    requires s.verdict == Pending && Banded(b, s) && BrokenStream(From(s), p0, rs)
    requires x == FailureFactor(p0, Alternative(p0, m)) >= 1.0
    ensures var t := Run(b, m, s, rs);
      NewRequests(From(s), rs) >= 0
      && (t.verdict == Rollback
          || (t.verdict == Pending && Banded(b, t) && From(t) == Seen(From(s), rs)
              && t.ratio == Scale(s.ratio, x, NewRequests(From(s), rs))))
  {
    if rs == [] {
    } else {
      var front, r := rs[..|rs| - 1], rs[|rs| - 1];
      BrokenTracks(b, m, s, p0, x, front);
      var u := Run(b, m, s, front);
      if u.verdict == Pending && r.Usable() {
        BrokenStep(b, m, u, p0, x, r);
        ScaleAdd(s.ratio, x, NewRequests(From(s), front), r.canaryTotal.value - u.lastTotal);
      }
    }
  }

  /** The number of new requests that roll a canary back on failures alone. */
  ghost function RequestsToRollback(b: Bounds, ratio: real, p0: Rate, p1: Rate): real
    requires p0 < p1 && ratio > 0.0
  {
    (b.upper / ratio - 1.0) * (p0 as real / (p1 - p0))
  }

  lemma Overgrown(ratio: real, upper: real, z: real, y: real, d: real, n: real)
    requires ratio > 0.0 && y > 0.0 && n >= 0.0
    requires y * d == 1.0 && z * ratio == upper && n >= (z - 1.0) * d
    ensures ratio * (1.0 + n * y) >= upper
  {
    assert 1.0 + n * y >= z by {
      assert (n - (z - 1.0) * d) * y >= 0.0;
      assert (z - 1.0) * d * y == (z - 1.0) * (d * y);
    }
    MulMono(ratio, z, 1.0 + n * y);
  }

  lemma GrowthBound(ratio: real, upper: real, a: real, b: real, x: real, d: real, z: real, n: nat)
    requires ratio > 0.0 && upper > 0.0 && 0.0 < a < b && x >= 1.0
    requires x * a == b && d * (b - a) == a && z * ratio == upper
    requires n as real >= (z - 1.0) * d
    ensures Scale(ratio, x, n) >= upper
  {
    var y := x - 1.0;
    assert y * a == b - a;
    Inverse(b - a, a, y, d);
    ScaleGrowth(ratio, x, n);
    Overgrown(ratio, upper, z, y, d, n as real);
  }

  lemma EnoughGrowth(ratio: real, upper: real, p0: Rate, p1: Rate, n: nat)
    requires ratio > 0.0 && upper > 0.0 && p0 < p1
    requires n as real >= (upper / ratio - 1.0) * (p0 as real / (p1 - p0))
    ensures Scale(ratio, FailureFactor(p0, p1), n) >= upper
  {
    var x := Quotient(p1, p0);
    var d := Quotient(p0, p1 - p0);
    var z := Quotient(upper, ratio);
    FactorOrder(p0, p1);
    GrowthBound(ratio, upper, p0, p1, x, d, z, n);
  }

  lemma BrokenStreamRollsBack(b: Bounds, m: Metric, s: MetricState, p0: Rate, p1: Rate, rs: seq<Reading>)
    requires s.verdict == Pending && Banded(b, s) && BrokenStream(From(s), p0, rs)
    requires p0 < p1 == Alternative(p0, m)
    requires NewRequests(From(s), rs) as real >= RequestsToRollback(b, s.ratio, p0, p1)
    ensures Run(b, m, s, rs).verdict == Rollback
  {
    FactorOrder(p0, p1);
    BrokenTracks(b, m, s, p0, FailureFactor(p0, p1), rs);
    EnoughGrowth(s.ratio, b.upper, p0, p1, NewRequests(From(s), rs));
  }

  /** The two limits in terms of alpha, beta, p0 and p1 for a test that starts from scratch. */
  lemma RequestsFromScratch(an: Analysis, p0: Rate, p1: Rate)
    requires p0 < p1
    ensures RequestsToPromote(an.Limits(), 1.0, p0, p1)
            == (1.0 - an.alpha - an.beta) / an.beta * ((1.0 - p1) / (p1 - p0))
    ensures RequestsToRollback(an.Limits(), 1.0, p0, p1)
            == (1.0 - an.alpha - an.beta) / an.alpha * (p0 as real / (p1 - p0))
  {
    QuotientExcess(1.0 - an.alpha, an.beta);
    QuotientExcess(1.0 - an.beta, an.alpha);
    QuotientInverse(an.beta, 1.0 - an.alpha);
  }
}
