/** One metric over many analyzer cycles: what every reachable accumulator satisfies. */
module MetricRuns {
  import opened Wrappers
  import opened Scaling
  import opened Sprt

  // A cycle with a failed query leaves the stored state as it was.
  function Next(b: Bounds, m: Metric, s: MetricState, r: Reading): MetricState {
    match StepMetric(b, m, s, r)
    case None => s
    case Some(t) => t
  }

  function Run(b: Bounds, m: Metric, s: MetricState, rs: seq<Reading>): MetricState {
    if rs == [] then s else Next(b, m, Run(b, m, s, rs[..|rs| - 1]), rs[|rs| - 1])
  }

  lemma {:induction false} DecidedIsFrozen(b: Bounds, m: Metric, s: MetricState, rs: seq<Reading>)
    requires s.verdict != Pending
    ensures Run(b, m, s, rs) == s
  {
    if rs == [] {
    } else {
      DecidedIsFrozen(b, m, s, rs[..|rs| - 1]);
    }
  }

  lemma {:induction false} RunKeepsName(b: Bounds, m: Metric, rs: seq<Reading>)
    ensures Run(b, m, Fresh(m.name), rs).name == m.name
  {
    if rs == [] {
    } else {
      RunKeepsName(b, m, rs[..|rs| - 1]);
    }
  }

  // ---------------------------------------------------------------- verdict bands

  ghost predicate Banded(b: Bounds, s: MetricState) {
    s.ratio > 0.0
    && match s.verdict
       case Pending => b.lower < s.ratio < b.upper
       case Promote => s.ratio <= b.lower
       case Rollback => s.ratio >= b.upper
  }

  /** A failure is evidence against the canary, and a success for it, exactly when p0 < p1. */
  lemma FactorOrder(p0: Rate, p1: Rate)
    ensures FailureFactor(p0, p1) > 0.0 && SuccessFactor(p0, p1) > 0.0
    ensures FailureFactor(p0, p1) > 1.0 <==> p0 < p1
    ensures SuccessFactor(p0, p1) < 1.0 <==> p0 < p1
    ensures FailureFactor(p0, p1) > SuccessFactor(p0, p1) <==> p0 < p1
  {
    QuotientOrder(p1, p0);
    QuotientOrder(1.0 - p1, 1.0 - p0);
  }

  lemma WeighPositive(ratio: real, p0: Rate, p1: Rate, failures: nat, total: nat)
    requires ratio > 0.0
    ensures Weigh(ratio, p0, p1, failures, total) > 0.0
  {
    FactorOrder(p0, p1);
    FactorOrder(p1, p0);
    ScalePositive(ratio, FailureFactor(p0, p1), failures);
    var s := Scale(ratio, FailureFactor(p0, p1), failures);
    if failures <= total {
      ScalePositive(s, SuccessFactor(p0, p1), total - failures);
    } else {
      ScalePositive(s, SuccessFactor(p1, p0), failures - total);
    }
  }

  /** The two bounds lie on either side of the starting ratio 1 exactly when alpha + beta < 1. */
  lemma BoundsStraddleOne(an: Analysis)
    ensures var b := an.Limits();
      0.0 < b.lower && 0.0 < b.upper && (an.alpha + an.beta < 1.0 <==> b.lower < 1.0 < b.upper)
  {
    QuotientOrder(an.beta, 1.0 - an.alpha);
    QuotientOrder(1.0 - an.beta, an.alpha);
  }

  lemma StepKeepsBands(b: Bounds, m: Metric, s: MetricState, r: Reading)
    requires b.lower < 1.0 < b.upper && Banded(b, s)
    ensures Banded(b, Next(b, m, s, r))
  {
    if s.verdict == Pending && r.Usable() && !IsReset(s, r) {
      var total, failures := r.canaryTotal.value - s.lastTotal, r.canaryFailure.value - s.lastFailure;
      WeighPositive(s.ratio, Baseline(r), Alternative(Baseline(r), m), failures, total);
    }
  }

  lemma {:induction false} RunKeepsBands(b: Bounds, m: Metric, s: MetricState, rs: seq<Reading>)
    requires b.lower < 1.0 < b.upper && Banded(b, s)
    ensures Banded(b, Run(b, m, s, rs))
  {
    if rs == [] {
    } else {
      RunKeepsBands(b, m, s, rs[..|rs| - 1]);
      StepKeepsBands(b, m, Run(b, m, s, rs[..|rs| - 1]), rs[|rs| - 1]);
    }
  }

  /** Every reachable accumulator sits in the band of its verdict exactly when alpha + beta < 1. */
  lemma VerdictBands(an: Analysis, m: Metric)
    ensures (forall rs :: Banded(an.Limits(), Run(an.Limits(), m, Fresh(m.name), rs)))
            <==> an.alpha + an.beta < 1.0
  {
    BoundsStraddleOne(an);
    var b := an.Limits();
    if an.alpha + an.beta < 1.0 {
      forall rs ensures Banded(b, Run(b, m, Fresh(m.name), rs)) {
        RunKeepsBands(b, m, Fresh(m.name), rs);
      }
    } else {
      assert !Banded(b, Run(b, m, Fresh(m.name), []));
    }
  }

  // ---------------------------------------------------------------- counter conservation

  /** Bookkeeping beside a run: the poll at which the present test began, the counters it began
      from, and the failures that arrived in polls showing no new request. */
  datatype Ledger = Ledger(start: nat, baseTotal: int, baseFailure: int, unseen: int)

  ghost function LedgerOf(b: Bounds, m: Metric, rs: seq<Reading>): (l: Ledger)
    ensures l.start <= |rs|
  {
    if rs == [] then Ledger(0, 0, 0, 0)
    else
      var n := |rs| - 1;
      var l, s, r := LedgerOf(b, m, rs[..n]), Run(b, m, Fresh(m.name), rs[..n]), rs[n];
      if s.verdict != Pending || !r.Usable() then l
      else if IsReset(s, r) then Ledger(|rs|, r.canaryTotal.value, r.canaryFailure.value, 0)
      else if r.canaryTotal.value == s.lastTotal then
        l.(unseen := l.unseen + (r.canaryFailure.value - s.lastFailure))
      else l
  }

  // Poll i reports new failures although the request counter has not moved.
  ghost predicate Stalled(b: Bounds, m: Metric, rs: seq<Reading>, i: nat)
    requires i < |rs|
  {
    var s := Run(b, m, Fresh(m.name), rs[..i]);
    s.verdict == Pending && rs[i].Usable() && !IsReset(s, rs[i])
    && rs[i].canaryTotal.value == s.lastTotal && rs[i].canaryFailure.value > s.lastFailure
  }

  ghost predicate StalledSince(b: Bounds, m: Metric, rs: seq<Reading>, start: nat) {
    exists i :: start <= i < |rs| && Stalled(b, m, rs, i)
  }

  /** The base is zero, or the counters of a poll that showed a counter going backwards. */
  lemma {:induction false} LedgerBase(b: Bounds, m: Metric, rs: seq<Reading>)
    ensures var l := LedgerOf(b, m, rs);
      l.start <= |rs|
      && (l.start == 0 ==> l.baseTotal == 0 && l.baseFailure == 0)
      && (l.start > 0 ==>
            var s, r := Run(b, m, Fresh(m.name), rs[..l.start - 1]), rs[l.start - 1];
            s.verdict == Pending && r.Usable() && IsReset(s, r)
            && l.baseTotal == r.canaryTotal.value && l.baseFailure == r.canaryFailure.value)
  {
    if rs == [] {
    } else {
      var n := |rs| - 1;
      LedgerBase(b, m, rs[..n]);
      var l := LedgerOf(b, m, rs[..n]);
      if l.start > 0 {
        assert rs[..n][..l.start - 1] == rs[..l.start - 1];
      }
    }
  }

  lemma {:induction false} LedgerBalances(b: Bounds, m: Metric, rs: seq<Reading>)
    ensures var s, l := Run(b, m, Fresh(m.name), rs), LedgerOf(b, m, rs);
      s.observations == s.lastTotal - l.baseTotal && s.failures + l.unseen == s.lastFailure - l.baseFailure
  {
    if rs == [] {
    } else {
      LedgerBalances(b, m, rs[..|rs| - 1]);
    }
  }

  lemma StalledPrefix(b: Bounds, m: Metric, rs: seq<Reading>, start: nat)
    requires rs != [] && start <= |rs| - 1
    ensures StalledSince(b, m, rs, start) <==>
      StalledSince(b, m, rs[..|rs| - 1], start) || Stalled(b, m, rs, |rs| - 1)
  {
    var n := |rs| - 1;
    forall i | 0 <= i < n ensures Stalled(b, m, rs, i) <==> Stalled(b, m, rs[..n], i) {
      assert rs[..n][..i] == rs[..i];
    }
    if StalledSince(b, m, rs[..n], start) {
      var i :| start <= i < n && Stalled(b, m, rs[..n], i);
      assert Stalled(b, m, rs, i);
    }
  }

  lemma {:induction false} UnseenWhenStalled(b: Bounds, m: Metric, rs: seq<Reading>)
    ensures var l := LedgerOf(b, m, rs); l.unseen >= 0 && (l.unseen == 0 <==> !StalledSince(b, m, rs, l.start))
  {
    if rs == [] {
    } else {
      var n := |rs| - 1;
      UnseenWhenStalled(b, m, rs[..n]);
      StalledPrefix(b, m, rs, LedgerOf(b, m, rs[..n]).start);
    }
  }

  /** Within one test no request is lost or counted twice, whatever cycles failed or had no data;
      failures are conserved too, exactly when no poll since the base showed new failures without
      a new request. */
  lemma CountersConserved(b: Bounds, m: Metric, rs: seq<Reading>)
    ensures var s, l := Run(b, m, Fresh(m.name), rs), LedgerOf(b, m, rs);
      s.observations == s.lastTotal - l.baseTotal
      && s.failures + l.unseen == s.lastFailure - l.baseFailure
      && l.unseen >= 0
      && (s.failures == s.lastFailure - l.baseFailure <==> !StalledSince(b, m, rs, l.start))
  {
    LedgerBalances(b, m, rs);
    UnseenWhenStalled(b, m, rs);
  }

  lemma OneSuccessHalves(b: Bounds, m: Metric, r: Reading)
    requires b == Analysis(0.25, 0.25, 10, []).Limits() && m.delta == 0.25
    requires r == Sampled(Some(1), Some(0), Some(2), Some(1))
    ensures b.lower < 0.5 < b.upper
    ensures Next(b, m, Fresh(m.name), r) == MetricState(m.name, 0.5, 1, 0, 0.5, 1, 0, Pending)
  {
    NextForward(b, m, Fresh(m.name), r);
    var p0 := Baseline(r);
    assert p0 == 0.5;
    assert SuccessFactor(p0, Alternative(p0, m)) == 0.5;
    Unfold(1.0, 0.5, 1, 0.5);
  }

  /** Two polls, the second with a new failure but no new request: the failure is never counted. */
  lemma StalledFailureIsLost() returns (b: Bounds, m: Metric, rs: seq<Reading>)
    ensures |rs| == 2 && Stalled(b, m, rs, 1)
    ensures var s := Run(b, m, Fresh(m.name), rs);
      s.verdict == Pending && s.lastFailure == 1 && s.failures == 0 && LedgerOf(b, m, rs) == Ledger(0, 0, 0, 1)
  {
    b, m := Analysis(0.25, 0.25, 10, []).Limits(), Metric("errors", 0.25);
    var first: Reading := Sampled(Some(1), Some(0), Some(2), Some(1));
    var second: Reading := Sampled(Some(1), Some(1), Some(2), Some(1));
    rs := [first, second];
    OneSuccessHalves(b, m, first);
    var front := [first];
    assert front[..|front| - 1] == [] && rs[..|rs| - 1] == front;
    assert LedgerOf(b, m, front) == Ledger(0, 0, 0, 0);
    assert rs[..1] == front && Run(b, m, Fresh(m.name), front) == Next(b, m, Fresh(m.name), first);
  }

  // ---------------------------------------------------------------- batching

  lemma WeighAdd(ratio: real, p0: Rate, p1: Rate, f1: nat, n1: nat, f2: nat, n2: nat)
    requires f1 <= n1 && f2 <= n2
    ensures Weigh(Weigh(ratio, p0, p1, f1, n1), p0, p1, f2, n2) == Weigh(ratio, p0, p1, f1 + f2, n1 + n2)
  {
    var x, q := FailureFactor(p0, p1), SuccessFactor(p0, p1);
    ScaleCommute(Scale(ratio, x, f1), q, n1 - f1, x, f2);
    ScaleAdd(ratio, x, f1, f2);
    ScaleAdd(Scale(ratio, x, f1 + f2), q, n1 - f1, n2 - f2);
    assert n1 - f1 + (n2 - f2) == n1 + n2 - (f1 + f2);
  }

  // The counters have moved forward from (total, failure), by no more failures than requests.
  predicate Forward(total: int, failure: int, r: Reading) {
    r.Usable() && 0 <= r.canaryFailure.value - failure <= r.canaryTotal.value - total
  }

  // A schedule of polls with one baseline rate and counters that only move forward.
  ghost predicate Schedule(s: MetricState, p0: Rate, rs: seq<Reading>) {
    (forall i :: 0 <= i < |rs| ==> rs[i].Usable() && Baseline(rs[i]) == p0)
    && (rs != [] ==> Forward(s.lastTotal, s.lastFailure, rs[0]))
    && forall i :: 0 < i < |rs| ==> Forward(rs[i - 1].canaryTotal.value, rs[i - 1].canaryFailure.value, rs[i])
  }

  lemma WeighNothing(ratio: real, p0: Rate, p1: Rate)
    ensures Weigh(ratio, p0, p1, 0, 0) == ratio
  {}

  lemma NextForward(b: Bounds, m: Metric, s: MetricState, r: Reading)
    requires s.verdict == Pending && Forward(s.lastTotal, s.lastFailure, r)
    ensures var p0, total, failures :=
        Baseline(r), r.canaryTotal.value - s.lastTotal, r.canaryFailure.value - s.lastFailure;
      var ratio := Weigh(s.ratio, p0, Alternative(p0, m), failures, total);
      Next(b, m, s, r) == MetricState(s.name, ratio, s.observations + total, s.failures + failures,
        p0, r.canaryTotal.value, r.canaryFailure.value, Judge(b, ratio))
  {
    WeighNothing(s.ratio, Baseline(r), Alternative(Baseline(r), m));
  }

  /** Two polls in a row that only move forward amount to the second one alone. */
  lemma TwoPolls(b: Bounds, m: Metric, s: MetricState, r1: Reading, r2: Reading)
    requires s.verdict == Pending && Forward(s.lastTotal, s.lastFailure, r1)
    requires Next(b, m, s, r1).verdict == Pending
    requires r2.Usable() && Baseline(r1) == Baseline(r2)
    requires Forward(r1.canaryTotal.value, r1.canaryFailure.value, r2)
    ensures Next(b, m, Next(b, m, s, r1), r2) == Next(b, m, s, r2)
  {
    var p0 := Baseline(r1);
    NextForward(b, m, s, r1);
    NextForward(b, m, Next(b, m, s, r1), r2);
    NextForward(b, m, s, r2);
    WeighAdd(s.ratio, p0, Alternative(p0, m),
             r1.canaryFailure.value - s.lastFailure, r1.canaryTotal.value - s.lastTotal,
             r2.canaryFailure.value - r1.canaryFailure.value, r2.canaryTotal.value - r1.canaryTotal.value);
  }

  lemma {:induction false} ScheduleReaches(s: MetricState, p0: Rate, rs: seq<Reading>)
    requires rs != [] && Schedule(s, p0, rs)
    ensures Forward(s.lastTotal, s.lastFailure, rs[|rs| - 1])
  {
    var n := |rs| - 1;
    if n == 0 {
    } else {
      ScheduleReaches(s, p0, rs[..n]);
    }
  }

  /** Polling schedule irrelevance: with one baseline and no boundary reached on the way, any
      schedule of polls leaves exactly the state that polling only at its end would have left. */
  lemma {:induction false} Batching(b: Bounds, m: Metric, s: MetricState, p0: Rate, rs: seq<Reading>)
    requires rs != [] && Schedule(s, p0, rs)
    requires forall i :: 0 <= i < |rs| ==> Run(b, m, s, rs[..i]).verdict == Pending
    ensures Run(b, m, s, rs) == Next(b, m, s, rs[|rs| - 1])
  {
    var n := |rs| - 1;
    assert rs[..0] == [];
    if n == 0 {
    } else {
      var front := rs[..n];
      forall i | 0 <= i < |front| ensures Run(b, m, s, front[..i]).verdict == Pending {
        assert front[..i] == rs[..i];
      }
      Batching(b, m, s, p0, front);
      ScheduleReaches(s, p0, front);
      TwoPolls(b, m, s, rs[n - 1], rs[n]);
    }
  }

  lemma AlternativeAbove(p0: Rate, m: Metric)
    ensures p0 < Alternative(p0, m) <==> p0 + m.delta < 1.0 || p0 < 1.0 - EPSILON
  {}

  lemma CompareScaled(v: real, x: real, y: real)
    requires v > 0.0
    ensures x * v > y * v <==> x > y
  {
    assert (x - y) * v == x * v - y * v;
  }

  lemma OneMoreFailure(ratio: real, p0: Rate, p1: Rate, failures: nat, total: nat)
    requires ratio > 0.0 && failures < total
    ensures Weigh(ratio, p0, p1, failures + 1, total) > Weigh(ratio, p0, p1, failures, total) <==> p0 < p1
  {
    var x, q := FailureFactor(p0, p1), SuccessFactor(p0, p1);
    var before := Scale(ratio, x, failures);
    var rest := total - failures - 1;
    var v := Scale(before, q, rest);
    ScalePositive(ratio, x, failures);
    ScalePositive(before, q, rest);
    ScaleSnoc(ratio, x, failures);
    ScaleLinear(x, before, Scale(ratio, x, failures + 1), q, rest);
    ScaleSnoc(before, q, rest);
    FactorOrder(p0, p1);
    CompareScaled(v, x, q);
  }

  /** Replacing one success by a failure raises the evidence exactly when the alternative rate lies above the
      baseline: always, except for a baseline at the cap that p1 is cut down to. */
  lemma FailureRaisesEvidence(ratio: real, p0: Rate, m: Metric, failures: nat, total: nat)
    requires ratio > 0.0 && failures < total
    ensures var p1 := Alternative(p0, m);
      Weigh(ratio, p0, p1, failures + 1, total) > Weigh(ratio, p0, p1, failures, total)
      <==> p0 + m.delta < 1.0 || p0 < 1.0 - EPSILON
  {
    OneMoreFailure(ratio, p0, Alternative(p0, m), failures, total);
    AlternativeAbove(p0, m);
  }
}
