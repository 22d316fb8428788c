/** False rollbacks of a whole rollout, whatever the number of its steps.

    Every step begins its tests afresh, and the first poll of a step counts the canary's whole counter. So, with one
    stable rate per metric and counters that start at zero and do not restart, the ratio of a test is in every step
    what the whole history of the canary makes of it, and one supermartingale per metric bounds all rollbacks. */
module RolloutErrors {
  import opened Wrappers
  import opened Scaling
  import opened Sprt
  import opened MetricRuns
  import opened BoundedDecision
  import opened Aggregation
  import opened WaldBounds
  import opened StepErrors

  // The analysis states of the step, and what the canary has served since the rollout began.
  datatype Progress = Progress(states: seq<MetricState>, served: seq<Counts>)

  // What can happen: requests, polls at which some metrics may have no data, and changes of step.
  datatype Course =
    | Over
    | Serve(metric: nat, chance: Chance, failed: Course, succeeded: Course)
    | Look(data: seq<bool>, stable: seq<Batch>, next: Course)
    | Enter(next: Course)

  // ---------------------------------------------------------------- one poll, one request

  predicate HasData(data: seq<bool>, k: nat) {
    k < |data| ==> data[k]
  }

  function Read(at: Progress, data: seq<bool>, stable: seq<Batch>, k: nat): (r: Reading)
    requires k < |at.served| && k < |stable|
    ensures r.Sampled? && (r.Usable() <==> HasData(data, k))
  {
    if HasData(data, k) then
      Sampled(Some(at.served[k].total), Some(at.served[k].failure), Some(stable[k].stableTotal),
              Some(stable[k].stableFailure))
    else Sampled(None, None, None, None)
  }

  function AllRead(at: Progress, data: seq<bool>, stable: seq<Batch>, n: nat): (rs: seq<Reading>)
    requires n <= |at.served| && n <= |stable|
    ensures |rs| == n && forall k :: 0 <= k < n ==> rs[k] == Read(at, data, stable, k)
  {
    if n == 0 then [] else AllRead(at, data, stable, n - 1) + [Read(at, data, stable, n - 1)]
  }

  function LookOutcome(an: Analysis, at: Progress, data: seq<bool>, stable: seq<Batch>): CycleOutcome
    requires |at.served| == |stable| == |an.metrics|
  {
    Cycle(an, at.states, AllRead(at, data, stable, |an.metrics|))
  }

  function ServedOne(at: Progress, k: nat, failures: nat): Progress
    requires k < |at.served|
  {
    at.(served := at.served[k := Counts(at.served[k].total + 1, at.served[k].failure + failures)])
  }

  // Requests go to metrics that exist, and every metric's stable rate stays what it is.
  ghost predicate Steady(an: Analysis, p0s: seq<Rate>, c: Course) {
    match c
    case Over => true
    case Serve(k, _, failed, succeeded) =>
      k < |an.metrics| && Steady(an, p0s, failed) && Steady(an, p0s, succeeded)
    case Look(_, stable, next) =>
      |stable| == |p0s| == |an.metrics| && (forall k :: 0 <= k < |p0s| ==> BatchRate(stable[k]) == p0s[k])
      && Steady(an, p0s, next)
    case Enter(next) => Steady(an, p0s, next)
  }

  // No request is likelier to fail than its metric's stable rate, where the alternative is a degradation.
  ghost predicate NeverWorse(an: Analysis, p0s: seq<Rate>, c: Course)
    requires |p0s| == |an.metrics| && Steady(an, p0s, c)
  {
    match c
    case Over => true
    case Serve(k, p, failed, succeeded) =>
      Leans(p, p0s[k], Alternative(p0s[k], an.metrics[k]))
      && NeverWorse(an, p0s, failed) && NeverWorse(an, p0s, succeeded)
    case Look(_, _, next) => NeverWorse(an, p0s, next)
    case Enter(next) => NeverWorse(an, p0s, next)
  }

  // The expected cost of a rollback of the rollout at `price`.
  ghost function RollbackToll(an: Analysis, p0s: seq<Rate>, c: Course, at: Progress, price: real): real
    requires |at.served| == |p0s| == |an.metrics| && Steady(an, p0s, c)
    decreases c
  {
    match c
    case Over => 0.0
    case Serve(k, p, failed, succeeded) =>
      Mix(p, RollbackToll(an, p0s, failed, ServedOne(at, k, 1), price),
          RollbackToll(an, p0s, succeeded, ServedOne(at, k, 0), price))
    case Look(data, stable, next) =>
      var o := LookOutcome(an, at, data, stable);
      if o.QueryFailed? then 0.0
      else if o.decision == RollBack then price
      else RollbackToll(an, p0s, next, at.(states := o.states), price)
    case Enter(next) => RollbackToll(an, p0s, next, at.(states := []), price)
  }

  // ---------------------------------------------------------------- the ratio of the whole history

  function History(an: Analysis, p0s: seq<Rate>, at: Progress, k: nat): real
    requires k < |an.metrics| && k < |p0s| && k < |at.served|
  {
    if at.served[k].failure <= at.served[k].total then
      Weigh(1.0, p0s[k], Alternative(p0s[k], an.metrics[k]), at.served[k].failure, at.served[k].total)
    else 0.0
  }

  function Histories(an: Analysis, p0s: seq<Rate>, at: Progress, n: nat): real
    requires n <= |an.metrics| && n <= |p0s| && n <= |at.served|
  {
    if n == 0 then 0.0 else Histories(an, p0s, at, n - 1) + History(an, p0s, at, n - 1)
  }

  // The state of an undecided test is what the history up to its last poll makes of it.
  predicate Recounts(p0: Rate, m: Metric, s: MetricState, served: Counts) {
    s.verdict == Pending ==>
      s.lastFailure <= s.lastTotal && s.lastFailure <= served.failure
      && served.failure - s.lastFailure <= served.total - s.lastTotal
      && s.ratio == Weigh(1.0, p0, Alternative(p0, m), s.lastFailure, s.lastTotal)
  }

  ghost predicate AllRecount(an: Analysis, p0s: seq<Rate>, at: Progress) {
    |at.served| == |p0s| == |an.metrics|
    && forall k :: 0 <= k < |an.metrics| ==>
         at.served[k].failure <= at.served[k].total
         && Recounts(p0s[k], an.metrics[k], Before(an, at.states, k), at.served[k])
  }

  lemma FreshRecounts(p0: Rate, m: Metric, served: Counts)
    requires served.failure <= served.total
    ensures Recounts(p0, m, Fresh(m.name), served)
  {
    WeighNothing(1.0, p0, Alternative(p0, m));
  }

  lemma HistoryPositive(an: Analysis, p0s: seq<Rate>, at: Progress, k: nat)
    requires AllRecount(an, p0s, at) && k < |an.metrics|
    ensures History(an, p0s, at, k) > 0.0
  {
    WeighPositive(1.0, p0s[k], Alternative(p0s[k], an.metrics[k]), at.served[k].failure, at.served[k].total);
  }

  lemma {:induction false} HistoriesCover(an: Analysis, p0s: seq<Rate>, at: Progress, k: nat, n: nat)
    requires AllRecount(an, p0s, at) && n <= |an.metrics|
    ensures Histories(an, p0s, at, n) >= 0.0 && (k < n ==> Histories(an, p0s, at, n) >= History(an, p0s, at, k))
  {
    if n == 0 {
    } else {
      HistoriesCover(an, p0s, at, k, n - 1);
      HistoryPositive(an, p0s, at, n - 1);
    }
  }

  // ---------------------------------------------------------------- a request

  lemma {:induction false} HistoriesShift(an: Analysis, p0s: seq<Rate>, at: Progress, at': Progress, k: nat, n: nat)
    requires |at.served| == |at'.served| == |p0s| == |an.metrics| && k < |an.metrics| && n <= |an.metrics|
    requires forall j :: 0 <= j < |an.metrics| && j != k ==> at'.served[j] == at.served[j]
    ensures Histories(an, p0s, at', n)
            == Histories(an, p0s, at, n) + (if k < n then History(an, p0s, at', k) - History(an, p0s, at, k) else 0.0)
  {
    if n == 0 {
    } else {
      HistoriesShift(an, p0s, at, at', k, n - 1);
    }
  }

  lemma ServedRecounts(an: Analysis, p0s: seq<Rate>, at: Progress, k: nat, failures: nat)
    requires AllRecount(an, p0s, at) && k < |an.metrics| && failures <= 1
    ensures AllRecount(an, p0s, ServedOne(at, k, failures))
  {
    forall j | 0 <= j < |an.metrics|
      ensures Before(an, ServedOne(at, k, failures).states, j) == Before(an, at.states, j)
    {}
  }

  lemma HistoriesDrift(an: Analysis, p0s: seq<Rate>, at: Progress, k: nat, p: Chance)
    requires AllRecount(an, p0s, at) && k < |an.metrics| && Leans(p, p0s[k], Alternative(p0s[k], an.metrics[k]))
    ensures AllRecount(an, p0s, ServedOne(at, k, 1)) && AllRecount(an, p0s, ServedOne(at, k, 0))
    ensures var n := |an.metrics|;
      Mix(p, Histories(an, p0s, ServedOne(at, k, 1), n), Histories(an, p0s, ServedOne(at, k, 0), n))
      <= Histories(an, p0s, at, n)
  {
    var n, f, s := |an.metrics|, ServedOne(at, k, 1), ServedOne(at, k, 0);
    ServedRecounts(an, p0s, at, k, 0);
    ServedRecounts(an, p0s, at, k, 1);
    HistoriesShift(an, p0s, at, f, k, n);
    HistoriesShift(an, p0s, at, s, k, n);
    HistoryPositive(an, p0s, at, k);
    WeighMoves(1.0, p0s[k], Alternative(p0s[k], an.metrics[k]), at.served[k].failure, at.served[k].total);
    MovesDrift(p, p0s[k], Alternative(p0s[k], an.metrics[k]),
               History(an, p0s, at, k), History(an, p0s, f, k), History(an, p0s, s, k));
    ShiftedMix(p, Histories(an, p0s, at, n) - History(an, p0s, at, k), History(an, p0s, f, k), History(an, p0s, s, k));
  }

  // ---------------------------------------------------------------- a poll

  // A test polled with data ends up with the ratio of the whole history.
  lemma PolledTest(b: Bounds, m: Metric, s: MetricState, p0: Rate, served: Counts, r: Reading)
    requires s.verdict == Pending && Recounts(p0, m, s, served) && served.failure <= served.total
    requires r.Usable() && Baseline(r) == p0
    requires r.canaryTotal.value == served.total && r.canaryFailure.value == served.failure
    ensures var t := Next(b, m, s, r);
      t.ratio == Weigh(1.0, p0, Alternative(p0, m), served.failure, served.total)
      && t.verdict == Judge(b, t.ratio) && Recounts(p0, m, t, served) && t.name == s.name
  {
    NextForward(b, m, s, r);
    WeighAdd(1.0, p0, Alternative(p0, m), s.lastFailure, s.lastTotal,
             served.failure - s.lastFailure, served.total - s.lastTotal);
  }

  lemma LookedAt(an: Analysis, p0s: seq<Rate>, at: Progress, data: seq<bool>, stable: seq<Batch>, k: nat)
    requires AllRecount(an, p0s, at) && |stable| == |an.metrics| && k < |an.metrics| && BatchRate(stable[k]) == p0s[k]
    ensures var s := Before(an, at.states, k);
      var after := After(an, at.states, AllRead(at, data, stable, |an.metrics|), k);
      after.Some? && after.value.name == an.metrics[k].name
      && Recounts(p0s[k], an.metrics[k], after.value, at.served[k])
      && (s.verdict == Pending && after.value.verdict == Rollback ==> History(an, p0s, at, k) >= an.Limits().upper)
  {
    var s, r := Before(an, at.states, k), Read(at, data, stable, k);
    FindKeepsName(at.states, an.metrics[k].name);
    assert Answer(AllRead(at, data, stable, |an.metrics|), k) == r;
    if s.verdict == Pending && r.Usable() {
      PolledTest(an.Limits(), an.metrics[k], s, p0s[k], at.served[k], r);
    }
  }

  lemma LookRecounts(an: Analysis, p0s: seq<Rate>, at: Progress, data: seq<bool>, stable: seq<Batch>)
    requires an.DistinctNames() && AllRecount(an, p0s, at) && |stable| == |an.metrics|
    requires forall k :: 0 <= k < |p0s| ==> BatchRate(stable[k]) == p0s[k]
    requires LookOutcome(an, at, data, stable).Decided? && LookOutcome(an, at, data, stable).decision != RollBack
    ensures AllRecount(an, p0s, at.(states := LookOutcome(an, at, data, stable).states))
  {
    var rs, states := AllRead(at, data, stable, |an.metrics|), LookOutcome(an, at, data, stable).states;
    QuietCycleSteps(an, at.states, rs);
    forall k | 0 <= k < |an.metrics|
      ensures states[k].name == an.metrics[k].name && Recounts(p0s[k], an.metrics[k], states[k], at.served[k])
    {
      LookedAt(an, p0s, at, data, stable, k);
    }
    forall k | 0 <= k < |an.metrics| ensures Before(an, states, k) == states[k] {
      FindNamed(states, k);
    }
  }

  lemma LookRollsBack(an: Analysis, p0s: seq<Rate>, at: Progress, data: seq<bool>, stable: seq<Batch>)
    requires AllRecount(an, p0s, at) && |stable| == |an.metrics|
    requires forall k :: 0 <= k < |p0s| ==> BatchRate(stable[k]) == p0s[k]
    requires LookOutcome(an, at, data, stable).Decided? && LookOutcome(an, at, data, stable).decision == RollBack
    ensures Histories(an, p0s, at, |an.metrics|) >= an.Limits().upper
  {
    var k := FirstStop(an, at.states, AllRead(at, data, stable, |an.metrics|), 0);
    LookedAt(an, p0s, at, data, stable, k);
    HistoriesCover(an, p0s, at, k, |an.metrics|);
  }

  lemma EnterRecounts(an: Analysis, p0s: seq<Rate>, at: Progress)
    requires AllRecount(an, p0s, at)
    ensures AllRecount(an, p0s, at.(states := []))
  {
    forall k | 0 <= k < |an.metrics|
      ensures Recounts(p0s[k], an.metrics[k], Before(an, [], k), at.served[k])
    {
      FreshRecounts(p0s[k], an.metrics[k], at.served[k]);
    }
  }

  // ---------------------------------------------------------------- the bound

  ghost predicate CoveredByHistory(an: Analysis, p0s: seq<Rate>, c: Course, at: Progress)
    requires |at.served| == |p0s| == |an.metrics| && Steady(an, p0s, c)
  {
    RollbackToll(an, p0s, c, at, an.Limits().upper) <= Histories(an, p0s, at, |an.metrics|)
  }

  lemma {:induction false} SameHistories(an: Analysis, p0s: seq<Rate>, at: Progress, states: seq<MetricState>, n: nat)
    requires |at.served| == |p0s| == |an.metrics| && n <= |an.metrics|
    ensures Histories(an, p0s, at.(states := states), n) == Histories(an, p0s, at, n)
  {
    if n == 0 {
    } else {
      SameHistories(an, p0s, at, states, n - 1);
    }
  }

  lemma ServeCovered(an: Analysis, p0s: seq<Rate>, c: Course, at: Progress)
    requires AllRecount(an, p0s, at) && Steady(an, p0s, c) && NeverWorse(an, p0s, c) && c.Serve?
    requires CoveredByHistory(an, p0s, c.failed, ServedOne(at, c.metric, 1))
    requires CoveredByHistory(an, p0s, c.succeeded, ServedOne(at, c.metric, 0))
    ensures CoveredByHistory(an, p0s, c, at)
  {
    var n, u, f, s := |an.metrics|, an.Limits().upper, ServedOne(at, c.metric, 1), ServedOne(at, c.metric, 0);
    HistoriesDrift(an, p0s, at, c.metric, c.chance);
    CoveredMix(c.chance, RollbackToll(an, p0s, c.failed, f, u), RollbackToll(an, p0s, c.succeeded, s, u),
      Histories(an, p0s, f, n), Histories(an, p0s, s, n), Histories(an, p0s, at, n), 0.0, 0.0, 0.0);
  }

  /** The ratios of the whole history are a supermartingale, through polls and changes of step alike. */
  lemma {:induction false} TollCovered(an: Analysis, p0s: seq<Rate>, c: Course, at: Progress)
    requires an.DistinctNames() && AllRecount(an, p0s, at) && Steady(an, p0s, c) && NeverWorse(an, p0s, c)
    ensures CoveredByHistory(an, p0s, c, at)
    decreases c
  {
    HistoriesCover(an, p0s, at, 0, |an.metrics|);
    match c
    case Over =>
    case Serve(k, p, failed, succeeded) =>
      HistoriesDrift(an, p0s, at, k, p);
      TollCovered(an, p0s, failed, ServedOne(at, k, 1));
      TollCovered(an, p0s, succeeded, ServedOne(at, k, 0));
      ServeCovered(an, p0s, c, at);
    case Look(data, stable, next) =>
      var o := LookOutcome(an, at, data, stable);
      if o.Decided? && o.decision == RollBack {
        LookRollsBack(an, p0s, at, data, stable);
      } else if o.Decided? {
        LookRecounts(an, p0s, at, data, stable);
        TollCovered(an, p0s, next, at.(states := o.states));
        SameHistories(an, p0s, at, o.states, |an.metrics|);
      }
    case Enter(next) =>
      EnterRecounts(an, p0s, at);
      TollCovered(an, p0s, next, at.(states := []));
      SameHistories(an, p0s, at, [], |an.metrics|);
  }

  /** The cost is the price times the chance. */
  lemma {:induction false} TollOfChance(an: Analysis, p0s: seq<Rate>, c: Course, at: Progress, price: real)
    requires |at.served| == |p0s| == |an.metrics| && Steady(an, p0s, c)
    ensures Priced(price, RollbackToll(an, p0s, c, at, 1.0), RollbackToll(an, p0s, c, at, price))
    decreases c
  {
    PricedZero(price);
    match c
    case Over =>
    case Serve(k, p, failed, succeeded) =>
      var f, s := ServedOne(at, k, 1), ServedOne(at, k, 0);
      TollOfChance(an, p0s, failed, f, price);
      TollOfChance(an, p0s, succeeded, s, price);
      PricedMix(p, price, RollbackToll(an, p0s, failed, f, 1.0), RollbackToll(an, p0s, succeeded, s, 1.0),
                RollbackToll(an, p0s, failed, f, price), RollbackToll(an, p0s, succeeded, s, price));
    case Look(data, stable, next) =>
      var o := LookOutcome(an, at, data, stable);
      if o.Decided? && o.decision != RollBack {
        TollOfChance(an, p0s, next, at.(states := o.states), price);
      }
    case Enter(next) =>
      TollOfChance(an, p0s, next, at.(states := []), price);
  }

  // No states stored yet, and nothing served.
  ghost predicate RolloutBegins(an: Analysis, at: Progress) {
    at.states == [] && |at.served| == |an.metrics| && forall k :: 0 <= k < |at.served| ==> at.served[k] == Counts(0, 0)
  }

  lemma {:induction false} FirstHistories(an: Analysis, p0s: seq<Rate>, at: Progress, n: nat)
    requires RolloutBegins(an, at) && |p0s| == |an.metrics| && n <= |an.metrics|
    ensures Histories(an, p0s, at, n) == n as real
  {
    if n == 0 {
    } else {
      FirstHistories(an, p0s, at, n - 1);
      WeighNothing(1.0, p0s[n - 1], Alternative(p0s[n - 1], an.metrics[n - 1]));
    }
  }

  lemma RolloutPrice(an: Analysis, p0s: seq<Rate>, c: Course, at: Progress)
    requires an.DistinctNames() && |p0s| == |an.metrics| && RolloutBegins(an, at)
    requires Steady(an, p0s, c) && NeverWorse(an, p0s, c)
    ensures RollbackToll(an, p0s, c, at, an.Limits().upper) <= |an.metrics| as real
    ensures Priced(an.Limits().upper, RollbackToll(an, p0s, c, at, 1.0), RollbackToll(an, p0s, c, at, an.Limits().upper))
  {
    forall k | 0 <= k < |an.metrics|
      ensures Recounts(p0s[k], an.metrics[k], Before(an, at.states, k), at.served[k])
    {
      FreshRecounts(p0s[k], an.metrics[k], at.served[k]);
    }
    FirstHistories(an, p0s, at, |an.metrics|);
    TollCovered(an, p0s, c, at);
    TollOfChance(an, p0s, c, at, an.Limits().upper);
  }

  /** A canary that is never worse than stable is rolled back at all, in any step and by any metric, with probability at
      most metrics * alpha / (1 - beta). */
  lemma RolloutErrorBound(an: Analysis, p0s: seq<Rate>, c: Course, at: Progress)
    requires an.DistinctNames() && |p0s| == |an.metrics| && RolloutBegins(an, at)
    requires Steady(an, p0s, c) && NeverWorse(an, p0s, c)
    ensures RollbacksWithin(an, RollbackToll(an, p0s, c, at, 1.0), |an.metrics|)
  {
    RolloutPrice(an, p0s, c, at);
    ChanceWithin(an, RollbackToll(an, p0s, c, at, 1.0), RollbackToll(an, p0s, c, at, an.Limits().upper), |an.metrics|);
  }
}
