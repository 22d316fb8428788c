/** Many metrics over many cycles: the multi-metric analyzer is the single-metric machines run side by side. */
module Aggregation {
  import opened Sprt
  import opened MetricRuns

  // What the status holds after a cycle that is not abandoned; an abandoned cycle changes nothing.
  function Accept(an: Analysis, states: seq<MetricState>, readings: seq<Reading>): seq<MetricState> {
    match Cycle(an, states, readings)
    case QueryFailed => states
    case Decided(_, next) => next
  }

  function RunCycles(an: Analysis, rss: seq<seq<Reading>>): seq<MetricState> {
    if rss == [] then []
    else Accept(an, RunCycles(an, rss[..|rss| - 1]), rss[|rss| - 1])
  }

  predicate Answered(an: Analysis, current: seq<MetricState>, readings: seq<Reading>) {
    forall i :: 0 <= i < |an.metrics| ==> After(an, current, readings, i).Some?
  }

  predicate QuietCycle(an: Analysis, current: seq<MetricState>, readings: seq<Reading>) {
    Cycle(an, current, readings).Decided? && Cycle(an, current, readings).decision != RollBack
  }

  // Every cycle was answered and none decided to roll back.
  predicate Quiet(an: Analysis, rss: seq<seq<Reading>>) {
    rss == []
    || (Quiet(an, rss[..|rss| - 1]) && QuietCycle(an, RunCycles(an, rss[..|rss| - 1]), rss[|rss| - 1]))
  }

  lemma OneMoreCycle(an: Analysis, rss: seq<seq<Reading>>, row: seq<Reading>)
    ensures RunCycles(an, rss + [row]) == Accept(an, RunCycles(an, rss), row)
    ensures Quiet(an, rss + [row]) <==> Quiet(an, rss) && QuietCycle(an, RunCycles(an, rss), row)
  {
    assert (rss + [row])[..|rss|] == rss;
  }

  // The readings of metric k, cycle by cycle.
  function Column(rss: seq<seq<Reading>>, k: nat): (rs: seq<Reading>)
    ensures |rs| == |rss|
    ensures forall i :: 0 <= i < |rss| ==> rs[i] == Answer(rss[i], k)
  {
    if rss == [] then [] else Column(rss[..|rss| - 1], k) + [Answer(rss[|rss| - 1], k)]
  }

  // ---------------------------------------------------------------- the meaning of one cycle

  /** Roll back if some metric newly does, promote if every metric has passed, otherwise go on. */
  lemma CycleMeaning(an: Analysis, current: seq<MetricState>, readings: seq<Reading>)
    requires Answered(an, current, readings)
    ensures Cycle(an, current, readings).Decided?
    ensures Cycle(an, current, readings).decision == RollBack
            <==> exists i :: 0 <= i < |an.metrics| && RollsBack(an, current, readings, i)
    ensures Cycle(an, current, readings).decision == PromoteAll
            <==> |an.metrics| > 0
                 && forall i :: 0 <= i < |an.metrics| ==> After(an, current, readings, i).value.verdict == Promote
  {
    var n := |an.metrics|;
    var k := FirstStop(an, current, readings, 0);
    if k < n {
      assert RollsBack(an, current, readings, k);
      assert After(an, current, readings, k).value.verdict == Rollback;
    } else {
      var states := States(an, current, readings, n);
      if forall i :: 0 <= i < n ==> After(an, current, readings, i).value.verdict == Promote {
        assert forall s :: s in states ==> s.verdict == Promote;
      } else {
        var i :| 0 <= i < n && After(an, current, readings, i).value.verdict != Promote;
        assert states[i] in states;
      }
    }
  }

  /** A cycle that decides without rolling back has stepped every metric from its own stored state. */
  lemma QuietCycleSteps(an: Analysis, current: seq<MetricState>, readings: seq<Reading>)
    requires QuietCycle(an, current, readings)
    ensures Answered(an, current, readings)
    ensures var states := Cycle(an, current, readings).states;
      |states| == |an.metrics|
      && forall i :: 0 <= i < |an.metrics| ==> states[i] == After(an, current, readings, i).value
  {
    assert FirstStop(an, current, readings, 0) == |an.metrics|;
  }

  // ---------------------------------------------------------------- independence

  lemma {:induction false} FindNamed(states: seq<MetricState>, k: nat)
    requires k < |states|
    requires forall i :: 0 <= i < k ==> states[i].name != states[k].name
    ensures FindOrInit(states, states[k].name) == states[k]
  {
    if k == 0 {
    } else {
      FindNamed(states[1..], k - 1);
    }
  }

  lemma {:induction false} FindKeepsName(states: seq<MetricState>, name: string)
    ensures FindOrInit(states, name).name == name
  {
    if states == [] {
    } else {
      FindKeepsName(states[1..], name);
    }
  }

  ghost function Alone(an: Analysis, rss: seq<seq<Reading>>, k: nat): MetricState
    requires k < |an.metrics|
  {
    Run(an.Limits(), an.metrics[k], Fresh(an.metrics[k].name), Column(rss, k))
  }

  lemma AloneStep(an: Analysis, rss: seq<seq<Reading>>, row: seq<Reading>, k: nat)
    requires k < |an.metrics|
    ensures Alone(an, rss + [row], k) == Next(an.Limits(), an.metrics[k], Alone(an, rss, k), Answer(row, k))
    ensures Alone(an, rss + [row], k).name == an.metrics[k].name
  {
    assert (rss + [row])[..|rss|] == rss;
    var rs := Column(rss + [row], k);
    assert rs == Column(rss, k) + [Answer(row, k)];
    assert rs[..|rs| - 1] == Column(rss, k);
    RunKeepsName(an.Limits(), an.metrics[k], rs);
  }

  lemma AloneAtStart(an: Analysis, k: nat)
    requires k < |an.metrics|
    ensures Before(an, RunCycles(an, []), k) == Alone(an, [], k)
  {}

  lemma IndependenceStep(an: Analysis, rss: seq<seq<Reading>>, row: seq<Reading>)
    requires an.DistinctNames() && Quiet(an, rss + [row])
    requires forall k :: 0 <= k < |an.metrics| ==> Before(an, RunCycles(an, rss), k) == Alone(an, rss, k)
    ensures |RunCycles(an, rss + [row])| == |an.metrics|
    ensures forall k :: 0 <= k < |an.metrics| ==>
      RunCycles(an, rss + [row])[k] == Alone(an, rss + [row], k)
      && Before(an, RunCycles(an, rss + [row]), k) == Alone(an, rss + [row], k)
  {
    OneMoreCycle(an, rss, row);
    QuietCycleSteps(an, RunCycles(an, rss), row);
    var states := RunCycles(an, rss + [row]);
    forall k | 0 <= k < |an.metrics|
      ensures states[k] == Alone(an, rss + [row], k) && states[k].name == an.metrics[k].name
    {
      AloneStep(an, rss, row, k);
    }
    forall k | 0 <= k < |an.metrics| ensures Before(an, states, k) == states[k] {
      FindNamed(states, k);
    }
  }

  lemma {:induction false} QuietIndependence(an: Analysis, rss: seq<seq<Reading>>)
    requires an.DistinctNames() && Quiet(an, rss)
    ensures forall k :: 0 <= k < |an.metrics| ==> Before(an, RunCycles(an, rss), k) == Alone(an, rss, k)
    ensures rss != [] ==>
      |RunCycles(an, rss)| == |an.metrics|
      && forall k :: 0 <= k < |an.metrics| ==> RunCycles(an, rss)[k] == Alone(an, rss, k)
  {
    if rss == [] {
      forall k | 0 <= k < |an.metrics| ensures Before(an, RunCycles(an, rss), k) == Alone(an, rss, k) {
        AloneAtStart(an, k);
      }
    } else {
      var front, row := rss[..|rss| - 1], rss[|rss| - 1];
      assert rss == front + [row];
      OneMoreCycle(an, front, row);
      QuietIndependence(an, front);
      IndependenceStep(an, front, row);
    }
  }

  // No cycle decided to roll back; some may have been abandoned because a query failed.
  predicate NoneRollsBack(an: Analysis, rss: seq<seq<Reading>>) {
    rss == []
    || (NoneRollsBack(an, rss[..|rss| - 1])
        && var c := Cycle(an, RunCycles(an, rss[..|rss| - 1]), rss[|rss| - 1]);
           c.QueryFailed? || c.decision != RollBack)
  }

  // The cycles that were not abandoned.
  function Kept(an: Analysis, rss: seq<seq<Reading>>): seq<seq<Reading>> {
    if rss == [] then []
    else
      var n := |rss| - 1;
      if Cycle(an, RunCycles(an, rss[..n]), rss[n]).QueryFailed? then Kept(an, rss[..n])
      else Kept(an, rss[..n]) + [rss[n]]
  }

  lemma {:induction false} AbandonedCyclesLeaveNothing(an: Analysis, rss: seq<seq<Reading>>)
    ensures RunCycles(an, Kept(an, rss)) == RunCycles(an, rss)
    ensures NoneRollsBack(an, rss) ==> Quiet(an, Kept(an, rss))
  {
    if rss == [] {
    } else {
      var n := |rss| - 1;
      AbandonedCyclesLeaveNothing(an, rss[..n]);
      OneMoreCycle(an, Kept(an, rss[..n]), rss[n]);
    }
  }

  /** Until the first rollback, the stored state of every metric is what that metric's test would hold had it been run
      alone on its own readings in the cycles that no failed query abandoned. */
  lemma Independence(an: Analysis, rss: seq<seq<Reading>>)
    requires an.DistinctNames() && NoneRollsBack(an, rss)
    ensures forall k :: 0 <= k < |an.metrics| ==> Before(an, RunCycles(an, rss), k) == Alone(an, Kept(an, rss), k)
    ensures Kept(an, rss) != [] ==>
      |RunCycles(an, rss)| == |an.metrics|
      && forall k :: 0 <= k < |an.metrics| ==> RunCycles(an, rss)[k] == Alone(an, Kept(an, rss), k)
  {
    AbandonedCyclesLeaveNothing(an, rss);
    QuietIndependence(an, Kept(an, rss));
  }

  // ---------------------------------------------------------------- order of metrics

  // an2 lists the metrics of an1 in the order p.
  ghost predicate Reordered(an1: Analysis, an2: Analysis, p: seq<nat>) {
    an1.Limits() == an2.Limits()
    && |p| == |an1.metrics| == |an2.metrics|
    && (forall i :: 0 <= i < |p| ==> p[i] < |p| && an2.metrics[i] == an1.metrics[p[i]])
    && (forall j :: 0 <= j < |p| ==> j in p)
  }

  ghost predicate ReorderedReadings(p: seq<nat>, r1: seq<Reading>, r2: seq<Reading>) {
    forall i :: 0 <= i < |p| ==> Answer(r2, i) == Answer(r1, p[i])
  }

  ghost predicate SameSide(an1: Analysis, an2: Analysis, cur1: seq<MetricState>, cur2: seq<MetricState>,
                           r1: seq<Reading>, r2: seq<Reading>, j: nat, i: nat)
    requires j < |an1.metrics| && i < |an2.metrics|
  {
    Before(an2, cur2, i) == Before(an1, cur1, j) && After(an2, cur2, r2, i) == After(an1, cur1, r1, j)
  }

  // Two sides of one cycle, each metric with the same stored state and the same readings on both.
  ghost predicate Mirrored(an1: Analysis, an2: Analysis, p: seq<nat>, cur1: seq<MetricState>, cur2: seq<MetricState>,
                           r1: seq<Reading>, r2: seq<Reading>)
    requires Reordered(an1, an2, p)
  {
    forall i :: 0 <= i < |p| ==> SameSide(an1, an2, cur1, cur2, r1, r2, p[i], i)
  }

  lemma IndexOf(p: seq<nat>, j: nat) returns (i: nat)
    requires j in p
    ensures i < |p| && p[i] == j
  {
    i :| i < |p| && p[i] == j;
  }

  lemma CycleOrder(an1: Analysis, an2: Analysis, p: seq<nat>, cur1: seq<MetricState>, cur2: seq<MetricState>,
                   r1: seq<Reading>, r2: seq<Reading>)
    requires Reordered(an1, an2, p) && Mirrored(an1, an2, p, cur1, cur2, r1, r2)
    requires Answered(an1, cur1, r1)
    ensures Answered(an2, cur2, r2)
    ensures Cycle(an1, cur1, r1).Decided? && Cycle(an2, cur2, r2).Decided?
    ensures Cycle(an1, cur1, r1).decision == Cycle(an2, cur2, r2).decision
  {
    CycleMeaning(an1, cur1, r1);
    CycleMeaning(an2, cur2, r2);
    var c1, c2 := Cycle(an1, cur1, r1).decision, Cycle(an2, cur2, r2).decision;
    if c1 == RollBack {
      var j :| 0 <= j < |p| && RollsBack(an1, cur1, r1, j);
      var i := IndexOf(p, j);
      assert SameSide(an1, an2, cur1, cur2, r1, r2, p[i], i);
      assert RollsBack(an2, cur2, r2, i);
    } else if c2 == RollBack {
      var i :| 0 <= i < |p| && RollsBack(an2, cur2, r2, i);
      assert SameSide(an1, an2, cur1, cur2, r1, r2, p[i], i);
      assert RollsBack(an1, cur1, r1, p[i]);
    } else if c2 == PromoteAll {
      forall j | 0 <= j < |p| ensures After(an1, cur1, r1, j).value.verdict == Promote {
        var i := IndexOf(p, j);
        assert SameSide(an1, an2, cur1, cur2, r1, r2, p[i], i);
      }
    }
  }

  // Metric j of an1 and metric i of an2 are the same metric, fed the same readings.
  lemma SameMetric(an1: Analysis, an2: Analysis, rss1: seq<seq<Reading>>, rss2: seq<seq<Reading>>,
                   r1: seq<Reading>, r2: seq<Reading>, j: nat, i: nat)
    requires an1.DistinctNames() && an2.DistinctNames() && Quiet(an1, rss1) && Quiet(an2, rss2)
    requires j < |an1.metrics| && i < |an2.metrics| && an2.metrics[i] == an1.metrics[j]
    requires an1.Limits() == an2.Limits() && Column(rss2, i) == Column(rss1, j) && Answer(r2, i) == Answer(r1, j)
    ensures SameSide(an1, an2, RunCycles(an1, rss1), RunCycles(an2, rss2), r1, r2, j, i)
  {
    QuietIndependence(an1, rss1);
    QuietIndependence(an2, rss2);
    assert Alone(an2, rss2, i) == Alone(an1, rss1, j);
  }

  lemma MirroredRuns(an1: Analysis, an2: Analysis, p: seq<nat>, rss1: seq<seq<Reading>>, rss2: seq<seq<Reading>>,
                     r1: seq<Reading>, r2: seq<Reading>)
    requires an1.DistinctNames() && an2.DistinctNames() && Reordered(an1, an2, p)
    requires |rss1| == |rss2|
    requires forall i :: 0 <= i < |rss1| ==> ReorderedReadings(p, rss1[i], rss2[i])
    requires ReorderedReadings(p, r1, r2)
    requires Quiet(an1, rss1) && Quiet(an2, rss2)
    ensures Mirrored(an1, an2, p, RunCycles(an1, rss1), RunCycles(an2, rss2), r1, r2)
  {
    var cur1, cur2 := RunCycles(an1, rss1), RunCycles(an2, rss2);
    forall i | 0 <= i < |p|
      ensures SameSide(an1, an2, cur1, cur2, r1, r2, p[i], i)
    {
      assert Column(rss2, i) == Column(rss1, p[i]);
      SameMetric(an1, an2, rss1, rss2, r1, r2, p[i], i);
    }
  }

  /** With every query answered, no order of the metrics changes what any cycle decides. */
  lemma {:induction false} OrderIrrelevant(an1: Analysis, an2: Analysis, p: seq<nat>,
                                           rss1: seq<seq<Reading>>, rss2: seq<seq<Reading>>,
                                           r1: seq<Reading>, r2: seq<Reading>)
    requires an1.DistinctNames() && an2.DistinctNames() && Reordered(an1, an2, p)
    requires |rss1| == |rss2|
    requires forall i :: 0 <= i < |rss1| ==> ReorderedReadings(p, rss1[i], rss2[i])
    requires ReorderedReadings(p, r1, r2)
    requires Quiet(an1, rss1) && Answered(an1, RunCycles(an1, rss1), r1)
    ensures Quiet(an2, rss2) && Answered(an2, RunCycles(an2, rss2), r2)
    ensures Cycle(an1, RunCycles(an1, rss1), r1).Decided? && Cycle(an2, RunCycles(an2, rss2), r2).Decided?
    ensures Cycle(an1, RunCycles(an1, rss1), r1).decision == Cycle(an2, RunCycles(an2, rss2), r2).decision
    decreases |rss1|
  {
    if rss1 == [] {
    } else {
      var n := |rss1| - 1;
      QuietCycleSteps(an1, RunCycles(an1, rss1[..n]), rss1[n]);
      OrderIrrelevant(an1, an2, p, rss1[..n], rss2[..n], rss1[n], rss2[n]);
    }
    MirroredRuns(an1, an2, p, rss1, rss2, r1, r2);
    CycleOrder(an1, an2, p, RunCycles(an1, rss1), RunCycles(an2, rss2), r1, r2);
  }
}
