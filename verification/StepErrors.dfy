/** False rollbacks of a whole step: several metrics side by side, with counters that may restart.

    What can happen is a finite tree: requests that fail or succeed, each counted by one metric, and polls, at which
    the analyzer runs one cycle over all metrics. The chance that a request fails may depend on everything before it,
    so the metrics may depend on each other in any way. */
module StepErrors {
  import opened Wrappers
  import opened Scaling
  import opened Sprt
  import opened MetricRuns
  import opened Aggregation
  import opened WaldBounds

  // What a metric has seen since the last poll, and the stable counters the next one will show.
  datatype RawTally = Tally(failures: nat, served: Batch)
  type Tally = t: RawTally | t.failures <= t.served.requests witness Tally(0, Batch(0, 0, 1))

  datatype Situation = Situation(states: seq<MetricState>, tallies: seq<Tally>)

  // What a poll shows of a metric: its counters moved on by what was served, counters restarted since, or nothing.
  datatype Show = Moved | Restarted(total: nat, failure: nat) | NoData

  datatype Traffic =
    | End
    | Request(metric: nat, chance: Chance, failed: Traffic, succeeded: Traffic)
    | Analyse(shows: seq<Show>, stable: seq<Batch>, next: Traffic)

  // ---------------------------------------------------------------- one poll, one request

  function Rates(an: Analysis, sit: Situation, k: nat): (Rate, Rate)
    requires k < |an.metrics| && k < |sit.tallies|
  {
    var p0 := BatchRate(sit.tallies[k].served);
    (p0, Alternative(p0, an.metrics[k]))
  }

  function ShowOf(shows: seq<Show>, k: nat): Show {
    if k < |shows| then shows[k] else Moved
  }

  function Shown(an: Analysis, sit: Situation, shows: seq<Show>, k: nat): (r: Reading)
    requires k < |an.metrics| && k < |sit.tallies|
    ensures r.Sampled? && (r.Usable() <==> !ShowOf(shows, k).NoData?)
  {
    var c := sit.tallies[k].served;
    match ShowOf(shows, k)
    case Moved => Poll(Before(an, sit.states, k), c, sit.tallies[k].failures)
    case Restarted(total, failure) => Sampled(Some(total), Some(failure), Some(c.stableTotal), Some(c.stableFailure))
    case NoData => Sampled(None, None, None, None)
  }

  function AllShown(an: Analysis, sit: Situation, shows: seq<Show>, n: nat): (rs: seq<Reading>)
    requires n <= |an.metrics| && n <= |sit.tallies|
    ensures |rs| == n && forall k :: 0 <= k < n ==> rs[k] == Shown(an, sit, shows, k)
  {
    if n == 0 then [] else AllShown(an, sit, shows, n - 1) + [Shown(an, sit, shows, n - 1)]
  }

  function Outcome(an: Analysis, sit: Situation, shows: seq<Show>): CycleOutcome
    requires |sit.tallies| == |an.metrics|
  {
    Cycle(an, sit.states, AllShown(an, sit, shows, |an.metrics|))
  }

  // A metric without data keeps its tally; any other starts a new one.
  function Tallied(sit: Situation, shows: seq<Show>, stable: seq<Batch>, n: nat): (ts: seq<Tally>)
    requires n <= |sit.tallies| && n <= |stable|
    ensures |ts| == n
    ensures forall k :: 0 <= k < n ==>
      ts[k] == (if ShowOf(shows, k).NoData? then sit.tallies[k]
                else Tally(0, Batch(0, stable[k].stableFailure, stable[k].stableTotal)))
  {
    if n == 0 then []
    else
      Tallied(sit, shows, stable, n - 1)
      + [if ShowOf(shows, n - 1).NoData? then sit.tallies[n - 1]
         else Tally(0, Batch(0, stable[n - 1].stableFailure, stable[n - 1].stableTotal))]
  }

  function Polled(an: Analysis, sit: Situation, shows: seq<Show>, stable: seq<Batch>): Situation
    requires |sit.tallies| == |an.metrics| == |stable| && Outcome(an, sit, shows).Decided?
  {
    Situation(Outcome(an, sit, shows).states, Tallied(sit, shows, stable, |stable|))
  }

  function Counted(t: Tally, failures: nat): Tally
    requires failures <= 1
  {
    Tally(t.failures + failures, t.served.(requests := t.served.requests + 1))
  }

  function AfterRequest(sit: Situation, k: nat, failures: nat): Situation
    requires k < |sit.tallies| && failures <= 1
  {
    sit.(tallies := sit.tallies[k := Counted(sit.tallies[k], failures)])
  }

  // ---------------------------------------------------------------- the chance of a rollback

  predicate Decides(an: Analysis, sit: Situation, shows: seq<Show>, goal: Decision)
    requires |sit.tallies| == |an.metrics|
  {
    Outcome(an, sit, shows).Decided? && Outcome(an, sit, shows).decision == goal
  }

  // The cycle is not the last of the step: it decides, and not to roll back.
  predicate GoesOn(an: Analysis, sit: Situation, shows: seq<Show>)
    requires |sit.tallies| == |an.metrics|
  {
    Outcome(an, sit, shows).Decided? && Outcome(an, sit, shows).decision != RollBack
  }

  predicate RestartsShow(an: Analysis, sit: Situation, shows: seq<Show>)
    requires |sit.tallies| == |an.metrics|
  {
    forall k :: 0 <= k < |an.metrics| && ShowOf(shows, k).Restarted? ==>
      IsReset(Before(an, sit.states, k), Shown(an, sit, shows, k))
  }

  // Requests go to metrics that exist, and a restarted counter shows.
  ghost predicate Formed(an: Analysis, t: Traffic, sit: Situation)
    requires |sit.tallies| == |an.metrics|
  {
    match t
    case End => true
    case Request(k, _, failed, succeeded) =>
      k < |an.metrics| && Formed(an, failed, AfterRequest(sit, k, 1)) && Formed(an, succeeded, AfterRequest(sit, k, 0))
    case Analyse(shows, stable, next) =>
      |stable| == |an.metrics| && RestartsShow(an, sit, shows)
      && (GoesOn(an, sit, shows) ==> Formed(an, next, Polled(an, sit, shows, stable)))
  }

  /** What is assumed of the canary. Harmless: no request is likelier to fail than its metric's stable rate, where the
      alternative is a degradation. Harmful: no request of the metric is less likely to fail than its alternative. */
  datatype Canary = Harmless | Harmful(metric: nat)

  predicate Tends(an: Analysis, sit: Situation, k: nat, p: Chance, canary: Canary)
    requires k < |an.metrics| && k < |sit.tallies|
  {
    match canary
    case Harmless => Leans(p, Rates(an, sit, k).0, Rates(an, sit, k).1)
    case Harmful(j) => k == j ==> Leans(p, Rates(an, sit, k).1, Rates(an, sit, k).0)
  }

  ghost predicate Fits(an: Analysis, t: Traffic, sit: Situation, canary: Canary)
    requires |sit.tallies| == |an.metrics| && Formed(an, t, sit)
  {
    match t
    case End => true
    case Request(k, p, failed, succeeded) =>
      Tends(an, sit, k, p, canary)
      && Fits(an, failed, AfterRequest(sit, k, 1), canary) && Fits(an, succeeded, AfterRequest(sit, k, 0), canary)
    case Analyse(shows, stable, next) =>
      GoesOn(an, sit, shows) ==> Fits(an, next, Polled(an, sit, shows, stable), canary)
  }

  // The expected cost, when the first cycle that decides `goal` costs `price`; a rollback ends the step.
  ghost function Cost(an: Analysis, t: Traffic, sit: Situation, goal: Decision, price: real): real
    requires |sit.tallies| == |an.metrics| && Formed(an, t, sit)
  {
    match t
    case End => 0.0
    case Request(k, p, failed, succeeded) =>
      Mix(p, Cost(an, failed, AfterRequest(sit, k, 1), goal, price), Cost(an, succeeded, AfterRequest(sit, k, 0), goal, price))
    case Analyse(shows, stable, next) =>
      if Decides(an, sit, shows, goal) then price
      else if !GoesOn(an, sit, shows) then 0.0
      else Cost(an, next, Polled(an, sit, shows, stable), goal, price)
  }

  // The probability that some cycle decides `goal`.
  ghost function ChanceOf(an: Analysis, t: Traffic, sit: Situation, goal: Decision): real
    requires |sit.tallies| == |an.metrics| && Formed(an, t, sit)
  {
    Cost(an, t, sit, goal, 1.0)
  }

  function CountRestarts(shows: seq<Show>, n: nat): nat {
    if n == 0 then 0 else CountRestarts(shows, n - 1) + (if ShowOf(shows, n - 1).Restarted? then 1 else 0)
  }

  // The most counter restarts that any course of events brings.
  function Restarts(an: Analysis, t: Traffic): nat {
    match t
    case End => 0
    case Request(_, _, failed, succeeded) =>
      if Restarts(an, failed) > Restarts(an, succeeded) then Restarts(an, failed) else Restarts(an, succeeded)
    case Analyse(shows, _, next) => CountRestarts(shows, |an.metrics|) + Restarts(an, next)
  }

  // ---------------------------------------------------------------- the stakes

  // The ratio metric k would have if it were polled now.
  function Stake(an: Analysis, sit: Situation, k: nat): real
    requires k < |an.metrics| && k < |sit.tallies|
  {
    var s, t := Before(an, sit.states, k), sit.tallies[k];
    if s.verdict != Pending then s.ratio
    else Weigh(s.ratio, Rates(an, sit, k).0, Rates(an, sit, k).1, t.failures, t.served.requests)
  }

  function Stakes(an: Analysis, sit: Situation, n: nat): real
    requires n <= |an.metrics| && n <= |sit.tallies|
  {
    if n == 0 then 0.0 else Stakes(an, sit, n - 1) + Stake(an, sit, n - 1)
  }

  ghost predicate Sound(an: Analysis, sit: Situation) {
    |sit.tallies| == |an.metrics| && forall k :: 0 <= k < |an.metrics| ==> Before(an, sit.states, k).ratio > 0.0
  }

  lemma StakePositive(an: Analysis, sit: Situation, k: nat)
    requires Sound(an, sit) && k < |an.metrics|
    ensures Stake(an, sit, k) > 0.0
  {
    var s, t := Before(an, sit.states, k), sit.tallies[k];
    WeighPositive(s.ratio, Rates(an, sit, k).0, Rates(an, sit, k).1, t.failures, t.served.requests);
  }

  lemma {:induction false} StakesCover(an: Analysis, sit: Situation, k: nat, n: nat)
    requires Sound(an, sit) && n <= |an.metrics|
    ensures Stakes(an, sit, n) >= 0.0 && (k < n ==> Stakes(an, sit, n) >= Stake(an, sit, k))
  {
    if n == 0 {
    } else {
      StakesCover(an, sit, k, n - 1);
      StakePositive(an, sit, n - 1);
    }
  }

  // A change of one metric's stake changes the sum by as much.
  lemma {:induction false} StakesShift(an: Analysis, sit: Situation, sit': Situation, k: nat, n: nat)
    requires |sit.tallies| == |sit'.tallies| == |an.metrics| && k < |an.metrics| && n <= |an.metrics|
    requires forall j :: 0 <= j < |an.metrics| && j != k ==> Stake(an, sit', j) == Stake(an, sit, j)
    ensures Stakes(an, sit', n)
            == Stakes(an, sit, n) + (if k < n then Stake(an, sit', k) - Stake(an, sit, k) else 0.0)
  {
    if n == 0 {
    } else {
      StakesShift(an, sit, sit', k, n - 1);
    }
  }

  // ---------------------------------------------------------------- a request does not raise the stakes on average

  lemma ServedStakes(an: Analysis, sit: Situation, k: nat, failures: nat)
    requires Sound(an, sit) && k < |an.metrics| && failures <= 1
    ensures Sound(an, AfterRequest(sit, k, failures))
    ensures forall j :: 0 <= j < |an.metrics| && j != k ==> Stake(an, AfterRequest(sit, k, failures), j) == Stake(an, sit, j)
    ensures Rates(an, AfterRequest(sit, k, failures), k) == Rates(an, sit, k)
  {
    forall j | 0 <= j < |an.metrics|
      ensures Before(an, AfterRequest(sit, k, failures).states, j) == Before(an, sit.states, j)
    {}
  }

  lemma AverageBelow(p: Chance, x: real, q: real, w: real)
    requires w > 0.0 && Mix(p, x, q) <= 1.0
    ensures Mix(p, x * w, q * w) <= w
  {
    MixScale(p, w, x, q);
    MulMono(w, Mix(p, x, q), 1.0);
  }

  // A failure takes w to wf, a success takes it to ws; and back.
  ghost predicate Moves(p0: Rate, p1: Rate, w: real, wf: real, ws: real) {
    wf == FailureFactor(p0, p1) * w && ws == SuccessFactor(p0, p1) * w
    && FailureFactor(p1, p0) * wf == w && SuccessFactor(p1, p0) * ws == w
  }

  lemma MovesDrift(p: Chance, p0: Rate, p1: Rate, w: real, wf: real, ws: real)
    requires Moves(p0, p1, w, wf, ws) && Leans(p, p0, p1) && w > 0.0
    ensures Mix(p, wf, ws) <= w
  {
    NoDrift(p, p0, p1);
    AverageBelow(p, FailureFactor(p0, p1), SuccessFactor(p0, p1), w);
  }

  lemma WeighMoves(ratio: real, p0: Rate, p1: Rate, failures: nat, total: nat)
    requires failures <= total
    ensures Moves(p0, p1, Weigh(ratio, p0, p1, failures, total), Weigh(ratio, p0, p1, failures + 1, total + 1),
                  Weigh(ratio, p0, p1, failures, total + 1))
  {
    WeighFailure(ratio, p0, p1, failures, total);
    WeighSuccess(ratio, p0, p1, failures, total);
    WeighBack(ratio, p0, p1, failures, total);
  }

  // One request more, and the same taken back, in the stake of its metric.
  lemma RequestStake(an: Analysis, sit: Situation, k: nat)
    requires Sound(an, sit) && k < |an.metrics| && Before(an, sit.states, k).verdict == Pending
    ensures Moves(Rates(an, sit, k).0, Rates(an, sit, k).1, Stake(an, sit, k),
                  Stake(an, AfterRequest(sit, k, 1), k), Stake(an, AfterRequest(sit, k, 0), k))
  {
    var s, t := Before(an, sit.states, k), sit.tallies[k];
    var (p0, p1) := Rates(an, sit, k);
    ServedStakes(an, sit, k, 0);
    ServedStakes(an, sit, k, 1);
    WeighMoves(s.ratio, p0, p1, t.failures, t.served.requests);
  }

  lemma DecidedStake(an: Analysis, sit: Situation, k: nat, failures: nat)
    requires Sound(an, sit) && k < |an.metrics| && Before(an, sit.states, k).verdict != Pending && failures <= 1
    ensures Stake(an, AfterRequest(sit, k, failures), k) == Stake(an, sit, k)
  {
    ServedStakes(an, sit, k, failures);
  }

  lemma StakeDrifts(an: Analysis, sit: Situation, k: nat, p: Chance)
    requires Sound(an, sit) && k < |an.metrics| && Leans(p, Rates(an, sit, k).0, Rates(an, sit, k).1)
    ensures Mix(p, Stake(an, AfterRequest(sit, k, 1), k), Stake(an, AfterRequest(sit, k, 0), k)) <= Stake(an, sit, k)
  {
    if Before(an, sit.states, k).verdict == Pending {
      StakePositive(an, sit, k);
      RequestStake(an, sit, k);
      MovesDrift(p, Rates(an, sit, k).0, Rates(an, sit, k).1, Stake(an, sit, k),
                 Stake(an, AfterRequest(sit, k, 1), k), Stake(an, AfterRequest(sit, k, 0), k));
    } else {
      DecidedStake(an, sit, k, 0);
      DecidedStake(an, sit, k, 1);
      MixConstant(p, Stake(an, sit, k));
    }
  }

  lemma ShiftedMix(p: Chance, rest: real, f: real, s: real)
    ensures Mix(p, rest + f, rest + s) == rest + Mix(p, f, s)
  {}

  lemma StakesDrift(an: Analysis, sit: Situation, k: nat, p: Chance)
    requires Sound(an, sit) && k < |an.metrics| && Leans(p, Rates(an, sit, k).0, Rates(an, sit, k).1)
    ensures Sound(an, AfterRequest(sit, k, 1)) && Sound(an, AfterRequest(sit, k, 0))
    ensures var n := |an.metrics|;
      Mix(p, Stakes(an, AfterRequest(sit, k, 1), n), Stakes(an, AfterRequest(sit, k, 0), n)) <= Stakes(an, sit, n)
  {
    ServedStakes(an, sit, k, 0);
    ServedStakes(an, sit, k, 1);
    StakesShift(an, sit, AfterRequest(sit, k, 1), k, |an.metrics|);
    StakesShift(an, sit, AfterRequest(sit, k, 0), k, |an.metrics|);
    StakeDrifts(an, sit, k, p);
    ShiftedMix(p, Stakes(an, sit, |an.metrics|) - Stake(an, sit, k),
               Stake(an, AfterRequest(sit, k, 1), k), Stake(an, AfterRequest(sit, k, 0), k));
  }

  // ---------------------------------------------------------------- a poll raises them by its restarts at most

  lemma ShownAnswers(an: Analysis, sit: Situation, shows: seq<Show>, k: nat)
    requires Sound(an, sit) && k < |an.metrics|
    ensures Answer(AllShown(an, sit, shows, |an.metrics|), k) == Shown(an, sit, shows, k)
    ensures var s := Before(an, sit.states, k);
      After(an, sit.states, AllShown(an, sit, shows, |an.metrics|), k)
      == StepMetric(an.Limits(), an.metrics[k], s, Shown(an, sit, shows, k))
  {}

  lemma SteppedStake(an: Analysis, sit: Situation, shows: seq<Show>, k: nat)
    requires Sound(an, sit) && k < |an.metrics| && RestartsShow(an, sit, shows)
    ensures var s, after := Before(an, sit.states, k), After(an, sit.states, AllShown(an, sit, shows, |an.metrics|), k);
      after.Some? && after.value.name == an.metrics[k].name
      && (s.verdict != Pending || ShowOf(shows, k).NoData? ==> after.value == s)
      && (s.verdict == Pending && ShowOf(shows, k).Restarted? ==>
            after.value.ratio == 1.0 && after.value.verdict == Pending)
      && (s.verdict == Pending && ShowOf(shows, k).Moved? ==>
            after.value.ratio == Stake(an, sit, k) && after.value.verdict == Judge(an.Limits(), after.value.ratio))
  {
    ShownAnswers(an, sit, shows, k);
    FindKeepsName(sit.states, an.metrics[k].name);
    var s := Before(an, sit.states, k);
    if s.verdict == Pending && ShowOf(shows, k).Moved? {
      NextForward(an.Limits(), an.metrics[k], s, Shown(an, sit, shows, k));
    }
  }

  // The stake of a metric after a poll that does not roll back.
  lemma PolledStake(an: Analysis, sit: Situation, shows: seq<Show>, stable: seq<Batch>, k: nat)
    requires an.DistinctNames() && Sound(an, sit) && RestartsShow(an, sit, shows) && |stable| == |an.metrics|
    requires GoesOn(an, sit, shows) && k < |an.metrics|
    ensures var sit', s := Polled(an, sit, shows, stable), Before(an, sit.states, k);
      Before(an, sit'.states, k) == After(an, sit.states, AllShown(an, sit, shows, |an.metrics|), k).value
      && Before(an, sit'.states, k).ratio > 0.0
      && Stake(an, sit', k)
         == (if s.verdict == Pending && ShowOf(shows, k).Restarted? then 1.0 else Stake(an, sit, k))
  {
    var rs, sit' := AllShown(an, sit, shows, |an.metrics|), Polled(an, sit, shows, stable);
    QuietCycleSteps(an, sit.states, rs);
    forall j | 0 <= j < |an.metrics| ensures sit'.states[j].name == an.metrics[j].name {
      SteppedStake(an, sit, shows, j);
    }
    FindNamed(sit'.states, k);
    SteppedStake(an, sit, shows, k);
    StakePositive(an, sit, k);
    if !ShowOf(shows, k).NoData? {
      WeighNothing(sit'.states[k].ratio, Rates(an, sit', k).0, Rates(an, sit', k).1);
    }
  }

  lemma PolledStakes(an: Analysis, sit: Situation, shows: seq<Show>, stable: seq<Batch>)
    requires an.DistinctNames() && Sound(an, sit) && RestartsShow(an, sit, shows) && |stable| == |an.metrics|
    requires GoesOn(an, sit, shows)
    ensures var sit' := Polled(an, sit, shows, stable);
      Sound(an, sit')
      && forall k :: 0 <= k < |an.metrics| ==>
           Stake(an, sit', k) <= Stake(an, sit, k) + (if ShowOf(shows, k).Restarted? then 1.0 else 0.0)
  {
    forall k | 0 <= k < |an.metrics|
      ensures Before(an, Polled(an, sit, shows, stable).states, k).ratio > 0.0
      ensures Stake(an, Polled(an, sit, shows, stable), k)
              <= Stake(an, sit, k) + (if ShowOf(shows, k).Restarted? then 1.0 else 0.0)
    {
      PolledStake(an, sit, shows, stable, k);
      StakePositive(an, sit, k);
    }
  }

  lemma {:induction false} StakesRise(an: Analysis, sit: Situation, sit': Situation, shows: seq<Show>, n: nat)
    requires |sit.tallies| == |sit'.tallies| == |an.metrics| && n <= |an.metrics|
    requires forall k :: 0 <= k < |an.metrics| ==>
      Stake(an, sit', k) <= Stake(an, sit, k) + (if ShowOf(shows, k).Restarted? then 1.0 else 0.0)
    ensures Stakes(an, sit', n) <= Stakes(an, sit, n) + CountRestarts(shows, n) as real
  {
    if n == 0 {
    } else {
      StakesRise(an, sit, sit', shows, n - 1);
    }
  }

  lemma RollbackStakes(an: Analysis, sit: Situation, shows: seq<Show>)
    requires Sound(an, sit) && RestartsShow(an, sit, shows) && Decides(an, sit, shows, RollBack)
    ensures Stakes(an, sit, |an.metrics|) >= an.Limits().upper
  {
    var rs := AllShown(an, sit, shows, |an.metrics|);
    var k := FirstStop(an, sit.states, rs, 0);
    SteppedStake(an, sit, shows, k);
    StakesCover(an, sit, k, |an.metrics|);
  }

  // ---------------------------------------------------------------- cost and chance

  ghost predicate Priced(price: real, chance: real, cost: real) {
    cost == price * chance
  }

  lemma PricedMix(p: Chance, price: real, f: real, s: real, uf: real, us: real)
    requires Priced(price, f, uf) && Priced(price, s, us)
    ensures Priced(price, Mix(p, f, s), Mix(p, uf, us))
  {
    MixScale(p, price, f, s);
  }

  lemma PricedZero(price: real)
    ensures Priced(price, 0.0, 0.0) && Priced(price, 1.0, price)
  {}

  /** The cost is the price times the chance. */
  lemma {:induction false} CostOfChance(an: Analysis, t: Traffic, sit: Situation, goal: Decision, price: real)
    requires |sit.tallies| == |an.metrics| && Formed(an, t, sit)
    ensures Priced(price, Cost(an, t, sit, goal, 1.0), Cost(an, t, sit, goal, price))
    decreases t
  {
    PricedZero(price);
    match t
    case End =>
    case Request(k, p, failed, succeeded) =>
      CostOfChance(an, failed, AfterRequest(sit, k, 1), goal, price);
      CostOfChance(an, succeeded, AfterRequest(sit, k, 0), goal, price);
      PricedMix(p, price,
        Cost(an, failed, AfterRequest(sit, k, 1), goal, 1.0), Cost(an, succeeded, AfterRequest(sit, k, 0), goal, 1.0),
        Cost(an, failed, AfterRequest(sit, k, 1), goal, price), Cost(an, succeeded, AfterRequest(sit, k, 0), goal, price));
    case Analyse(shows, stable, next) =>
      if GoesOn(an, sit, shows) && !Decides(an, sit, shows, goal) {
        CostOfChance(an, next, Polled(an, sit, shows, stable), goal, price);
      }
  }

  lemma CoveredMix(p: Chance, f: real, s: real, wf: real, ws: real, w: real, rf: real, rs: real, r: real)
    requires f <= wf + rf && s <= ws + rs && Mix(p, wf, ws) <= w && rf <= r && rs <= r
    ensures Mix(p, f, s) <= w + r
  {
    MixOrder(p, f, r + wf, s, r + ws);
    ShiftedMix(p, r, wf, ws);
  }

  // No states stored yet, and nothing counted.
  ghost predicate StepBegins(an: Analysis, sit: Situation) {
    sit.states == [] && |sit.tallies| == |an.metrics|
    && forall k :: 0 <= k < |sit.tallies| ==> sit.tallies[k].failures == 0 && sit.tallies[k].served.requests == 0
  }

  lemma FreshStake(an: Analysis, sit: Situation, k: nat)
    requires StepBegins(an, sit) && k < |an.metrics|
    ensures Stake(an, sit, k) == 1.0 && Before(an, sit.states, k) == Fresh(an.metrics[k].name)
  {
    WeighNothing(1.0, Rates(an, sit, k).0, Rates(an, sit, k).1);
  }

  lemma ScaledBound(n: real, d: real, q: real, x: real, qx: real, limit: real)
    requires n > 0.0 && d > 0.0 && q == n / d && qx == q * x && qx <= limit
    ensures x <= limit * (d / n)
  {
    ClearDenominator(n, d, q, x, limit);
    var g := d / n;
    assert g * n == d;
    SignOfFactor(limit * g - x, n, limit * d - n * x);
  }

  // ---------------------------------------------------------------- false rollbacks

  ghost predicate CoveredByStakes(an: Analysis, t: Traffic, sit: Situation)
    requires |sit.tallies| == |an.metrics| && Formed(an, t, sit)
  {
    Cost(an, t, sit, RollBack, an.Limits().upper) <= Stakes(an, sit, |an.metrics|) + Restarts(an, t) as real
  }

  lemma RequestCovered(an: Analysis, t: Traffic, sit: Situation)
    requires Sound(an, sit) && t.Request? && Formed(an, t, sit) && Fits(an, t, sit, Harmless)
    requires CoveredByStakes(an, t.failed, AfterRequest(sit, t.metric, 1))
    requires CoveredByStakes(an, t.succeeded, AfterRequest(sit, t.metric, 0))
    ensures CoveredByStakes(an, t, sit)
  {
    var n, u, f, s := |an.metrics|, an.Limits().upper, AfterRequest(sit, t.metric, 1), AfterRequest(sit, t.metric, 0);
    StakesDrift(an, sit, t.metric, t.chance);
    CoveredMix(t.chance, Cost(an, t.failed, f, RollBack, u), Cost(an, t.succeeded, s, RollBack, u),
      Stakes(an, f, n), Stakes(an, s, n), Stakes(an, sit, n),
      Restarts(an, t.failed) as real, Restarts(an, t.succeeded) as real, Restarts(an, t) as real);
  }

  lemma CycleCovered(an: Analysis, t: Traffic, sit: Situation)
    requires an.DistinctNames() && Sound(an, sit) && t.Analyse? && Formed(an, t, sit)
    requires GoesOn(an, sit, t.shows) ==> CoveredByStakes(an, t.next, Polled(an, sit, t.shows, t.stable))
    ensures CoveredByStakes(an, t, sit)
  {
    StakesCover(an, sit, 0, |an.metrics|);
    if Decides(an, sit, t.shows, RollBack) {
      RollbackStakes(an, sit, t.shows);
    } else if GoesOn(an, sit, t.shows) {
      PolledStakes(an, sit, t.shows, t.stable);
      StakesRise(an, sit, Polled(an, sit, t.shows, t.stable), t.shows, |an.metrics|);
    }
  }

  /** The stakes are a supermartingale up to restarts: with what restarts can still add, they cover the cost of a
      rollback at a price of `upper`. */
  lemma {:induction false} RollbackCovered(an: Analysis, t: Traffic, sit: Situation)
    requires an.DistinctNames() && Sound(an, sit) && Formed(an, t, sit) && Fits(an, t, sit, Harmless)
    ensures CoveredByStakes(an, t, sit)
    decreases t
  {
    match t
    case End =>
      StakesCover(an, sit, 0, |an.metrics|);
    case Request(k, p, failed, succeeded) =>
      StakesDrift(an, sit, k, p);
      RollbackCovered(an, failed, AfterRequest(sit, k, 1));
      RollbackCovered(an, succeeded, AfterRequest(sit, k, 0));
      RequestCovered(an, t, sit);
    case Analyse(shows, stable, next) =>
      if GoesOn(an, sit, shows) {
        PolledStakes(an, sit, shows, stable);
        RollbackCovered(an, next, Polled(an, sit, shows, stable));
      }
      CycleCovered(an, t, sit);
  }

  lemma {:induction false} FreshStakes(an: Analysis, sit: Situation, n: nat)
    requires StepBegins(an, sit) && n <= |an.metrics|
    ensures Sound(an, sit) && Stakes(an, sit, n) == n as real
  {
    if n == 0 {
    } else {
      FreshStakes(an, sit, n - 1);
      FreshStake(an, sit, n - 1);
    }
  }

  lemma RollbackPrice(an: Analysis, t: Traffic, sit: Situation)
    requires an.DistinctNames() && StepBegins(an, sit) && Formed(an, t, sit) && Fits(an, t, sit, Harmless)
    ensures Cost(an, t, sit, RollBack, an.Limits().upper) <= (|an.metrics| + Restarts(an, t)) as real
    ensures Priced(an.Limits().upper, ChanceOf(an, t, sit, RollBack), Cost(an, t, sit, RollBack, an.Limits().upper))
  {
    FreshStakes(an, sit, |an.metrics|);
    RollbackCovered(an, t, sit);
    CostOfChance(an, t, sit, RollBack, an.Limits().upper);
  }

  // `count` times Wald's bound on a false rollback in one test.
  ghost predicate RollbacksWithin(an: Analysis, chance: real, count: nat) {
    chance <= count as real * (an.alpha / (1.0 - an.beta))
  }

  lemma ChanceWithin(an: Analysis, chance: real, cost: real, count: nat)
    requires Priced(an.Limits().upper, chance, cost) && cost <= count as real
    ensures RollbacksWithin(an, chance, count)
  {
    ScaledBound(1.0 - an.beta, an.alpha, an.Limits().upper, chance, cost, count as real);
  }

  /** A canary that is never worse than stable is rolled back in a step, by any of its metrics, with probability at most
      (metrics + counter restarts) * alpha / (1 - beta). */
  lemma StepErrorBound(an: Analysis, t: Traffic, sit: Situation)
    requires an.DistinctNames() && StepBegins(an, sit) && Formed(an, t, sit) && Fits(an, t, sit, Harmless)
    ensures RollbacksWithin(an, ChanceOf(an, t, sit, RollBack), |an.metrics| + Restarts(an, t))
  {
    RollbackPrice(an, t, sit);
    ChanceWithin(an, ChanceOf(an, t, sit, RollBack), Cost(an, t, sit, RollBack, an.Limits().upper),
                 |an.metrics| + Restarts(an, t));
  }

  // ---------------------------------------------------------------- missed degradations

  // The inverse of the stake of metric k.
  function Doubt(an: Analysis, sit: Situation, k: nat): real
    requires k < |an.metrics| && k < |sit.tallies| && Stake(an, sit, k) > 0.0
  {
    1.0 / Stake(an, sit, k)
  }

  // A metric that has passed did so at or below the lower bound.
  ghost predicate Founded(an: Analysis, sit: Situation, k: nat) {
    Sound(an, sit) && k < |an.metrics|
    && (Before(an, sit.states, k).verdict == Promote ==> Before(an, sit.states, k).ratio <= an.Limits().lower)
  }

  lemma InverseOf(y: real, w: real, w': real)
    requires y > 0.0 && w > 0.0 && w' > 0.0 && y * w' == w
    ensures 1.0 / w' == y * (1.0 / w)
  {
    var g, g' := 1.0 / w, 1.0 / w';
    assert g * w == 1.0 && g' * w' == 1.0;
    assert (y * g) * w' == g * (y * w');
    SignOfFactor(g' - y * g, w', g' * w' - (y * g) * w');
  }

  lemma InverseAverage(p: Chance, y: real, z: real, w: real, wf: real, ws: real)
    requires y > 0.0 && z > 0.0 && w > 0.0 && wf > 0.0 && ws > 0.0 && y * wf == w && z * ws == w
    requires Mix(p, y, z) <= 1.0
    ensures Mix(p, 1.0 / wf, 1.0 / ws) <= 1.0 / w
  {
    InverseOf(y, w, wf);
    InverseOf(z, w, ws);
    QuotientOrder(1.0, w);
    AverageBelow(p, y, z, 1.0 / w);
  }

  lemma MovesDoubt(p: Chance, p0: Rate, p1: Rate, w: real, wf: real, ws: real)
    requires Moves(p0, p1, w, wf, ws) && Leans(p, p1, p0) && w > 0.0 && wf > 0.0 && ws > 0.0
    ensures Mix(p, 1.0 / wf, 1.0 / ws) <= 1.0 / w
  {
    FactorOrder(p1, p0);
    NoDrift(p, p1, p0);
    InverseAverage(p, FailureFactor(p1, p0), SuccessFactor(p1, p0), w, wf, ws);
  }

  lemma OwnDoubtDrifts(an: Analysis, sit: Situation, k: nat, p: Chance)
    requires Sound(an, sit) && k < |an.metrics| && Leans(p, Rates(an, sit, k).1, Rates(an, sit, k).0)
    requires Stake(an, sit, k) > 0.0 && Stake(an, AfterRequest(sit, k, 1), k) > 0.0 && Stake(an, AfterRequest(sit, k, 0), k) > 0.0
    ensures Mix(p, Doubt(an, AfterRequest(sit, k, 1), k), Doubt(an, AfterRequest(sit, k, 0), k)) <= Doubt(an, sit, k)
  {
    if Before(an, sit.states, k).verdict == Pending {
      RequestStake(an, sit, k);
      MovesDoubt(p, Rates(an, sit, k).0, Rates(an, sit, k).1, Stake(an, sit, k),
                 Stake(an, AfterRequest(sit, k, 1), k), Stake(an, AfterRequest(sit, k, 0), k));
    } else {
      DecidedStake(an, sit, k, 0);
      DecidedStake(an, sit, k, 1);
      MixConstant(p, Doubt(an, sit, k));
    }
  }

  lemma DoubtDrifts(an: Analysis, sit: Situation, k: nat, j: nat, p: Chance)
    requires Sound(an, sit) && j < |an.metrics| && k < |an.metrics| && Tends(an, sit, j, p, Harmful(k))
    ensures Sound(an, AfterRequest(sit, j, 1)) && Sound(an, AfterRequest(sit, j, 0))
    ensures Stake(an, sit, k) > 0.0 && Stake(an, AfterRequest(sit, j, 1), k) > 0.0 && Stake(an, AfterRequest(sit, j, 0), k) > 0.0
    ensures Mix(p, Doubt(an, AfterRequest(sit, j, 1), k), Doubt(an, AfterRequest(sit, j, 0), k)) <= Doubt(an, sit, k)
  {
    ServedStakes(an, sit, j, 0);
    ServedStakes(an, sit, j, 1);
    StakePositive(an, sit, k);
    StakePositive(an, AfterRequest(sit, j, 0), k);
    StakePositive(an, AfterRequest(sit, j, 1), k);
    if j == k {
      OwnDoubtDrifts(an, sit, k, p);
    } else {
      MixConstant(p, Doubt(an, sit, k));
    }
  }

  // The most restarts of metric k that any course of events brings.
  function RestartsOf(t: Traffic, k: nat): nat {
    match t
    case End => 0
    case Request(_, _, failed, succeeded) =>
      if RestartsOf(failed, k) > RestartsOf(succeeded, k) then RestartsOf(failed, k) else RestartsOf(succeeded, k)
    case Analyse(shows, _, next) => (if ShowOf(shows, k).Restarted? then 1 else 0) + RestartsOf(next, k)
  }

  ghost predicate CoveredByDoubt(an: Analysis, t: Traffic, sit: Situation, k: nat)
    requires |sit.tallies| == |an.metrics| && Formed(an, t, sit) && k < |an.metrics| && Stake(an, sit, k) > 0.0
  {
    Cost(an, t, sit, PromoteAll, 1.0 / an.Limits().lower) <= Doubt(an, sit, k) + RestartsOf(t, k) as real
  }

  lemma PolledDoubt(an: Analysis, sit: Situation, shows: seq<Show>, stable: seq<Batch>, k: nat)
    requires an.DistinctNames() && Founded(an, sit, k) && RestartsShow(an, sit, shows) && |stable| == |an.metrics|
    requires GoesOn(an, sit, shows)
    ensures var sit' := Polled(an, sit, shows, stable);
      Founded(an, sit', k) && Stake(an, sit, k) > 0.0 && Stake(an, sit', k) > 0.0
      && Doubt(an, sit', k) <= Doubt(an, sit, k) + (if ShowOf(shows, k).Restarted? then 1.0 else 0.0)
  {
    var sit' := Polled(an, sit, shows, stable);
    PolledStakes(an, sit, shows, stable);
    PolledStake(an, sit, shows, stable, k);
    SteppedStake(an, sit, shows, k);
    StakePositive(an, sit, k);
    StakePositive(an, sit', k);
    QuotientOrder(1.0, Stake(an, sit, k));
  }

  lemma InverseOrder(x: real, y: real)
    requires 0.0 < x <= y
    ensures 1.0 / y <= 1.0 / x
  {
    var g, h := 1.0 / x, 1.0 / y;
    assert g * x == 1.0 && h * y == 1.0;
    QuotientOrder(1.0, y);
    MulMono(h, x, y);
    SignOfFactor(g - h, x, g * x - h * x);
  }

  // A cycle that promotes leaves metric k at or below the lower bound.
  lemma PromotionDoubt(an: Analysis, sit: Situation, shows: seq<Show>, k: nat)
    requires an.DistinctNames() && Founded(an, sit, k) && RestartsShow(an, sit, shows)
    requires Decides(an, sit, shows, PromoteAll)
    ensures Stake(an, sit, k) > 0.0 && Doubt(an, sit, k) >= 1.0 / an.Limits().lower
  {
    var rs := AllShown(an, sit, shows, |an.metrics|);
    QuietCycleSteps(an, sit.states, rs);
    CycleMeaning(an, sit.states, rs);
    SteppedStake(an, sit, shows, k);
    StakePositive(an, sit, k);
    assert After(an, sit.states, rs, k).value.verdict == Promote;
    InverseOrder(Stake(an, sit, k), an.Limits().lower);
  }

  lemma RequestDoubted(an: Analysis, t: Traffic, sit: Situation, k: nat)
    requires Founded(an, sit, k) && t.Request? && Formed(an, t, sit) && Fits(an, t, sit, Harmful(k))
    requires Stake(an, sit, k) > 0.0
    requires Stake(an, AfterRequest(sit, t.metric, 1), k) > 0.0 && Stake(an, AfterRequest(sit, t.metric, 0), k) > 0.0
    requires CoveredByDoubt(an, t.failed, AfterRequest(sit, t.metric, 1), k)
    requires CoveredByDoubt(an, t.succeeded, AfterRequest(sit, t.metric, 0), k)
    ensures CoveredByDoubt(an, t, sit, k)
  {
    var u, f, s := 1.0 / an.Limits().lower, AfterRequest(sit, t.metric, 1), AfterRequest(sit, t.metric, 0);
    DoubtDrifts(an, sit, k, t.metric, t.chance);
    CoveredMix(t.chance, Cost(an, t.failed, f, PromoteAll, u), Cost(an, t.succeeded, s, PromoteAll, u),
      Doubt(an, f, k), Doubt(an, s, k), Doubt(an, sit, k),
      RestartsOf(t.failed, k) as real, RestartsOf(t.succeeded, k) as real, RestartsOf(t, k) as real);
  }

  lemma CycleDoubted(an: Analysis, t: Traffic, sit: Situation, k: nat)
    requires an.DistinctNames() && Founded(an, sit, k) && t.Analyse? && Formed(an, t, sit) && Stake(an, sit, k) > 0.0
    requires GoesOn(an, sit, t.shows) ==>
      Stake(an, Polled(an, sit, t.shows, t.stable), k) > 0.0
      && CoveredByDoubt(an, t.next, Polled(an, sit, t.shows, t.stable), k)
    ensures CoveredByDoubt(an, t, sit, k)
  {
    QuotientOrder(1.0, Stake(an, sit, k));
    if Decides(an, sit, t.shows, PromoteAll) {
      PromotionDoubt(an, sit, t.shows, k);
    } else if GoesOn(an, sit, t.shows) {
      PolledDoubt(an, sit, t.shows, t.stable, k);
    }
  }

  /** The inverse of the stake is a supermartingale up to restarts: it covers the cost of a promotion at a price of
      1 / lower. */
  lemma {:induction false} PromotionCovered(an: Analysis, t: Traffic, sit: Situation, k: nat)
    requires an.DistinctNames() && Founded(an, sit, k) && Formed(an, t, sit) && Fits(an, t, sit, Harmful(k))
    ensures Stake(an, sit, k) > 0.0 && CoveredByDoubt(an, t, sit, k)
    decreases t
  {
    StakePositive(an, sit, k);
    match t
    case End =>
      QuotientOrder(1.0, Stake(an, sit, k));
    case Request(j, p, failed, succeeded) =>
      DoubtDrifts(an, sit, k, j, p);
      PromotionCovered(an, failed, AfterRequest(sit, j, 1), k);
      PromotionCovered(an, succeeded, AfterRequest(sit, j, 0), k);
      RequestDoubted(an, t, sit, k);
    case Analyse(shows, stable, next) =>
      if GoesOn(an, sit, shows) {
        PolledDoubt(an, sit, shows, stable, k);
        PromotionCovered(an, next, Polled(an, sit, shows, stable), k);
      }
      CycleDoubted(an, t, sit, k);
  }

  lemma PromotionPrice(an: Analysis, t: Traffic, sit: Situation, k: nat)
    requires an.DistinctNames() && StepBegins(an, sit) && k < |an.metrics|
    requires Formed(an, t, sit) && Fits(an, t, sit, Harmful(k))
    ensures Cost(an, t, sit, PromoteAll, 1.0 / an.Limits().lower) <= (1 + RestartsOf(t, k)) as real
    ensures Priced(1.0 / an.Limits().lower, ChanceOf(an, t, sit, PromoteAll),
                   Cost(an, t, sit, PromoteAll, 1.0 / an.Limits().lower))
  {
    FreshStakes(an, sit, |an.metrics|);
    FreshStake(an, sit, k);
    PromotionCovered(an, t, sit, k);
    CostOfChance(an, t, sit, PromoteAll, 1.0 / an.Limits().lower);
  }

  // `count` times Wald's bound on a missed degradation in one test.
  ghost predicate PromotionsWithin(an: Analysis, chance: real, count: nat) {
    chance <= count as real * (an.beta / (1.0 - an.alpha))
  }

  lemma PromotionWithin(an: Analysis, chance: real, cost: real, count: nat)
    requires Priced(1.0 / an.Limits().lower, chance, cost) && cost <= count as real
    ensures PromotionsWithin(an, chance, count)
  {
    QuotientInverse(an.beta, 1.0 - an.alpha);
    ScaledBound(1.0 - an.alpha, an.beta, 1.0 / an.Limits().lower, chance, cost, count as real);
  }

  /** A canary one of whose metrics is never better than its alternative is promoted by some cycle of a step with
      probability at most (1 + restarts of that metric's counter) * beta / (1 - alpha), whatever the other metrics do. */
  lemma MissedDegradationBound(an: Analysis, t: Traffic, sit: Situation, k: nat)
    requires an.DistinctNames() && StepBegins(an, sit) && k < |an.metrics|
    requires Formed(an, t, sit) && Fits(an, t, sit, Harmful(k))
    ensures PromotionsWithin(an, ChanceOf(an, t, sit, PromoteAll), 1 + RestartsOf(t, k))
  {
    PromotionPrice(an, t, sit, k);
    PromotionWithin(an, ChanceOf(an, t, sit, PromoteAll), Cost(an, t, sit, PromoteAll, 1.0 / an.Limits().lower),
                    1 + RestartsOf(t, k));
  }
}
