/** An undisturbed rollout finishes, within a number of reconciles computed from its steps. */
module RolloutProgress {
  import opened Wrappers
  import opened Sprt
  import BoundedDecision
  import opened Aggregation
  import opened VirtualServices
  import opened Rollout
  import opened RolloutSafety
  import opened PromotionCertificate
  import opened StoredStates

  // Nothing interferes: the pods are ready, nobody pauses or aborts, reads and writes work.
  predicate Smooth(cfg: Config, ev: Event) {
    ev.spec == Spec(cfg, false, false) && ev.env.fetch == Found && ev.env.readiness == Ready && WritesWork(ev.env)
  }

  // A reconcile at time `next` gives the one at time `now`, which returned `result`, the time it asked for.
  predicate Honours(now: int, result: Result, next: int) {
    next >= now && (result.Done? ==> next >= now + result.requeueAfter)
  }

  // Reconcile i gives its predecessor the time it asked for. The first has none.
  predicate OnTime(r: Run, i: nat)
    requires i < |r.events|
  {
    i == 0
    || Honours(r.events[i - 1].env.now, Returned(r.events[i - 1].spec, At(r, i - 1), r.events[i - 1].env),
               r.events[i].env.now)
  }

  // The number of reconciles on time among the first n; the others come early, as the controller's own status
  // updates and edits of the resource make them.
  function OnTimeCount(r: Run, n: nat): nat
    requires n <= |r.events|
  {
    if n == 0 then 0 else OnTimeCount(r, n - 1) + (if OnTime(r, n - 1) then 1 else 0)
  }

  // Time does not run backwards from one reconcile to the next.
  ghost predicate ClockRuns(r: Run) {
    forall i :: 0 < i < |r.events| ==> r.events[i - 1].env.now <= r.events[i].env.now
  }

  // The number of polls at the analysis interval that fit into a duration, rounded up.
  function Polls(cfg: Config, duration: int): nat {
    if duration <= 0 then 0 else (duration + Interval(cfg) - 1) / Interval(cfg)
  }

  lemma Multiplied(x: int, y: int, d: int)
    requires d > 0 && x <= y
    ensures x * d <= y * d
  {}

  lemma QuotientOrder(a: int, q: int, r: int, b: int, p: int, s: int, d: int)
    requires d > 0 && a == q * d + r && b == p * d + s && 0 <= r < d && 0 <= s < d && a <= b
    ensures q <= p
  {
    assert (q - p) * d < d;
    if q > p {
      Multiplied(1, q - p, d);
    }
  }

  lemma DivideMonotone(a: int, b: int, d: int)
    requires d > 0 && a <= b
    ensures a / d <= b / d
  {
    QuotientOrder(a, a / d, a % d, b, b / d, b % d, d);
  }

  lemma DivideStep(a: int, d: int)
    requires d > 0
    ensures (a + d) / d == a / d + 1
  {
    var q, r, b := a / d, a % d, a + d;
    assert b == (q + 1) * d + r;
    QuotientOrder(b, b / d, b % d, b, q + 1, r, d);
    QuotientOrder(b, q + 1, r, b, b / d, b % d, d);
  }

  lemma PollsMonotone(cfg: Config, a: int, b: int)
    requires a <= b
    ensures Polls(cfg, a) <= Polls(cfg, b)
  {
    var d := Interval(cfg);
    if a > 0 {
      DivideMonotone(a + d - 1, b + d - 1, d);
    }
  }

  lemma PollsDrop(cfg: Config, remaining: int, waited: int)
    requires remaining > 0
    requires waited >= (if remaining < Interval(cfg) then remaining else Interval(cfg))
    ensures Polls(cfg, remaining - waited) < Polls(cfg, remaining)
  {
    var d := Interval(cfg);
    DivideStep(remaining - 1, d);
    if waited < remaining {
      DivideMonotone(remaining - waited + d - 1, remaining - 1, d);
    } else {
      DivideMonotone(0, remaining - 1, d);
    }
  }

  // ---------------------------------------------------------------- what is left to do

  // Fruitful polls still to be stored of the n that settle a step.
  function Unpolled(n: nat, gathered: nat): nat {
    if gathered < n then n - gathered else 0
  }

  // The reconciles that the steps from `step` on can take: setting the weight, waiting, polling, leaving.
  function Rest(cfg: Config, n: nat, step: nat): nat
    decreases |cfg.steps| - step
  {
    if step >= |cfg.steps| then 0 else 2 + Polls(cfg, Pause(cfg.steps[step])) + n + Rest(cfg, n, step + 1)
  }

  /** How many reconciles are left when the next one comes at `now`: steps still to come, a weight still to be set, the
      time still to wait, and the fruitful polls still missing. */
  function Budget(cfg: Config, n: nat, st: Status, gathered: nat, now: int): nat
    requires Active(st) ==> st.currentStep < |cfg.steps|
  {
    if NotStarted(st) then 1 + Rest(cfg, n, 0)
    else if !Active(st) then 0
    else if !AtWeight(cfg, st) then Rest(cfg, n, st.currentStep)
    else
      1 + Polls(cfg, Pause(cfg.steps[st.currentStep]) - (now - st.lastTransition)) + Unpolled(n, gathered)
      + Rest(cfg, n, st.currentStep + 1)
  }

  // Under way, with a route list to patch.
  predicate UnderWay(cfg: Config, w: World) {
    StepInRange(cfg, w.status) && FirstRoute(w.vs).Some? && (NotStarted(w.status) || Active(w.status))
  }

  predicate Finished(w: World) {
    w.status.phase == PhasePromoted
  }

  // Where there is an analysis, it answers, does not roll back, and promotes with the n-th fruitful poll of the step.
  predicate Cooperates(cfg: Config, n: nat, st: Status, env: Env, gathered: nat, fruitful: bool) {
    cfg.analysis == None
    || (cfg.prometheus && env.clientOk
        && var c := Cycle(cfg.analysis.value, st.analysis, env.readings);
           c.Decided? && c.decision != RollBack
           && (gathered + (if fruitful then 1 else 0) >= n ==> c.decision == PromoteAll))
  }

  function Observed(cfg: Config, st: Status, env: Env): Status
    requires cfg.analysis.Some? ==> Cycle(cfg.analysis.value, st.analysis, env.readings).Decided?
  {
    if cfg.analysis == None then st
    else st.(analysis := Cycle(cfg.analysis.value, st.analysis, env.readings).states)
  }

  // ---------------------------------------------------------------- one reconcile

  // The status changes as planned, and no error comes back.
  lemma SmoothLanding(cfg: Config, ev: Event, w: World)
    requires Smooth(cfg, ev) && FirstRoute(w.vs).Some?
    ensures var e, w' := Plan(ev.spec, w.status, ev.env), Next(ev.spec, w, ev.env);
      FirstRoute(w'.vs).Some? && Returned(ev.spec, w, ev.env) == e.result
      && w'.status == (if e.flush.Some? then e.flush.value else w.status)
  {}

  // The fruitful polls stored of the current step after a reconcile.
  function Gathering(ev: Event, w: World, gathered: nat, fruitful: bool): nat {
    if Next(ev.spec, w, ev.env).status.currentStep != w.status.currentStep then 0
    else if Gathers(ev, w.status) && fruitful then gathered + 1 else gathered
  }

  // The reconcile finds the pause over and the gate closed.
  predicate Lingers(cfg: Config, ev: Event, w: World) {
    AtWeight(cfg, w.status) && TimerElapsed(cfg, w.status, ev.env)
    && Next(ev.spec, w, ev.env).status.currentStep == w.status.currentStep
  }

  /** What a reconcile leaves of the budget when the next one comes at `next`. If it lingers, the budget shrinks with a
      fruitful poll; otherwise with a next reconcile that comes on time; and on leaving a step by all that the step had
      left. */
  ghost predicate Progresses(cfg: Config, n: nat, ev: Event, w: World, gathered: nat, fruitful: bool, next: int) {
    var st, w', g := w.status, Next(ev.spec, w, ev.env), Gathering(ev, w, gathered, fruitful);
    Finished(w')
    || (UnderWay(cfg, w) && UnderWay(cfg, w')
        && var before, after := Budget(cfg, n, st, gathered, ev.env.now), Budget(cfg, n, w'.status, g, next);
           if Lingers(cfg, ev, w) then
             cfg.analysis.Some? && g < n && AtWeight(cfg, w'.status) && w'.status.lastTransition == st.lastTransition
             && after + (if fruitful then 1 else 0) <= before
           else
             after <= before
             && (Honours(ev.env.now, Returned(ev.spec, w, ev.env), next) ==> after < before)
             && (AtWeight(cfg, st) && TimerElapsed(cfg, st, ev.env) ==> after + 1 + Unpolled(n, gathered) <= before))
  }

  lemma SetsOut(cfg: Config, n: nat, ev: Event, st: Status, next: int)
    requires Smooth(cfg, ev) && cfg.steps != [] && NotStarted(st) && next >= ev.env.now
    ensures var e := Plan(ev.spec, st, ev.env);
      e.flush == Some(Transition(st, PhaseRunning, 0, 0, ev.env.now)) && !RanSprt(ev.spec, st, ev.env)
      && Budget(cfg, n, e.flush.value, 0, next) < Budget(cfg, n, st, 0, ev.env.now)
  {
    PollsMonotone(cfg, Pause(cfg.steps[0]) - (next - ev.env.now), Pause(cfg.steps[0]));
  }

  lemma SetsItsWeight(cfg: Config, n: nat, ev: Event, st: Status, gathered: nat, next: int)
    requires Smooth(cfg, ev) && Active(st) && st.currentStep < |cfg.steps| && !AtWeight(cfg, st) && next >= ev.env.now
    ensures var e, c := Plan(ev.spec, st, ev.env), st.currentStep;
      e.flush == Some(Transition(st, PhaseRunning, c, cfg.steps[c].weight, ev.env.now))
      && !RanSprt(ev.spec, st, ev.env)
      && Budget(cfg, n, e.flush.value, gathered, next) < Budget(cfg, n, st, gathered, ev.env.now)
  {
    var pause := Pause(cfg.steps[st.currentStep]);
    PollsMonotone(cfg, pause - (next - ev.env.now), pause);
  }

  // The reconcile polls, if there is an analysis, and goes on to the timer.
  lemma PollsFirst(cfg: Config, n: nat, ev: Event, st: Status, gathered: nat, fruitful: bool)
    requires Smooth(cfg, ev) && AtWeight(cfg, st) && Cooperates(cfg, n, st, ev.env, gathered, fruitful)
    ensures Plan(ev.spec, st, ev.env) == PlanTimer(cfg, Observed(cfg, st, ev.env), ev.env)
    ensures cfg.analysis.Some? ==> RanSprt(ev.spec, st, ev.env)
    ensures gathered + (if fruitful then 1 else 0) >= n ==> GateOpen(cfg, Observed(cfg, st, ev.env))
  {
    if cfg.analysis.Some? {
      ScanAgrees(cfg.analysis.value, st.analysis, ev.env.readings);
    }
  }

  lemma TimerWaits(cfg: Config, n: nat, st: Status, env: Env, gathered: nat, gathered': nat, next: int)
    requires AtWeight(cfg, st) && !TimerElapsed(cfg, st, env) && next >= env.now && gathered <= gathered'
    ensures var e := PlanTimer(cfg, st, env);
      e.flush == Some(st) && Budget(cfg, n, st, gathered', next) <= Budget(cfg, n, st, gathered, env.now)
      && (Honours(env.now, e.result, next) ==>
            Budget(cfg, n, st, gathered', next) < Budget(cfg, n, st, gathered, env.now))
  {
    var remaining := Pause(cfg.steps[st.currentStep]) - (env.now - st.lastTransition);
    PollsMonotone(cfg, remaining - (next - env.now), remaining);
    if Honours(env.now, PlanTimer(cfg, st, env).result, next) {
      PollsDrop(cfg, remaining, next - env.now);
    }
  }

  // The timer is up and the gate closed.
  lemma TimerLingers(cfg: Config, n: nat, st: Status, env: Env, gathered: nat, fruitful: bool, next: int)
    requires AtWeight(cfg, st) && TimerElapsed(cfg, st, env) && !GateOpen(cfg, st) && next >= env.now
    requires gathered + (if fruitful then 1 else 0) < n
    ensures PlanTimer(cfg, st, env).flush == Some(st)
    ensures var one := if fruitful then 1 else 0;
      Budget(cfg, n, st, gathered + one, next) + one <= Budget(cfg, n, st, gathered, env.now)
  {
    var remaining := Pause(cfg.steps[st.currentStep]) - (env.now - st.lastTransition);
    PollsMonotone(cfg, remaining - (next - env.now), remaining);
  }

  // The timer is up and the gate open.
  lemma TimerAdvances(cfg: Config, n: nat, st: Status, env: Env, gathered: nat, next: int)
    requires AtWeight(cfg, st) && TimerElapsed(cfg, st, env) && GateOpen(cfg, st) && next >= env.now
    ensures var e, c := PlanTimer(cfg, st, env), st.currentStep + 1;
      e.flush.Some?
      && (if c >= |cfg.steps| then e.flush.value == Status(PhasePromoted, c, 100, env.now, [])
          else e.flush.value == Status(PhaseRunning, c, st.currentWeight, env.now, [])
               && Budget(cfg, n, e.flush.value, 0, next) + 1 + Unpolled(n, gathered)
                  <= Budget(cfg, n, st, gathered, env.now))
  {
    var c := st.currentStep + 1;
    if c < |cfg.steps| {
      PollsMonotone(cfg, Pause(cfg.steps[c]) - (next - env.now), Pause(cfg.steps[c]));
    }
  }

  // A reconcile at the weight of its step does what the timer makes of the status it has observed.
  lemma PollLands(cfg: Config, n: nat, ev: Event, w: World, gathered: nat, fruitful: bool)
    requires Smooth(cfg, ev) && UnderWay(cfg, w) && AtWeight(cfg, w.status)
    requires Cooperates(cfg, n, w.status, ev.env, gathered, fruitful)
    ensures var e, w' := PlanTimer(cfg, Observed(cfg, w.status, ev.env), ev.env), Next(ev.spec, w, ev.env);
      w'.status == e.flush.value && FirstRoute(w'.vs).Some? && Returned(ev.spec, w, ev.env) == e.result
    ensures Gathers(ev, w.status) <==> cfg.analysis.Some?
    ensures gathered + (if fruitful then 1 else 0) >= n ==> GateOpen(cfg, Observed(cfg, w.status, ev.env))
  {
    SmoothLanding(cfg, ev, w);
    PollsFirst(cfg, n, ev, w.status, gathered, fruitful);
  }

  // The budget does not look at the analysis states.
  lemma SameBudget(cfg: Config, n: nat, st: Status, st': Status, gathered: nat, now: int)
    requires Core(st) == Core(st') && (Active(st) ==> st.currentStep < |cfg.steps|)
    ensures Budget(cfg, n, st, gathered, now) == Budget(cfg, n, st', gathered, now)
  {}

  // The same as far as the budget is concerned: what the timer makes of the status before the poll.
  lemma PollBudget(cfg: Config, n: nat, ev: Event, st: Status, gathered: nat, fruitful: bool, next: int)
    requires Smooth(cfg, ev) && AtWeight(cfg, st) && next >= ev.env.now
    requires Cooperates(cfg, n, st, ev.env, gathered, fruitful)
    requires gathered + (if fruitful then 1 else 0) >= n ==> GateOpen(cfg, Observed(cfg, st, ev.env))
    ensures var st' := Observed(cfg, st, ev.env);
      var e, before, one := PlanTimer(cfg, st', ev.env), Budget(cfg, n, st, gathered, ev.env.now),
                            if fruitful then 1 else 0;
      if !TimerElapsed(cfg, st, ev.env) then
        e.flush == Some(st') && Budget(cfg, n, st', gathered + one, next) <= before
        && (Honours(ev.env.now, e.result, next) ==> Budget(cfg, n, st', gathered + one, next) < before)
      else if GateOpen(cfg, st') then
        st.currentStep + 1 < |cfg.steps| ==>
          e.flush.value == Status(PhaseRunning, st.currentStep + 1, st.currentWeight, ev.env.now, [])
          && Budget(cfg, n, e.flush.value, 0, next) + 1 + Unpolled(n, gathered) <= before
      else e.flush == Some(st') && gathered < n && Budget(cfg, n, st', gathered + one, next) + one <= before
  {
    var st' := Observed(cfg, st, ev.env);
    SameBudget(cfg, n, st, st', gathered, ev.env.now);
    if !TimerElapsed(cfg, st, ev.env) {
      TimerWaits(cfg, n, st', ev.env, gathered, gathered + (if fruitful then 1 else 0), next);
    } else if GateOpen(cfg, st') {
      TimerAdvances(cfg, n, st', ev.env, gathered, next);
    } else {
      TimerLingers(cfg, n, st', ev.env, gathered, fruitful, next);
    }
  }

  lemma PollProgress(cfg: Config, n: nat, ev: Event, w: World, gathered: nat, fruitful: bool, next: int)
    requires Smooth(cfg, ev) && UnderWay(cfg, w) && AtWeight(cfg, w.status) && next >= ev.env.now
    requires Cooperates(cfg, n, w.status, ev.env, gathered, fruitful) && (fruitful ==> cfg.analysis.Some?)
    ensures Progresses(cfg, n, ev, w, gathered, fruitful, next)
  {
    PollLands(cfg, n, ev, w, gathered, fruitful);
    PollBudget(cfg, n, ev, w.status, gathered, fruitful, next);
  }

  /** Every undisturbed reconcile of an unfinished rollout finishes it or makes progress. */
  lemma ReconcileMakesProgress(cfg: Config, n: nat, ev: Event, w: World, gathered: nat, fruitful: bool, next: int)
    requires Smooth(cfg, ev) && cfg.steps != [] && UnderWay(cfg, w) && next >= ev.env.now
    requires NotStarted(w.status) ==> gathered == 0
    requires fruitful ==> cfg.analysis.Some?
    requires AtWeight(cfg, w.status) ==> Cooperates(cfg, n, w.status, ev.env, gathered, fruitful)
    ensures Progresses(cfg, n, ev, w, gathered, fruitful, next)
  {
    var st := w.status;
    if AtWeight(cfg, st) {
      PollProgress(cfg, n, ev, w, gathered, fruitful, next);
    } else {
      SmoothLanding(cfg, ev, w);
      if NotStarted(st) {
        SetsOut(cfg, n, ev, st, next);
      } else {
        SetsItsWeight(cfg, n, ev, st, gathered, next);
      }
    }
  }

  lemma BudgetPositive(cfg: Config, n: nat, st: Status, gathered: nat, now: int)
    requires cfg.steps != [] && StepInRange(cfg, st) && (NotStarted(st) || Active(st))
    ensures Budget(cfg, n, st, gathered, now) > 0
    ensures AtWeight(cfg, st) ==> Budget(cfg, n, st, gathered, now) > Unpolled(n, gathered)
  {}

  // ---------------------------------------------------------------- over a run

  // Metric by metric, the row shows a request that the rows before it do not.
  predicate Brings(an: Analysis, rows: seq<seq<Reading>>, row: seq<Reading>) {
    forall k :: 0 <= k < |an.metrics| ==>
      BoundedDecision.Fruitful(BoundedDecision.Seen(BoundedDecision.Counts(0, 0), Column(rows, k)), Answer(row, k))
  }

  function Harvest(an: Analysis, rows: seq<seq<Reading>>): nat {
    if rows == [] then 0
    else
      Harvest(an, rows[..|rows| - 1]) + (if Brings(an, rows[..|rows| - 1], rows[|rows| - 1]) then 1 else 0)
  }

  // The polls stored in the current step that brought a request to every metric.
  ghost function Crop(r: Run, cfg: Config, i: nat): nat
    requires i <= |r.events|
  {
    if cfg.analysis == None then 0 else Harvest(cfg.analysis.value, Rows(r, Evidence(r, i)))
  }

  ghost predicate FruitfulAt(r: Run, cfg: Config, i: nat)
    requires i < |r.events|
  {
    cfg.analysis.Some? && Brings(cfg.analysis.value, Rows(r, Evidence(r, i)), r.events[i].env.readings)
  }

  ghost predicate Helps(r: Run, cfg: Config, n: nat, i: nat)
    requires i < |r.events|
  {
    Cooperates(cfg, n, At(r, i).status, r.events[i].env, Crop(r, cfg, i), FruitfulAt(r, cfg, i))
    && (cfg.analysis.Some? && OnTime(r, i) ==> FruitfulAt(r, cfg, i))
  }

  /** Nothing disturbs the run; and where there is an analysis it cooperates, and every reconcile on time finds a new
      request for every metric. Early reconciles need not find any. */
  ghost predicate SmoothRun(r: Run, cfg: Config, n: nat) {
    r.events != [] && cfg.steps != [] && UnderWay(cfg, At(r, 0)) && ClockRuns(r)
    && (forall i :: 0 <= i < |r.events| ==> Smooth(cfg, r.events[i]))
    && forall i :: 0 <= i < |r.events| && AtWeight(cfg, At(r, i).status) ==> Helps(r, cfg, n, i)
  }

  lemma SmoothPromoted(cfg: Config, ev: Event, w: World)
    requires Smooth(cfg, ev) && Finished(w)
    ensures Finished(Next(ev.spec, w, ev.env))
  {}

  lemma {:induction false} PromotedStays(r: Run, cfg: Config, i: nat, j: nat)
    requires i <= j <= |r.events| && Finished(At(r, i))
    requires forall k :: 0 <= k < |r.events| ==> Smooth(cfg, r.events[k])
    ensures Finished(At(r, j))
    decreases j
  {
    if i < j {
      Reconciled(r, j - 1);
      PromotedStays(r, cfg, i, j - 1);
      SmoothPromoted(cfg, r.events[j - 1], At(r, j - 1));
    }
  }

  lemma CropGrows(r: Run, cfg: Config, i: nat)
    requires i < |r.events|
    ensures Crop(r, cfg, i + 1) == Gathering(r.events[i], At(r, i), Crop(r, cfg, i), FruitfulAt(r, cfg, i))
  {
    Reconciled(r, i);
    RowsSnoc(r, Evidence(r, i), i);
    var rows, row := Rows(r, Evidence(r, i)), r.events[i].env.readings;
    assert (rows + [row])[..|rows|] == rows;
  }

  // The reconcile lingered and the next one came on time; the budget has still to be charged for that one.
  ghost predicate Owing(r: Run, cfg: Config, i: nat)
    requires i < |r.events|
  {
    i > 0 && OnTime(r, i) && Lingers(cfg, r.events[i - 1], At(r, i - 1))
  }

  // What is left before reconcile i, and what the reconciles on time have used up of it, fit into the first budget.
  ghost predicate WithinBudget(r: Run, cfg: Config, n: nat, i: nat)
    requires i < |r.events| && cfg.steps != [] && UnderWay(cfg, At(r, 0))
  {
    Finished(At(r, i))
    || (UnderWay(cfg, At(r, i))
        && Budget(cfg, n, At(r, i).status, Crop(r, cfg, i), r.events[i].env.now) + OnTimeCount(r, i + 1)
           <= Budget(cfg, n, At(r, 0).status, 0, r.events[0].env.now) + 1 + (if Owing(r, cfg, i) then 1 else 0)
        && (Owing(r, cfg, i) ==>
              AtWeight(cfg, At(r, i).status) && TimerElapsed(cfg, At(r, i).status, r.events[i].env)
              && Crop(r, cfg, i) < n))
  }

  lemma ProgressAt(r: Run, cfg: Config, n: nat, i: nat, next: int)
    requires SmoothRun(r, cfg, n) && i < |r.events| && UnderWay(cfg, At(r, i)) && next >= r.events[i].env.now
    ensures Progresses(cfg, n, r.events[i], At(r, i), Crop(r, cfg, i), FruitfulAt(r, cfg, i), next)
    ensures At(r, i + 1) == Next(r.events[i].spec, At(r, i), r.events[i].env)
    ensures Crop(r, cfg, i + 1) == Gathering(r.events[i], At(r, i), Crop(r, cfg, i), FruitfulAt(r, cfg, i))
    ensures AtWeight(cfg, At(r, i).status) ==> Helps(r, cfg, n, i)
  {
    Reconciled(r, i);
    CropGrows(r, cfg, i);
    if NotStarted(At(r, i).status) {
      NothingGatheredBeforeStart(r, i);
    }
    ReconcileMakesProgress(cfg, n, r.events[i], At(r, i), Crop(r, cfg, i), FruitfulAt(r, cfg, i), next);
  }

  lemma BudgetStep(r: Run, cfg: Config, n: nat, i: nat)
    requires i + 1 < |r.events| && cfg.steps != [] && UnderWay(cfg, At(r, 0)) && WithinBudget(r, cfg, n, i)
    requires UnderWay(cfg, At(r, i)) && !Finished(At(r, i + 1))
    requires At(r, i + 1) == Next(r.events[i].spec, At(r, i), r.events[i].env)
    requires Crop(r, cfg, i + 1) == Gathering(r.events[i], At(r, i), Crop(r, cfg, i), FruitfulAt(r, cfg, i))
    requires Progresses(cfg, n, r.events[i], At(r, i), Crop(r, cfg, i), FruitfulAt(r, cfg, i), r.events[i + 1].env.now)
    requires r.events[i].env.now <= r.events[i + 1].env.now && r.events[i].spec.config == cfg
    requires cfg.analysis.Some? && AtWeight(cfg, At(r, i).status) && OnTime(r, i) ==> FruitfulAt(r, cfg, i)
    ensures WithinBudget(r, cfg, n, i + 1)
  {
    if Owing(r, cfg, i) {
      assert TimerElapsed(cfg, At(r, i).status, r.events[i].env) && Unpolled(n, Crop(r, cfg, i)) >= 1;
    }
  }

  lemma {:induction false} BudgetSpent(r: Run, cfg: Config, n: nat, i: nat)
    requires SmoothRun(r, cfg, n) && i < |r.events|
    ensures WithinBudget(r, cfg, n, i)
  {
    if i == 0 {
    } else {
      BudgetSpent(r, cfg, n, i - 1);
      Reconciled(r, i - 1);
      if Finished(At(r, i - 1)) {
        PromotedStays(r, cfg, i - 1, i);
      } else if !Finished(At(r, i)) {
        ProgressAt(r, cfg, n, i - 1, r.events[i].env.now);
        BudgetStep(r, cfg, n, i - 1);
      }
    }
  }

  // The last reconcile, as if one on time came after it.
  lemma BudgetEnds(r: Run, cfg: Config, n: nat, t: nat, next: int)
    requires t + 1 == |r.events| && cfg.steps != [] && UnderWay(cfg, At(r, 0)) && WithinBudget(r, cfg, n, t)
    requires UnderWay(cfg, At(r, t)) && At(r, t + 1) == Next(r.events[t].spec, At(r, t), r.events[t].env)
    requires Progresses(cfg, n, r.events[t], At(r, t), Crop(r, cfg, t), FruitfulAt(r, cfg, t), next)
    requires Honours(r.events[t].env.now, Returned(r.events[t].spec, At(r, t), r.events[t].env), next)
    requires cfg.analysis.Some? && AtWeight(cfg, At(r, t).status) && OnTime(r, t) ==> FruitfulAt(r, cfg, t)
    requires OnTimeCount(r, t + 1) >= Budget(cfg, n, At(r, 0).status, 0, r.events[0].env.now)
    ensures Finished(At(r, t + 1))
  {
    if !Finished(At(r, t + 1)) {
      var g := Gathering(r.events[t], At(r, t), Crop(r, cfg, t), FruitfulAt(r, cfg, t));
      BudgetPositive(cfg, n, At(r, t + 1).status, g, next);
    }
  }

  /** From any point of a rollout, Failed included, as many reconciles on time as its budget finish it, with any number
      of early ones between them. */
  lemma RolloutFinishes(r: Run, cfg: Config, n: nat)
    requires SmoothRun(r, cfg, n)
    requires OnTimeCount(r, |r.events|) >= Budget(cfg, n, At(r, 0).status, 0, r.events[0].env.now)
    ensures Finished(At(r, |r.events|))
  {
    var t := |r.events| - 1;
    BudgetSpent(r, cfg, n, t);
    if Finished(At(r, t)) {
      PromotedStays(r, cfg, t, t + 1);
    } else {
      var ev, w := r.events[t], At(r, t);
      var result := Returned(ev.spec, w, ev.env);
      var next := ev.env.now + (if result.Done? && result.requeueAfter > 0 then result.requeueAfter else 0);
      ProgressAt(r, cfg, n, t, next);
      BudgetEnds(r, cfg, n, t, next);
    }
  }

  /** A fresh rollout is promoted within 1 + the sum over its steps of (2 + ceil(pause / interval) + n) reconciles on
      time, where n fruitful polls settle a step. */
  lemma FreshRolloutFinishes(r: Run, cfg: Config, n: nat)
    requires SmoothRun(r, cfg, n) && FreshStatus(At(r, 0).status) && OnTimeCount(r, |r.events|) >= 1 + Rest(cfg, n, 0)
    ensures At(r, |r.events|).status.phase == PhasePromoted
  {
    RolloutFinishes(r, cfg, n);
  }

  /** Without analysis nothing has to settle a step: the sum is that of (2 + ceil(pause / interval)). */
  lemma UnanalysedRolloutFinishes(r: Run, cfg: Config)
    requires cfg.analysis == None && cfg.steps != [] && FreshStatus(At(r, 0).status) && FirstRoute(At(r, 0).vs).Some?
    requires forall i :: 0 <= i < |r.events| ==> Smooth(cfg, r.events[i])
    requires ClockRuns(r) && OnTimeCount(r, |r.events|) >= 1 + Rest(cfg, 0, 0)
    ensures At(r, |r.events|).status.phase == PhasePromoted
  {
    FreshRolloutFinishes(r, cfg, 0);
  }
}
