/** What the reported observations count, against the requests the canary served since the step began. */
module StepTraffic {
  import opened Wrappers
  import opened Sprt
  import opened MetricRuns

  // ---------------------------------------------------------------- the traffic a series of polls shows

  // The first request count that usable polls show.
  function FirstRead(rs: seq<Reading>): Option<nat> {
    if rs == [] then None
    else
      var n := |rs| - 1;
      if FirstRead(rs[..n]).Some? then FirstRead(rs[..n])
      else if rs[n].Usable() then rs[n].canaryTotal else None
  }

  // The last one; `atStart` before there is any.
  function LastRead(atStart: nat, rs: seq<Reading>): nat {
    if rs == [] then atStart
    else if rs[|rs| - 1].Usable() then rs[|rs| - 1].canaryTotal.value
    else LastRead(atStart, rs[..|rs| - 1])
  }

  // What a counter has counted between two looks at it. A counter that goes down has restarted at zero.
  function Moved(before: nat, after: nat): nat {
    if after < before then after else after - before
  }

  // The requests served since the counter stood at `atStart`, restarts of the counter included.
  function Served(atStart: nat, rs: seq<Reading>): nat {
    if rs == [] then 0
    else
      var n := |rs| - 1;
      Served(atStart, rs[..n])
      + (if rs[n].Usable() then Moved(LastRead(atStart, rs[..n]), rs[n].canaryTotal.value) else 0)
  }

  // The number of polls up to the one that decides; all of them while undecided.
  ghost function Live(b: Bounds, m: Metric, rs: seq<Reading>): (live: nat)
    ensures live <= |rs|
  {
    if rs == [] then 0
    else
      var n := |rs| - 1;
      if Run(b, m, Fresh(m.name), rs[..n]).verdict == Pending then |rs| else Live(b, m, rs[..n])
  }

  // Requests served before the step that the test counts: the counter's value at the start of the step, unless the
  // counter or the test has restarted.
  ghost function Carried(b: Bounds, m: Metric, atStart: nat, rs: seq<Reading>): nat {
    if LedgerOf(b, m, rs).start == 0 && FirstRead(rs).Some? && atStart <= FirstRead(rs).value then atStart else 0
  }

  // Requests of the step that the test does not count: those before a restart of the test, and after its verdict.
  ghost function Missed(b: Bounds, m: Metric, atStart: nat, rs: seq<Reading>): int {
    Served(atStart, rs[..LedgerOf(b, m, rs).start]) + Served(atStart, rs) - Served(atStart, rs[..Live(b, m, rs)])
  }

  // What the state of an undecided test remembers.
  ghost predicate Remembers(atStart: nat, rs: seq<Reading>, s: MetricState, start: nat) {
    if FirstRead(rs).Some? then s.lastTotal == LastRead(atStart, rs)
    else s.lastTotal == 0 && s.observations == 0 && start == 0
         && LastRead(atStart, rs) == atStart && Served(atStart, rs) == 0
  }

  ghost predicate Accounted(b: Bounds, m: Metric, atStart: nat, rs: seq<Reading>) {
    var s, start, live := Run(b, m, Fresh(m.name), rs), LedgerOf(b, m, rs).start, Live(b, m, rs);
    start <= live
    && (if s.verdict == Pending then live == |rs| && Remembers(atStart, rs, s, start) else FirstRead(rs).Some?)
    && s.observations + Served(atStart, rs[..start]) == Served(atStart, rs[..live]) + Carried(b, m, atStart, rs)
  }

  // How everything that is accounted for changes with one more poll.
  lemma OneMorePoll(b: Bounds, m: Metric, atStart: nat, front: seq<Reading>, r: Reading)
    ensures var rs, s := front + [r], Run(b, m, Fresh(m.name), front);
      rs[..|rs|] == rs && rs[..|front|] == front
      && Run(b, m, Fresh(m.name), rs) == Next(b, m, s, r)
      && Live(b, m, rs) == (if s.verdict == Pending then |rs| else Live(b, m, front))
      && Served(atStart, rs)
         == Served(atStart, front) + (if r.Usable() then Moved(LastRead(atStart, front), r.canaryTotal.value) else 0)
      && LastRead(atStart, rs) == (if r.Usable() then r.canaryTotal.value else LastRead(atStart, front))
      && FirstRead(rs) == (if FirstRead(front) == None && r.Usable() then r.canaryTotal else FirstRead(front))
      && LedgerOf(b, m, rs).start
         == (if s.verdict == Pending && r.Usable() && IsReset(s, r) then |rs| else LedgerOf(b, m, front).start)
      && forall i :: 0 <= i <= |front| ==> rs[..i] == front[..i]
  {
    var rs := front + [r];
    assert rs[..|rs| - 1] == front && rs[|rs| - 1] == r;
  }

  lemma AccountsUnmoved(b: Bounds, m: Metric, atStart: nat, front: seq<Reading>, r: Reading)
    requires Accounted(b, m, atStart, front)
    requires Run(b, m, Fresh(m.name), front).verdict != Pending || !r.Usable()
    ensures Accounted(b, m, atStart, front + [r])
  {
    OneMorePoll(b, m, atStart, front, r);
    assert front[..|front|] == front;
  }

  lemma AccountsRestart(b: Bounds, m: Metric, atStart: nat, front: seq<Reading>, r: Reading)
    requires Run(b, m, Fresh(m.name), front).verdict == Pending && r.Usable()
    requires IsReset(Run(b, m, Fresh(m.name), front), r)
    ensures Accounted(b, m, atStart, front + [r])
  {
    OneMorePoll(b, m, atStart, front, r);
  }

  lemma AccountsForward(b: Bounds, m: Metric, atStart: nat, front: seq<Reading>, r: Reading)
    requires Accounted(b, m, atStart, front)
    requires Run(b, m, Fresh(m.name), front).verdict == Pending && r.Usable()
    requires !IsReset(Run(b, m, Fresh(m.name), front), r)
    ensures Accounted(b, m, atStart, front + [r])
  {
    OneMorePoll(b, m, atStart, front, r);
    assert front[..|front|] == front && front[..0] == [];
  }

  lemma {:induction false} Accounts(b: Bounds, m: Metric, atStart: nat, rs: seq<Reading>)
    ensures Accounted(b, m, atStart, rs)
  {
    if rs == [] {
    } else {
      var front, r := rs[..|rs| - 1], rs[|rs| - 1];
      assert rs == front + [r];
      Accounts(b, m, atStart, front);
      var s := Run(b, m, Fresh(m.name), front);
      if s.verdict != Pending || !r.Usable() {
        AccountsUnmoved(b, m, atStart, front, r);
      } else if IsReset(s, r) {
        AccountsRestart(b, m, atStart, front, r);
      } else {
        AccountsForward(b, m, atStart, front, r);
      }
    }
  }

  // The counter stood at zero when the step began or restarted before the first poll; or nothing had been served in
  // the step when the test last restarted.
  ghost predicate StartsClean(b: Bounds, m: Metric, atStart: nat, rs: seq<Reading>) {
    var start := LedgerOf(b, m, rs).start;
    if start > 0 then Served(atStart, rs[..start]) == 0
    else FirstRead(rs) == None || atStart == 0 || FirstRead(rs).value < atStart
  }

  // The observations a state reports, against the requests served since the counter stood at atStart.
  ghost predicate Tallies(b: Bounds, m: Metric, atStart: nat, rs: seq<Reading>, s: MetricState) {
    s.observations == Served(atStart, rs) + Carried(b, m, atStart, rs) - Missed(b, m, atStart, rs)
    && (s.verdict == Pending ==>
          (s.observations == Served(atStart, rs) <==> StartsClean(b, m, atStart, rs)))
  }

  /** The reported observations are the requests served since the step began, plus those carried over from before it,
      less those missed. So they are the step's own exactly when the two corrections balance; and while the metric is
      undecided, exactly when it started clean. */
  lemma ObservationsOfAStep(b: Bounds, m: Metric, atStart: nat, rs: seq<Reading>)
    ensures Tallies(b, m, atStart, rs, Run(b, m, Fresh(m.name), rs))
  {
    Accounts(b, m, atStart, rs);
    assert rs[..|rs|] == rs && rs[..0] == [];
  }
}
