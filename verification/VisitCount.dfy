/** Without errors, isolating the malicious URLs of an initial group takes an exact number of visits,
    which depends only on the group and is at most min(2n - 1, 1 + 2k ceil(log2 n)) for k malicious
    URLs among n, for any number of clients and any order of work. */
module VisitCount {
  import opened Prelude
  import opened UrlGroups
  import opened Lifecycle
  import opened GroupLedger
  import opened Scheduler
  import opened Holding
  import opened Conservation
  import opened OneAlgorithm
  import opened Dispatch
  import opened Budgets
  import opened DispatchBounds
  import opened Isolation

  /** The visits that isolating us takes: one, and those of the halves if the visit is malicious. */
  ghost function Visits(us: seq<UrlId>, bad: set<UrlId>): nat
    decreases |us|
  {
    if |us| > 1 && Hits(us, bad) then 1 + Visits(us[..|us| / 2], bad) + Visits(us[|us| / 2..], bad) else 1
  }

  /** No step fails a group. */
  predicate ErrorFree(s: Server, e: Event) {
    match e
    case Take(_, _, ok) => ok
    case ErrorReport(_, _, _, _, _, code) => !RetryCode(code)
    case SendFailure(c) => c in s.fleet.clients && s.fleet.clients[c].held.None?
    case Timeout(v, _) =>
      v in s.fleet.vms && (s.fleet.vms[v].client.None? ||
        (s.fleet.vms[v].client.value in s.fleet.clients && s.fleet.clients[s.fleet.vms[v].client.value].held.None?))
    case _ => true
  }

  /** A move of error-free isolation: a group of several URLs is split exactly if it has a bad one. */
  ghost predicate Fits(a: Core, m: Move, bad: set<UrlId>) {
    match m
    case Halve(g, failed, times) => times == 1 && g in a.jobs && failed == a.jobs[g].failed && Hits(a.jobs[g].urls, bad)
    case Close(g, failed) => g in a.jobs && failed == a.jobs[g].failed && !(|a.jobs[g].urls| > 1 && Hits(a.jobs[g].urls, bad))
    case Retry(_) => false
    case _ => true
  }

  lemma ReportFits(cfg: Config, s: Server, e: Event, t: Server, ledger: Ledger, bad: set<UrlId>) returns (m: Move)
    requires Inv(s, ledger) && Resolved(s) && ServerRight(s, bad) && Uniform(s, Dac) && Enabled(cfg, s, e)
    requires Honest(s, e, bad) && ErrorFree(s, e) && (e.Finish? || e.ErrorReport?) && t == Apply(cfg, s, e)
    ensures Can(Abs(s), m) && Next(s, e, t.pool, t.dispatched) == Do(Abs(s), m) && Fits(Abs(s), m, bad)
  {
    var g := s.fleet.clients[e.client].held.value;
    HeldGroup(s, e.client);
    if e.Finish? {
      FinishRight(s, g, e.malicious, e.changed, e.codes, ledger, bad);
      m := FinishMove(cfg, s, e, t);
    } else {
      ErrorRight(s, g, e.malicious, e.changed, e.codes, e.code, ledger, bad);
      m := ErrorMove(cfg, s, e, t);
    }
  }

  /** The pool's part of an error-free step is one move. */
  lemma HonestPoolMove(cfg: Config, s: Server, e: Event, t: Server, ledger: Ledger, bad: set<UrlId>) returns (m: Move)
    requires Inv(s, ledger) && Resolved(s) && ServerRight(s, bad) && Uniform(s, Dac) && Enabled(cfg, s, e)
    requires Honest(s, e, bad) && ErrorFree(s, e) && t == Apply(cfg, s, e)
    ensures Can(Abs(s), m) && Next(s, e, t.pool, t.dispatched) == Do(Abs(s), m) && Fits(Abs(s), m, bad)
  {
    m := Stay;
    match e
    case Take(_, _, _) =>
      var m1, m2 := TakeMoves(s, e, t);
      m := m1;
    case SystemEvent(c) => m := SystemEventMove(s, c, t);
    case Finish(_, _, _, _, _) => m := ReportFits(cfg, s, e, t, ledger, bad);
    case ErrorReport(_, _, _, _, _, _) => m := ReportFits(cfg, s, e, t, ledger, bad);
    case SendFailure(c) => m := SendFailureMove(s, c, t);
    case Timeout(v, code) => m := TimeoutMove(s, v, code, t);
    case _ => OtherMove(cfg, s, e, t);
  }

  lemma HonestMove(cfg: Config, s: Server, e: Event, ledger: Ledger, bad: set<UrlId>) returns (m: Move)
    requires Inv(s, ledger) && ServerRight(s, bad) && Uniform(s, Dac) && Enabled(cfg, s, e)
    requires Honest(s, e, bad) && ErrorFree(s, e)
    ensures Resolved(s) && Can(Abs(s), m) && Abs(Apply(cfg, s, e)) == Do(Abs(s), m) && Fits(Abs(s), m, bad)
  {
    StepHeld(cfg, s, e);
    m := HonestPoolMove(cfg, s, e, Apply(cfg, s, e), ledger, bad);
  }

  /** A queued group still costs its visits; a held one all but the one under way. */
  ghost function Exact(bad: set<UrlId>): Tariff {
    Tariff((job: Job) => Visits(job.urls, bad), (job: Job) => Visits(job.urls, bad) - 1)
  }

  ghost predicate OnBudget(a: Core, bad: set<UrlId>) {
    CoreOk(a) && forall r {:trigger Budget(a, r, Exact(bad))} ::
      r in a.jobs && a.jobs[r].origin == r ==> Budget(a, r, Exact(bad)) == Visits(a.jobs[r].urls, bad)
  }

  lemma MoveExact(a: Core, m: Move, r: GroupId, bad: set<UrlId>)
    requires CoreOk(a) && Can(a, m) && Fits(a, m, bad) && r in Do(a, m).jobs && Do(a, m).jobs[r].origin == r
    requires r in a.jobs ==> a.jobs[r].origin == r && Budget(a, r, Exact(bad)) == Visits(a.jobs[r].urls, bad)
    ensures Budget(Do(a, m), r, Exact(bad)) == Visits(Do(a, m).jobs[r].urls, bad)
  {
    match m
    case Stay =>
    case Pop => PopBudget(a, r, Exact(bad));
    case Admit(batch) => AdmitBudget(a, batch, r, Exact(bad));
    case Close(g, failed) => FailBudget(a, m, r, Exact(bad));
    case Halve(g, failed, times) => HalveBudget(a, m, r, Exact(bad));
  }

  lemma MoveKeepsOnBudget(a: Core, m: Move, bad: set<UrlId>)
    requires OnBudget(a, bad) && Can(a, m) && Fits(a, m, bad)
    ensures OnBudget(Do(a, m), bad)
  {
    MoveKeepsOk(a, m);
    var b := Do(a, m);
    forall r | r in b.jobs && b.jobs[r].origin == r
      ensures Budget(b, r, Exact(bad)) == Visits(b.jobs[r].urls, bad)
    {
      assert r in a.jobs ==> a.jobs[r].origin == r;
      assert r in a.jobs ==> Budget(a, r, Exact(bad)) == Visits(a.jobs[r].urls, bad);
      MoveExact(a, m, r, bad);
    }
  }

  predicate ErrorFreeRun(states: seq<Server>, events: seq<Event>) {
    |events| <= |states| && forall i :: 0 <= i < |events| ==> ErrorFree(states[i], events[i])
  }

  lemma {:induction false} RunOnBudget(cfg: Config, states: seq<Server>, events: seq<Event>, bad: set<UrlId>, n: nat)
    requires Run(cfg, states, events) && HonestRun(states, events, bad) && ErrorFreeRun(states, events) && n <= |events|
    ensures OnBudget(Abs(states[n]), bad)
  {
    if n > 0 {
      RunOnBudget(cfg, states, events, bad, n - 1);
      HonestRunRight(cfg, states, events, bad, n - 1);
      HonestIsProper(states, events, bad);
      var ledger := ProperRunKeeps(cfg, states, events, Dac, n - 1);
      var m := HonestMove(cfg, states[n - 1], events[n - 1], ledger, bad);
      MoveKeepsOnBudget(Abs(states[n - 1]), m, bad);
    }
  }

  // ---- How large the number is ----

  /** How many entries of us are bad. */
  function BadCount(us: seq<UrlId>, bad: set<UrlId>): nat {
    if us == [] then 0 else (if us[0] in bad then 1 else 0) + BadCount(us[1..], bad)
  }

  lemma {:induction false} BadCountSplits(us: seq<UrlId>, vs: seq<UrlId>, bad: set<UrlId>)
    ensures BadCount(us + vs, bad) == BadCount(us, bad) + BadCount(vs, bad)
  {
    if us == [] {
      assert us + vs == vs;
    } else {
      assert (us + vs)[1..] == us[1..] + vs;
      BadCountSplits(us[1..], vs, bad);
    }
  }

  lemma {:induction false} BadCountHits(us: seq<UrlId>, bad: set<UrlId>)
    ensures Hits(us, bad) <==> BadCount(us, bad) > 0
  {
    if us != [] {
      BadCountHits(us[1..], bad);
      assert us == [us[0]] + us[1..];
      assert us[0] in us;
      if Hits(us, bad) {
        var u :| u in us && u in bad;
        assert u == us[0] || u in us[1..];
      }
    }
  }

  /** Linear bound. */
  lemma {:induction false} VisitsLinear(us: seq<UrlId>, bad: set<UrlId>)
    requires us != []
    ensures Visits(us, bad) <= 2 * |us| - 1
    decreases |us|
  {
    if |us| > 1 && Hits(us, bad) {
      VisitsLinear(us[..|us| / 2], bad);
      VisitsLinear(us[|us| / 2..], bad);
    }
  }

  /** Logarithmic bound. */
  lemma {:induction false} VisitsLogarithmic(us: seq<UrlId>, bad: set<UrlId>)
    ensures Visits(us, bad) <= 1 + 2 * BadCount(us, bad) * CeilLog2(|us|)
    decreases |us|
  {
    if |us| > 1 && Hits(us, bad) {
      var left, right := us[..|us| / 2], us[|us| / 2..];
      assert us == left + right;
      BadCountSplits(left, right, bad);
      BadCountHits(us, bad);
      VisitsLogarithmic(left, bad);
      VisitsLogarithmic(right, bad);
      CeilLog2Monotone(|left|, |right|);
      CeilLog2Step(|us|, |right|);
      SplitArithmetic(BadCount(left, bad), BadCount(right, bad), CeilLog2(|left|), CeilLog2(|right|), CeilLog2(|us|),
                      Visits(left, bad), Visits(right, bad), BadCount(us, bad));
    }
  }

  lemma SplitArithmetic(k1: nat, k2: nat, l1: nat, l2: nat, l: nat, v1: nat, v2: nat, k: nat)
    requires l1 <= l2 && l == l2 + 1 && k == k1 + k2 > 0
    requires v1 <= 1 + 2 * k1 * l1 && v2 <= 1 + 2 * k2 * l2
    ensures 1 + v1 + v2 <= 1 + 2 * k * l
  {
    assert k1 * l1 <= k1 * l2;
    assert k * l == k1 * l2 + k2 * l2 + k1 + k2;
  }

  /** Every initial group of a drained error-free run was visited, in parts, exactly as often as its malicious
      URLs demand. */
  lemma VisitTheorem(cfg: Config, states: seq<Server>, events: seq<Event>, bad: set<UrlId>, n: nat, r: GroupId)
    requires Run(cfg, states, events) && HonestRun(states, events, bad) && ErrorFreeRun(states, events) && n <= |events|
    requires r in states[n].pool.groups && states[n].pool.groups[r].origin == r
    ensures Dispatches(states[n], r) <= Visits(states[n].pool.groups[r].urls, bad)
    ensures Drained(states[n]) ==> Dispatches(states[n], r) == Visits(states[n].pool.groups[r].urls, bad)
    ensures var us := states[n].pool.groups[r].urls;
            Dispatches(states[n], r) <= Min(2 * |us| - 1, 1 + 2 * BadCount(us, bad) * CeilLog2(|us|))
  {
    RunOnBudget(cfg, states, events, bad, n);
    BudgetIsVisits(Abs(states[n]), r, bad);
    VisitsLinear(Abs(states[n]).jobs[r].urls, bad);
    VisitsLogarithmic(Abs(states[n]).jobs[r].urls, bad);
  }

  lemma BudgetIsVisits(a: Core, r: GroupId, bad: set<UrlId>)
    requires OnBudget(a, bad) && r in a.jobs && a.jobs[r].origin == r
    ensures Count(a.log, a.jobs, r) <= Visits(a.jobs[r].urls, bad)
    ensures a.deque == [] && a.held == {} ==> Count(a.log, a.jobs, r) == Visits(a.jobs[r].urls, bad)
  {
    assert Budget(a, r, Exact(bad)) == Visits(a.jobs[r].urls, bad);
    SumNonNegative((g: nat) => Weight(a, r, Exact(bad), g), a.next);
    if a.deque == [] && a.held == {} {
      SumZero((g: nat) => Weight(a, r, Exact(bad), g), a.next);
    }
  }

  predicate NoneFailed(a: Core) {
    forall g {:trigger a.jobs[g]} :: g in a.jobs ==> !a.jobs[g].failed
  }

  lemma MoveNeverFails(a: Core, m: Move, bad: set<UrlId>)
    requires NoneFailed(a) && Can(a, m) && Fits(a, m, bad)
    ensures NoneFailed(Do(a, m))
  {
  }

  lemma {:induction false} RunNeverFails(cfg: Config, states: seq<Server>, events: seq<Event>, bad: set<UrlId>, n: nat)
    requires Run(cfg, states, events) && HonestRun(states, events, bad) && ErrorFreeRun(states, events) && n <= |events|
    ensures NoneFailed(Abs(states[n]))
  {
    if n > 0 {
      RunNeverFails(cfg, states, events, bad, n - 1);
      HonestRunRight(cfg, states, events, bad, n - 1);
      HonestIsProper(states, events, bad);
      var ledger := ProperRunKeeps(cfg, states, events, Dac, n - 1);
      var m := HonestMove(cfg, states[n - 1], events[n - 1], ledger, bad);
      MoveNeverFails(Abs(states[n - 1]), m, bad);
    }
  }

  /** Without errors no group is ever given up, so a drained run has every verdict right. */
  lemma ErrorFreeIsolation(cfg: Config, states: seq<Server>, events: seq<Event>, bad: set<UrlId>, n: nat)
    requires Run(cfg, states, events) && HonestRun(states, events, bad) && ErrorFreeRun(states, events) && n <= |events|
    requires Drained(states[n])
    ensures forall u :: u in states[n].pool.urls ==> states[n].pool.urls[u].malicious == Some(u in bad)
  {
    IsolationTheorem(cfg, states, events, bad, n);
    RunNeverFails(cfg, states, events, bad, n);
    NoErrors(states[n]);
  }

  lemma NoErrors(s: Server)
    requires NoneFailed(Abs(s))
    ensures forall g {:trigger s.pool.groups[g]} :: g in s.pool.groups ==> s.pool.groups[g].errorCount == 0
  {
    assert forall g {:trigger s.pool.groups[g]} :: g in s.pool.groups ==> !Abs(s).jobs[g].failed;
  }
}
