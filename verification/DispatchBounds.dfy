/** Bounds for every run, whatever clients report and whatever fails: how often the URLs of an initial group are
    handed out, and how deep the deque gets with one group in work at a time. While no client goes down holding an
    armed group, the bounds are 4n - 2 dispatches and ceil(log2 groupSize) + 1 queued groups. */
module DispatchBounds {
  import opened Prelude
  import opened UrlGroups
  import opened Lifecycle
  import opened GroupLedger
  import opened Scheduler
  import opened Holding
  import opened Conservation
  import opened Dispatch
  import opened Budgets

  /** The most dispatches n URLs cause if one step splits a group up to k times: the group fails once, is
      retried, and each split then queues both halves. */
  function Worst(n: nat, k: nat): nat {
    if n <= 1 then 2 else 2 + k * (Worst(n / 2, k) + Worst(n - n / 2, k))
  }

  /** A failed job has one dispatch less to come, a held job has had one. */
  ghost function Worsts(k: nat): Tariff {
    Tariff((job: Job) => Worst(|job.urls|, k) - if job.failed then 1 else 0,
           (job: Job) => Worst(|job.urls|, k) - if job.failed then 2 else 1)
  }

  /** Every initial group is within its budget. */
  ghost predicate Bounded(a: Core, k: nat) {
    CoreOk(a) && forall r {:trigger Budget(a, r, Worsts(k))} ::
      r in a.jobs && a.jobs[r].origin == r ==> Budget(a, r, Worsts(k)) <= Worst(|a.jobs[r].urls|, k)
  }

  /** Splitting a held job up to k times costs no more than the job was due. */
  lemma HalveAffordable(job: Job, times: nat, k: nat, r: GroupId)
    requires |job.urls| > 1 && times <= k && job.origin == r
    ensures times * Halves(job, r, Worsts(k)) <= Worsts(k).held(job)
  {
    var left, right := Worst(|job.urls| / 2, k), Worst(|job.urls| - |job.urls| / 2, k);
    assert Halves(job, r, Worsts(k)) == left + right;
    TimesMonotone(left + right, times, k);
    WorstStep(|job.urls|, k, left, right);
  }

  lemma WorstStep(n: nat, k: nat, left: nat, right: nat)
    requires n > 1 && left == Worst(n / 2, k) && right == Worst(n - n / 2, k)
    ensures Worst(n, k) == 2 + k * (left + right)
  {
  }

  lemma MoveBudget(a: Core, m: Move, r: GroupId, k: nat)
    requires CoreOk(a) && Can(a, m) && Within(m, k)
    requires r in a.jobs && a.jobs[r].origin == r
    ensures Budget(Do(a, m), r, Worsts(k)) <= Budget(a, r, Worsts(k))
  {
    match m
    case Stay =>
    case Pop => PopBudget(a, r, Worsts(k));
    case Admit(batch) => AdmitBudget(a, batch, r, Worsts(k));
    case Retry(g) => FailBudget(a, m, r, Worsts(k));
    case Close(g, failed) => FailBudget(a, m, r, Worsts(k));
    case Halve(g, failed, times) =>
      HalveBudget(a, m, r, Worsts(k));
      if a.jobs[g].origin == r {
        HalveAffordable(a.jobs[g], times, k, r);
      }
  }

  /** Only admitting a batch makes a new initial group; an initial group keeps its URLs. */
  lemma MoveRoots(a: Core, m: Move, r: GroupId)
    requires CoreOk(a) && Can(a, m) && r in Do(a, m).jobs && Do(a, m).jobs[r].origin == r
    ensures r in a.jobs ==> a.jobs[r].origin == r && Do(a, m).jobs[r].urls == a.jobs[r].urls
    ensures r !in a.jobs ==> m.Admit? && r == a.next
  {
    if m.Halve? {
      HalveRoots(a, Do(a, m), m, r);
    }
  }

  lemma HalveRoots(a: Core, b: Core, m: Move, r: GroupId)
    requires CoreOk(a) && m.Halve? && Can(a, m) && b == Do(a, m) && r in b.jobs && b.jobs[r].origin == r
    ensures r in a.jobs && a.jobs[r].origin == r && b.jobs[r].urls == a.jobs[r].urls
  {
    TimesKeep(a, m.g, m.failed, m.times);
    if r !in a.jobs {
      TimesNext(a, m.g, m.failed, m.times, r);
      assert false;
    }
  }

  lemma MoveKeepsBounded(a: Core, m: Move, k: nat)
    requires Bounded(a, k) && Can(a, m) && Within(m, k)
    ensures Bounded(Do(a, m), k)
  {
    MoveKeepsOk(a, m);
    var b := Do(a, m);
    forall r | r in b.jobs && b.jobs[r].origin == r
      ensures Budget(b, r, Worsts(k)) <= Worst(|b.jobs[r].urls|, k)
    {
      MoveRoots(a, m, r);
      if r in a.jobs {
        MoveBudget(a, m, r, k);
      } else {
        AdmitBudget(a, m.batch, r, Worsts(k));
      }
    }
  }

  lemma ShapeFromCore(t: Server)
    requires FleetRight(t) && CoreOk(Abs(t))
    ensures Shaped(t)
  {
    forall h | h in t.pool.groups
      ensures h < t.pool.next
    {
      assert h in Abs(t).jobs && Abs(t).jobs[h].urls != [];
    }
  }

  lemma InitialBounded(k: nat)
    ensures Shaped(INITIAL) && Bounded(Abs(INITIAL), k)
  {
    assert Held(INITIAL.fleet) == {};
  }

  /** Every run keeps the budgets for three splits a step, and those for one while no armed group fails. */
  lemma {:induction false} RunBounded(cfg: Config, states: seq<Server>, events: seq<Event>, n: nat, k: nat)
    requires Run(cfg, states, events) && n <= |events| && (k == 3 || (k == 1 && NeverDuplicates(states, events, n)))
    ensures Shaped(states[n]) && Bounded(Abs(states[n]), k)
  {
    if n == 0 {
      InitialBounded(k);
    } else {
      RunBounded(cfg, states, events, n - 1, k);
      var s := states[n - 1];
      var m1, m2 := StepRefines(cfg, s, events[n - 1]);
      if k == 1 {
        var ledger := RunKeeps(cfg, states, events, n - 1);
      }
      MoveKeepsBounded(Abs(s), m1, k);
      MoveKeepsBounded(Do(Abs(s), m1), m2, k);
      StepHeld(cfg, s, events[n - 1]);
      ShapeFromCore(Apply(cfg, s, events[n - 1]));
    }
  }

  /** In every state of every run the fleet is sound, no group is queued or held twice, and the URLs of all groups are
      registered, whatever fails. */
  lemma {:induction false} RunKnown(cfg: Config, states: seq<Server>, events: seq<Event>, n: nat)
    requires Run(cfg, states, events) && n <= |events|
    ensures Shaped(states[n]) && UrlsKnown(states[n])
  {
    RunBounded(cfg, states, events, n, 3);
    if n > 0 {
      RunKnown(cfg, states, events, n - 1);
      StepKnown(cfg, states[n - 1], events[n - 1]);
    }
  }

  /** How often URLs of initial group r have been handed to clients. */
  function Dispatches(s: Server, r: GroupId): nat {
    Count(s.dispatched, Jobs(s.pool), r)
  }

  /** Termination: in every run an initial group of n URLs is handed out, whole or in parts, at most Worst(n, 3)
      times, and at most 4n - 2 times while no client goes down holding an armed group. */
  lemma DispatchTheorem(cfg: Config, states: seq<Server>, events: seq<Event>, n: nat, r: GroupId)
    requires Run(cfg, states, events) && n <= |events|
    requires r in states[n].pool.groups && states[n].pool.groups[r].origin == r
    ensures Dispatches(states[n], r) <= Worst(|states[n].pool.groups[r].urls|, 3)
    ensures NeverDuplicates(states, events, n) ==> Dispatches(states[n], r) <= 4 * |states[n].pool.groups[r].urls| - 2
  {
    RunBounded(cfg, states, events, n, 3);
    BudgetCoversDispatches(Abs(states[n]), r, 3);
    if NeverDuplicates(states, events, n) {
      RunBounded(cfg, states, events, n, 1);
      BudgetCoversDispatches(Abs(states[n]), r, 1);
      WorstOnce(|states[n].pool.groups[r].urls|);
    }
  }

  lemma BudgetCoversDispatches(a: Core, r: GroupId, k: nat)
    requires Bounded(a, k) && r in a.jobs && a.jobs[r].origin == r
    ensures |a.jobs[r].urls| > 0 && Count(a.log, a.jobs, r) <= Worst(|a.jobs[r].urls|, k)
  {
    assert Budget(a, r, Worsts(k)) <= Worst(|a.jobs[r].urls|, k);
    RemainingNonNegative(a, r, k);
  }

  lemma RemainingNonNegative(a: Core, r: GroupId, k: nat)
    ensures Remaining(a, r, Worsts(k)) >= 0
  {
    forall g: nat | g < a.next
      ensures Weight(a, r, Worsts(k), g) >= 0
    {
      if g in a.jobs {
        WorstAtLeastTwo(|a.jobs[g].urls|, k);
      }
    }
    SumNonNegative((g: nat) => Weight(a, r, Worsts(k), g), a.next);
  }

  lemma WorstAtLeastTwo(n: nat, k: nat)
    ensures Worst(n, k) >= 2
  {
    if n > 1 {
      assert k * (Worst(n / 2, k) + Worst(n - n / 2, k)) >= 0;
    }
  }

  /** With one split a step the bound is linear. */
  lemma {:induction false} WorstOnce(n: nat)
    requires n > 0
    ensures Worst(n, 1) == 4 * n - 2
  {
    if n > 1 {
      WorstOnce(n / 2);
      WorstOnce(n - n / 2);
    }
  }

  /** With three splits a step it exceeds the linear bound for every group of several URLs. */
  lemma {:induction false} WorstExceeds(n: nat)
    requires n > 0
    ensures Worst(n, 3) >= 4 * n - 2
    ensures n > 1 ==> Worst(n, 3) > 4 * n - 2
  {
    if n > 1 {
      WorstExceeds(n / 2);
      WorstExceeds(n - n / 2);
    }
  }

  /** Six to the k. */
  function Pow6(k: nat): nat {
    if k == 0 then 1 else 6 * Pow6(k - 1)
  }

  /** It is still polynomial: at most 2.4 times six to the power ceil(log2 n). */
  lemma {:induction false} WorstPolynomial(n: nat)
    ensures 5 * Worst(n, 3) + 2 <= 12 * Pow6(CeilLog2(n))
  {
    if n > 1 {
      var h := n - n / 2;
      WorstPolynomial(n / 2);
      WorstPolynomial(h);
      CeilLog2Monotone(n / 2, h);
      Pow6Monotone(CeilLog2(n / 2), CeilLog2(h));
      WorstStep(n, 3, Worst(n / 2, 3), Worst(h, 3));
      CeilLog2Step(n, h);
      PolynomialStep(Worst(n, 3), Worst(n / 2, 3), Worst(h, 3), Pow6(CeilLog2(h)), Pow6(CeilLog2(n)));
    }
  }

  lemma CeilLog2Step(n: nat, h: nat)
    requires n > 1 && h == n - n / 2
    ensures CeilLog2(n) == 1 + CeilLog2(h) && Pow6(CeilLog2(n)) == 6 * Pow6(CeilLog2(h))
  {
    assert h == (n + 1) / 2;
  }

  lemma PolynomialStep(w: nat, left: nat, right: nat, half: nat, whole: nat)
    requires w == 2 + 3 * (left + right) && whole == 6 * half
    requires 5 * left + 2 <= 12 * half && 5 * right + 2 <= 12 * half
    ensures 5 * w + 2 <= 12 * whole
  {
  }

  lemma {:induction false} Pow6Monotone(j: nat, k: nat)
    requires j <= k
    ensures Pow6(j) <= Pow6(k)
  {
    if j > 0 {
      Pow6Monotone(j - 1, k - 1);
    } else if k > 0 {
      Pow6Monotone(0, k - 1);
    }
  }

  // ---- The depth of the deque ----

  function CeilLog2(n: nat): nat {
    if n <= 1 then 0 else 1 + CeilLog2((n + 1) / 2)
  }

  lemma {:induction false} CeilLog2Monotone(m: nat, n: nat)
    requires m <= n
    ensures CeilLog2(m) <= CeilLog2(n)
  {
    if m > 1 {
      CeilLog2Monotone((m + 1) / 2, (n + 1) / 2);
    }
  }

  /** Two to the k. */
  function Pow2(k: nat): nat {
    if k == 0 then 1 else 2 * Pow2(k - 1)
  }

  /** CeilLog2 is the least exponent whose power of two reaches n. */
  lemma {:induction false} CeilLog2Least(n: nat, k: nat)
    ensures n <= Pow2(k) <==> CeilLog2(n) <= k
  {
    if n <= 1 {
      Pow2Positive(k);
    } else if k > 0 {
      CeilLog2Least((n + 1) / 2, k - 1);
    }
  }

  lemma {:induction false} Pow2Positive(k: nat)
    ensures Pow2(k) >= 1
  {
    if k > 0 {
      Pow2Positive(k - 1);
    }
  }

  function Level(a: Core, g: GroupId): nat {
    if g in a.jobs then CeilLog2(|a.jobs[g].urls|) else 0
  }

  /** Up to f queued groups for each level of l: a group's level and the number of groups below it stay below that. */
  predicate DequeShallow(a: Core, l: nat, f: nat) {
    forall i {:trigger a.deque[i]} :: 0 <= i < |a.deque| ==> f * Level(a, a.deque[i]) + |a.deque| - 1 - i <= f * l
  }

  predicate Shallow(a: Core, l: nat, f: nat) {
    DequeShallow(a, l, f) && forall g :: g in a.held ==> f * Level(a, g) + |a.deque| <= f * l
  }

  /** One group is in work at a time: a group is taken only when none is held. */
  predicate OneAtATime(states: seq<Server>, events: seq<Event>) {
    |events| <= |states| && forall i :: 0 <= i < |events| && events[i].Take? ==> Held(states[i].fleet) == {}
  }

  predicate Single(a: Core) {
    forall g, h :: g in a.held && h in a.held ==> g == h
  }

  lemma MoveKeepsShallow(a: Core, m: Move, l: nat, k: nat, f: nat)
    requires CoreOk(a) && Can(a, m) && Within(m, k) && f == 2 * k - 1 && Shallow(a, l, f) && Single(a)
    requires m.Pop? || m.Admit? ==> a.held == {}
    requires m.Admit? ==> CeilLog2(|m.batch|) <= l
    ensures Shallow(Do(a, m), l, f) && Single(Do(a, m))
  {
    match m
    case Stay =>
    case Pop => PopShallow(a, l, f);
    case Admit(batch) => TimesMonotone(f, CeilLog2(|batch|), l);
    case Retry(g) => FailShallow(a, m, l, f);
    case Close(g, failed) => FailShallow(a, m, l, f);
    case Halve(g, failed, times) => HalveShallow(a, m, l, k, f);
  }

  lemma PopShallow(a: Core, l: nat, f: nat)
    requires CoreOk(a) && a.deque != [] && a.held == {} && Shallow(a, l, f)
    ensures Shallow(Do(a, Pop), l, f) && Single(Do(a, Pop))
  {
    var b := Do(a, Pop);
    forall i | 0 <= i < |b.deque|
      ensures f * Level(b, b.deque[i]) + |b.deque| - 1 - i <= f * l
    {
      assert b.deque[i] == a.deque[i + 1];
    }
  }

  lemma FailShallow(a: Core, m: Move, l: nat, f: nat)
    requires CoreOk(a) && Can(a, m) && (m.Retry? || m.Close?) && Shallow(a, l, f) && Single(a)
    ensures Shallow(Do(a, m), l, f) && Single(Do(a, m))
  {
    var b := Do(a, m);
    forall i | 0 <= i < |b.deque|
      ensures f * Level(b, b.deque[i]) + |b.deque| - 1 - i <= f * l
    {
      if m.Close? {
        assert b.deque[i] == a.deque[i];
      } else {
        assert b.deque[i] == if i == 0 then m.g else a.deque[i - 1];
      }
    }
  }

  lemma HalveShallow(a: Core, m: Move, l: nat, k: nat, f: nat)
    requires CoreOk(a) && Can(a, m) && m.Halve? && Within(m, k) && f == 2 * k - 1 && Shallow(a, l, f) && Single(a)
    ensures Shallow(Do(a, m), l, f) && Single(Do(a, m))
  {
    HalfLevels(a, m.g);
    assert f * (Level(a, m.g) - 1) == f * Level(a, m.g) - f;
    TimesShallow(a, m.g, m.failed, m.times, l, f);
    TimesKeep(a, m.g, m.failed, m.times);
    assert Do(a, m).held == {};
  }

  lemma TimesMonotone(f: nat, x: nat, y: nat)
    requires x <= y
    ensures f * x <= f * y && x * f <= y * f
  {
  }

  lemma HalfLevels(a: Core, g: GroupId)
    requires Halvable(a, g)
    ensures CeilLog2(|LeftHalf(a.jobs[g]).urls|) <= Level(a, g) - 1 && CeilLog2(|RightHalf(a.jobs[g]).urls|) <= Level(a, g) - 1
  {
    var n := |a.jobs[g].urls|;
    CeilLog2Monotone(n / 2, (n + 1) / 2);
    assert n - n / 2 == (n + 1) / 2;
  }

  /** Each split pushes two groups that are one level further down. */
  lemma {:induction false} TimesShallow(a: Core, g: GroupId, failed: bool, times: nat, l: nat, f: nat)
    requires CoreOk(a) && Halvable(a, g) && DequeShallow(a, l, f)
    requires f * (Level(a, g) - 1) + |a.deque| + 2 * times - 1 <= f * l
    ensures DequeShallow(HalveTimes(a, g, failed, times), l, f)
    decreases times
  {
    if times > 0 {
      var b := HalveOnce(a, g, failed);
      OnceHalves(a, g, failed);
      HalvedDequeOk(a, b, g);
      HalvedJobsOk(a, b, g);
      OnceShallow(a, b, g, l, f);
      TimesShallow(b, g, failed, times - 1, l, f);
    }
  }

  lemma OnceShallow(a: Core, b: Core, g: GroupId, l: nat, f: nat)
    requires CoreOk(a) && Halved(a, b, g) && DequeShallow(a, l, f)
    requires f * (Level(a, g) - 1) + |a.deque| + 1 <= f * l
    ensures DequeShallow(b, l, f) && Level(b, g) == Level(a, g)
  {
    HalfLevels(a, g);
    TimesMonotone(f, Level(b, a.next), Level(a, g) - 1);
    TimesMonotone(f, Level(b, a.next + 1), Level(a, g) - 1);
    forall i | 0 <= i < |b.deque|
      ensures f * Level(b, b.deque[i]) + |b.deque| - 1 - i <= f * l
    {
      if i >= 2 {
        assert b.deque[i] == a.deque[i - 2];
        assert Level(b, b.deque[i]) == Level(a, a.deque[i - 2]);
      }
    }
  }

  lemma {:induction false} RunShallow(cfg: Config, states: seq<Server>, events: seq<Event>, n: nat, k: nat, f: nat)
    requires Run(cfg, states, events) && OneAtATime(states, events) && n <= |events| && f == 2 * k - 1
    requires k == 3 || (k == 1 && NeverDuplicates(states, events, n))
    ensures Shallow(Abs(states[n]), CeilLog2(Max(cfg.groupSize, 1)), f) && Single(Abs(states[n]))
  {
    if n == 0 {
      assert Held(INITIAL.fleet) == {};
    } else {
      RunShallow(cfg, states, events, n - 1, k, f);
      RunBounded(cfg, states, events, n - 1, k);
      if k == 1 {
        var ledger := RunKeeps(cfg, states, events, n - 1);
      }
      StepShallow(cfg, states[n - 1], events[n - 1], CeilLog2(Max(cfg.groupSize, 1)), k, f);
    }
  }

  lemma StepShallow(cfg: Config, s: Server, e: Event, l: nat, k: nat, f: nat)
    requires Shaped(s) && CoreOk(Abs(s)) && Enabled(cfg, s, e) && f == 2 * k - 1 && l == CeilLog2(Max(cfg.groupSize, 1))
    requires k == 3 || (k == 1 && Unarmed(s.pool, {}) && !Duplicates(s, e))
    requires Shallow(Abs(s), l, f) && Single(Abs(s)) && (e.Take? ==> Held(s.fleet) == {})
    ensures Resolved(s) && Shallow(Abs(Apply(cfg, s, e)), l, f) && Single(Abs(Apply(cfg, s, e)))
  {
    var m1, m2 := StepRefines(cfg, s, e);
    if m1.Admit? {
      CeilLog2Monotone(|m1.batch|, Max(cfg.groupSize, 1));
    }
    var a := Abs(s);
    MoveKeepsShallow(a, m1, l, k, f);
    MoveKeepsOk(a, m1);
    MoveKeepsShallow(Do(a, m1), m2, l, k, f);
  }

  /** With one group in work at a time the deque of every run never holds more than 5 ceil(log2 groupSize) + 1 groups,
      and no more than ceil(log2 groupSize) + 1 while no client goes down holding an armed group. */
  lemma DepthTheorem(cfg: Config, states: seq<Server>, events: seq<Event>, n: nat)
    requires Run(cfg, states, events) && OneAtATime(states, events) && n <= |events|
    ensures |states[n].pool.deque| <= 5 * CeilLog2(Max(cfg.groupSize, 1)) + 1
    ensures NeverDuplicates(states, events, n) ==> |states[n].pool.deque| <= CeilLog2(Max(cfg.groupSize, 1)) + 1
  {
    RunShallow(cfg, states, events, n, 3, 5);
    ShallowDepth(Abs(states[n]), CeilLog2(Max(cfg.groupSize, 1)), 5);
    if NeverDuplicates(states, events, n) {
      RunShallow(cfg, states, events, n, 1, 1);
      ShallowDepth(Abs(states[n]), CeilLog2(Max(cfg.groupSize, 1)), 1);
    }
  }

  lemma ShallowDepth(a: Core, l: nat, f: nat)
    requires Shallow(a, l, f)
    ensures |a.deque| <= f * l + 1
  {
    if a.deque != [] {
      assert f * Level(a, a.deque[0]) + |a.deque| - 1 - 0 <= f * l;
    }
  }
}
