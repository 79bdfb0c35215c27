/** Counting dispatches on the job machine. A tariff says how many dispatches a queued and a held
    job still stand for; the budget of an initial group is what was dispatched plus what is still due. */
module Budgets {
  import opened Prelude
  import opened UrlGroups
  import opened Dispatch

  /** Job ids are below the next one, jobs are non-empty, and so are their initial groups. */
  predicate JobsOk(a: Core) {
    && (forall g {:trigger a.jobs[g]} :: g in a.jobs ==>
          g < a.next && a.jobs[g].urls != [] && a.jobs[g].origin < a.next)
    && a.held <= a.jobs.Keys
    && (forall g :: g in a.log ==> g in a.jobs)
  }

  predicate DequeOk(a: Core) {
    NoDup(a.deque) && (forall g :: g in a.deque ==> g in a.jobs && g !in a.held)
  }

  predicate CoreOk(a: Core) {
    JobsOk(a) && DequeOk(a)
  }

  datatype Tariff = Tariff(queued: Job -> int, held: Job -> int)

  /** What job g still stands for if it stems from initial group r. */
  ghost function Weight(a: Core, r: GroupId, t: Tariff, g: GroupId): int {
    if g !in a.jobs || a.jobs[g].origin != r then 0
    else if g in a.deque then t.queued(a.jobs[g])
    else if g in a.held then t.held(a.jobs[g])
    else 0
  }

  ghost function Remaining(a: Core, r: GroupId, t: Tariff): int {
    SumTo((g: nat) => Weight(a, r, t, g), a.next)
  }

  /** How many of the logged dispatches handed out a job of initial group r. */
  function Count(log: seq<GroupId>, jobs: map<GroupId, Job>, r: GroupId): nat {
    if log == [] then 0
    else
      var g := log[|log| - 1];
      Count(log[..|log| - 1], jobs, r) + if g in jobs && jobs[g].origin == r then 1 else 0
  }

  lemma {:induction false} CountSame(log: seq<GroupId>, jobs: map<GroupId, Job>, jobs': map<GroupId, Job>, r: GroupId)
    requires forall g :: g in log ==> g in jobs && g in jobs' && jobs'[g].origin == jobs[g].origin
    ensures Count(log, jobs', r) == Count(log, jobs, r)
  {
    if log != [] {
      assert log == log[..|log| - 1] + [log[|log| - 1]];
      CountSame(log[..|log| - 1], jobs, jobs', r);
    }
  }

  lemma {:induction false} CountNone(log: seq<GroupId>, jobs: map<GroupId, Job>, r: GroupId)
    requires forall g :: g in log ==> g in jobs && jobs[g].origin != r
    ensures Count(log, jobs, r) == 0
  {
    if log != [] {
      assert log == log[..|log| - 1] + [log[|log| - 1]];
      CountNone(log[..|log| - 1], jobs, r);
    }
  }

  lemma CountMore(log: seq<GroupId>, jobs: map<GroupId, Job>, g: GroupId, r: GroupId)
    ensures Count(log + [g], jobs, r) == Count(log, jobs, r) + if g in jobs && jobs[g].origin == r then 1 else 0
  {
    assert (log + [g])[..|log|] == log;
  }

  /** The budget of initial group r: dispatches made and still due. */
  ghost function Budget(a: Core, r: GroupId, t: Tariff): int {
    Count(a.log, a.jobs, r) + Remaining(a, r, t)
  }

  /** Two cores that agree on all jobs but g give sums that differ in g alone. */
  lemma RemainingChange(a: Core, b: Core, r: GroupId, t: Tariff, g: GroupId)
    requires g < a.next && a.next == b.next
    requires forall h: nat :: h < a.next && h != g ==> Weight(b, r, t, h) == Weight(a, r, t, h)
    ensures Remaining(b, r, t) == Remaining(a, r, t) - Weight(a, r, t, g) + Weight(b, r, t, g)
  {
    SumChange((h: nat) => Weight(a, r, t, h), (h: nat) => Weight(b, r, t, h), a.next, g);
  }

  lemma PopOk(a: Core)
    requires CoreOk(a) && a.deque != []
    ensures CoreOk(Do(a, Pop))
  {
    assert a.deque == [a.deque[0]] + a.deque[1..];
  }

  lemma FailOk(a: Core, m: Move)
    requires CoreOk(a) && Can(a, m) && (m.Retry? || m.Close?)
    ensures CoreOk(Do(a, m))
    ensures forall h :: h in Do(a, m).deque <==> h in a.deque || (m.Retry? && h == m.g)
  {
    if m.Retry? {
      NoDupPrepend(m.g, a.deque);
    }
  }

  lemma PushTwo(deque: seq<GroupId>, next: GroupId)
    requires NoDup(deque) && forall g :: g in deque ==> g < next
    ensures NoDup([next + 1, next] + deque)
    ensures forall h :: h in [next + 1, next] + deque <==> h in deque || h == next || h == next + 1
  {
    NoDupPrepend(next, deque);
    NoDupPrepend(next + 1, [next] + deque);
    assert [next + 1] + ([next] + deque) == [next + 1, next] + deque;
  }

  /** Job g can be split: it has several URLs and is not queued. */
  predicate Halvable(a: Core, g: GroupId) {
    g in a.jobs && g < a.next && |a.jobs[g].urls| > 1 && g !in a.deque
  }

  /** What one split does to the jobs. */
  predicate Halved(a: Core, b: Core, g: GroupId) {
    && Halvable(a, g) && b.next == a.next + 2 && b.log == a.log && b.held == a.held - {g}
    && b.deque == [a.next + 1, a.next] + a.deque
    && b.jobs.Keys == a.jobs.Keys + {a.next, a.next + 1}
    && b.jobs[g].origin == a.jobs[g].origin && b.jobs[g].urls == a.jobs[g].urls
    && (forall h {:trigger b.jobs[h]} :: h in a.jobs && h != g && h < a.next ==> b.jobs[h] == a.jobs[h])
    && b.jobs[a.next] == LeftHalf(a.jobs[g]) && b.jobs[a.next + 1] == RightHalf(a.jobs[g])
  }

  lemma OnceHalves(a: Core, g: GroupId, failed: bool)
    requires Halvable(a, g)
    ensures Halved(a, HalveOnce(a, g, failed), g)
  {
  }

  lemma HalvedDequeOk(a: Core, b: Core, g: GroupId)
    requires DequeOk(a) && Halved(a, b, g) && (forall h :: h in a.jobs || h in a.held ==> h < a.next)
    ensures DequeOk(b) && Halvable(b, g)
    ensures forall h :: h in b.deque <==> h in a.deque || h == a.next || h == a.next + 1
  {
    PushTwo(a.deque, a.next);
  }

  lemma HalvedJobsOk(a: Core, b: Core, g: GroupId)
    requires JobsOk(a) && Halved(a, b, g)
    ensures JobsOk(b)
  {
    assert |LeftHalf(a.jobs[g]).urls| > 0 && |RightHalf(a.jobs[g]).urls| > 0;
  }

  lemma {:induction false} TimesOk(a: Core, g: GroupId, failed: bool, times: nat)
    requires CoreOk(a) && Halvable(a, g)
    ensures CoreOk(HalveTimes(a, g, failed, times))
    decreases times
  {
    if times > 0 {
      var b := HalveOnce(a, g, failed);
      OnceHalves(a, g, failed);
      HalvedDequeOk(a, b, g);
      HalvedJobsOk(a, b, g);
      TimesOk(b, g, failed, times - 1);
    }
  }

  lemma AdmitOk(a: Core, batch: seq<UrlId>)
    requires CoreOk(a) && Can(a, Admit(batch))
    ensures CoreOk(Do(a, Admit(batch)))
  {
  }

  lemma MoveKeepsOk(a: Core, m: Move)
    requires CoreOk(a) && Can(a, m)
    ensures CoreOk(Do(a, m))
  {
    match m
    case Stay =>
    case Pop => PopOk(a);
    case Admit(batch) => AdmitOk(a, batch);
    case Retry(g) => FailOk(a, m);
    case Close(g, failed) => FailOk(a, m);
    case Halve(g, failed, times) => TimesOk(a, g, failed, times);
  }

  /** Handing out a queued job turns its queued weight into a dispatch and its held weight. */
  lemma PopBudget(a: Core, r: GroupId, t: Tariff)
    requires CoreOk(a) && a.deque != []
    ensures var job := a.jobs[a.deque[0]];
            Budget(Do(a, Pop), r, t) ==
            Budget(a, r, t) + if job.origin == r then 1 - t.queued(job) + t.held(job) else 0
  {
    var b := Do(a, Pop);
    var g := a.deque[0];
    assert a.deque == [g] + b.deque;
    CountMore(a.log, a.jobs, g, r);
    assert g !in b.deque;
    RemainingChange(a, b, r, t, g);
  }

  lemma FailWeights(a: Core, m: Move, r: GroupId, t: Tariff)
    requires m.Retry? || m.Close?
    requires Can(a, m) && m.g !in a.deque
    ensures forall h: nat :: h < a.next && h != m.g ==> Weight(Do(a, m), r, t, h) == Weight(a, r, t, h)
    ensures var job := a.jobs[m.g];
            Weight(Do(a, m), r, t, m.g) ==
            if job.origin == r && m.Retry? then t.queued(job.(failed := true)) else 0
  {
    var b := Do(a, m);
    assert forall h :: h in b.deque <==> h in a.deque || (m.Retry? && h == m.g);
  }

  /** A held job goes back to the deque, or is closed. */
  lemma FailBudget(a: Core, m: Move, r: GroupId, t: Tariff)
    requires CoreOk(a) && Can(a, m) && (m.Retry? || m.Close?)
    ensures var job := a.jobs[m.g];
            Budget(Do(a, m), r, t) ==
            Budget(a, r, t) + if job.origin != r then 0
                              else (if m.Retry? then t.queued(job.(failed := true)) else 0) - t.held(job)
  {
    CountSame(a.log, a.jobs, Do(a, m).jobs, r);
    FailWeights(a, m, r, t);
    RemainingChange(a, Do(a, m), r, t, m.g);
  }

  /** What the two halves of a job stand for. */
  ghost function Halves(job: Job, r: GroupId, t: Tariff): int {
    if job.origin == r then t.queued(LeftHalf(job)) + t.queued(RightHalf(job)) else 0
  }

  lemma HalvedWeights(a: Core, b: Core, g: GroupId, r: GroupId, t: Tariff)
    requires Halved(a, b, g) && a.next !in a.jobs && a.next + 1 !in a.jobs
    requires forall h :: h in b.deque <==> h in a.deque || h == a.next || h == a.next + 1
    ensures forall h: nat :: h < a.next && h != g ==> Weight(b, r, t, h) == Weight(a, r, t, h)
    ensures Weight(b, r, t, g) == 0
    ensures Weight(b, r, t, a.next) + Weight(b, r, t, a.next + 1) == Halves(a.jobs[g], r, t)
  {
  }

  /** A job is replaced by its two queued halves. */
  lemma HalvedBudget(a: Core, b: Core, g: GroupId, r: GroupId, t: Tariff)
    requires CoreOk(a) && Halved(a, b, g)
    ensures Budget(b, r, t) == Budget(a, r, t) - Weight(a, r, t, g) + Halves(a.jobs[g], r, t)
    ensures Weight(b, r, t, g) == 0
  {
    HalvedDequeOk(a, b, g);
    HalvedWeights(a, b, g, r, t);
    HalvedCount(a, b, g, r);
    SumSplit((h: nat) => Weight(a, r, t, h), (h: nat) => Weight(b, r, t, h), a.next, g);
  }

  /** Splitting a job several times queues each half that often. */
  lemma {:induction false} TimesBudget(a: Core, g: GroupId, failed: bool, times: nat, r: GroupId, t: Tariff)
    requires CoreOk(a) && Halvable(a, g)
    ensures Budget(HalveTimes(a, g, failed, times), r, t) ==
            Budget(a, r, t) + if times == 0 then 0 else times * Halves(a.jobs[g], r, t) - Weight(a, r, t, g)
    decreases times
  {
    if times > 0 {
      var b := HalveOnce(a, g, failed);
      OnceHalves(a, g, failed);
      HalvedDequeOk(a, b, g);
      HalvedJobsOk(a, b, g);
      HalvedBudget(a, b, g, r, t);
      assert Halves(b.jobs[g], r, t) == Halves(a.jobs[g], r, t);
      TimesBudget(b, g, failed, times - 1, r, t);
      assert times * Halves(a.jobs[g], r, t) == (times - 1) * Halves(a.jobs[g], r, t) + Halves(a.jobs[g], r, t);
    }
  }

  /** A held job is replaced by its halves, each queued as often as the job is split. */
  lemma HalveBudget(a: Core, m: Move, r: GroupId, t: Tariff)
    requires CoreOk(a) && Can(a, m) && m.Halve?
    ensures Budget(Do(a, m), r, t) ==
            Budget(a, r, t) + if a.jobs[m.g].origin != r then 0
                              else m.times * Halves(a.jobs[m.g], r, t) - t.held(a.jobs[m.g])
  {
    TimesBudget(a, m.g, m.failed, m.times, r, t);
    assert a.jobs[m.g].origin != r ==> m.times * Halves(a.jobs[m.g], r, t) == m.times * 0 == 0;
  }

  /** A new half stems from the initial group of the job it was split from, never from itself. */
  lemma TimesNext(a: Core, g: GroupId, failed: bool, times: nat, r: GroupId)
    requires CoreOk(a) && Halvable(a, g) && r in HalveTimes(a, g, failed, times).jobs && r !in a.jobs
    ensures r >= a.next
    decreases times
  {
    if times > 0 {
      var b := HalveOnce(a, g, failed);
      OnceHalves(a, g, failed);
      HalvedDequeOk(a, b, g);
      HalvedJobsOk(a, b, g);
      if r !in b.jobs {
        TimesNext(b, g, failed, times - 1, r);
      }
    }
  }

  /** What one split or several leave of the other jobs. */
  lemma {:induction false} TimesKeep(a: Core, g: GroupId, failed: bool, times: nat)
    requires CoreOk(a) && Halvable(a, g)
    ensures var b := HalveTimes(a, g, failed, times);
            && a.jobs.Keys <= b.jobs.Keys && b.held == (if times == 0 then a.held else a.held - {g}) && b.log == a.log
            && (forall h {:trigger b.jobs[h]} :: h in a.jobs && h != g ==> b.jobs[h] == a.jobs[h])
            && b.jobs[g].origin == a.jobs[g].origin && b.jobs[g].urls == a.jobs[g].urls
            && (forall h {:trigger b.jobs[h]} :: h in b.jobs && h !in a.jobs ==>
                  b.jobs[h] == LeftHalf(a.jobs[g]) || b.jobs[h] == RightHalf(a.jobs[g]))
    decreases times
  {
    if times > 0 {
      var b := HalveOnce(a, g, failed);
      OnceHalves(a, g, failed);
      HalvedDequeOk(a, b, g);
      HalvedJobsOk(a, b, g);
      TimesKeep(b, g, failed, times - 1);
    }
  }

  lemma HalvedCount(a: Core, b: Core, g: GroupId, r: GroupId)
    requires JobsOk(a) && Halved(a, b, g)
    ensures Count(b.log, b.jobs, r) == Count(a.log, a.jobs, r)
  {
    forall h | h in a.log
      ensures h in a.jobs && h in b.jobs && b.jobs[h].origin == a.jobs[h].origin
    {
    }
    CountSame(a.log, a.jobs, b.jobs, r);
  }

  lemma SumSplit(w: nat -> int, w': nat -> int, k: nat, g: nat)
    requires g < k && (forall i :: 0 <= i < k && i != g ==> w(i) == w'(i))
    ensures SumTo(w', k + 2) == SumTo(w, k) - w(g) + w'(g) + w'(k) + w'(k + 1)
  {
    SumChange(w, w', k, g);
    assert SumTo(w', k + 2) == SumTo(w', k + 1) + w'(k + 1);
  }

  lemma AdmitWeights(a: Core, batch: seq<UrlId>, r: GroupId, t: Tariff)
    requires CoreOk(a) && Can(a, Admit(batch))
    ensures var b := Do(a, Admit(batch));
            && (forall h: nat :: h < a.next ==> Weight(b, r, t, h) == Weight(a, r, t, h))
            && Weight(b, r, t, a.next) == (if r == a.next then t.held(Job(batch, false, r)) else 0)
            && (r == a.next ==> forall h: nat :: h < a.next ==> Weight(b, r, t, h) == 0)
  {
  }

  /** A new initial group starts its budget with one dispatch; the others keep theirs. */
  lemma AdmitBudget(a: Core, batch: seq<UrlId>, r: GroupId, t: Tariff)
    requires CoreOk(a) && Can(a, Admit(batch))
    ensures r in a.jobs ==> Budget(Do(a, Admit(batch)), r, t) == Budget(a, r, t)
    ensures r == a.next ==> Budget(Do(a, Admit(batch)), r, t) == 1 + t.held(Job(batch, false, r))
  {
    var b := Do(a, Admit(batch));
    CountSame(a.log, a.jobs, b.jobs, r);
    CountMore(a.log, b.jobs, a.next, r);
    AdmitWeights(a, batch, r, t);
    var w' := (h: nat) => Weight(b, r, t, h);
    SumSame((h: nat) => Weight(a, r, t, h), w', a.next);
    if r == a.next {
      assert forall g :: g in a.log ==> g in b.jobs && b.jobs[g].origin != r;
      CountNone(a.log, b.jobs, r);
      SumZero(w', a.next);
    }
  }

  lemma {:induction false} SumZero(w: nat -> int, k: nat)
    requires forall i :: 0 <= i < k ==> w(i) == 0
    ensures SumTo(w, k) == 0
  {
    if k > 0 {
      SumZero(w, k - 1);
    }
  }
}
