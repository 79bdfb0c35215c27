/** The worker pool of the client plugin: a dispatcher hands URLs to worker threads and counts their
    completions through busy flags and auto-reset events. A step is one access to shared state; only in `Look` are
    the dispatcher's accesses to one worker taken together, of which the worker sees no more than the last. */
module WorkerPool {
  import opened Prelude

  /** Where a worker thread is: waiting for data, woken, visiting, back from the visit, or done with
      clearing its flag but not yet with signalling. */
  datatype WorkerPc = Idle | Woken | Running(url: nat) | Done | Cleared

  datatype Worker = Worker(busy: bool, data: Option<nat>, hasData: bool, finished: bool, pc: WorkerPc)

  /** Where the dispatcher is: looking at worker i, about to wait, holding the index it waited for, or out of its loop. */
  datatype DispatcherPc = Scan(i: nat) | AtWait | Woke(index: nat) | Exited

  /** `owner[u]` is the worker that URL u was handed to; `visitors[u]` lists the workers that finished visiting it. */
  datatype Pool = Pool(workers: seq<Worker>, urls: nat, counted: nat, owner: seq<nat>, visitors: seq<seq<nat>>, pc: DispatcherPc)

  function Assigned(p: Pool): nat {
    |p.owner|
  }

  predicate QuietWorker(w: Worker) {
    !w.busy && !w.hasData && !w.finished && w.pc == Idle
  }

  /** What a call of the dispatch loop may rely on. */
  predicate Quiet(workers: seq<Worker>) {
    forall i :: 0 <= i < |workers| ==> QuietWorker(workers[i])
  }

  function NextPass(p: Pool): DispatcherPc {
    if p.counted < p.urls then Scan(0) else Exited
  }

  predicate Starts(p: Pool) {
    && Quiet(p.workers) && p.counted == 0 && p.owner == [] && p.pc == NextPass(p)
    && |p.visitors| == p.urls && forall u :: 0 <= u < p.urls ==> p.visitors[u] == []
  }

  datatype Step = Look | StartWait | Receive(k: nat) | TimeOut | Judge | Wake(i: nat) | Begin(i: nat) | End(i: nat) | Clear(i: nat) | Signal(i: nat)

  predicate Signalled(p: Pool, k: nat) {
    k < |p.workers| && p.workers[k].finished
  }

  predicate Can(p: Pool, s: Step) {
    match s
    case Look => p.pc.Scan? && p.pc.i < |p.workers|
    case StartWait => p.pc.Scan? && p.pc.i >= |p.workers|
    case Receive(k) => p.pc.AtWait? && Signalled(p, k) && forall j :: 0 <= j < k ==> !Signalled(p, j)
    case TimeOut => p.pc.AtWait? && forall j :: 0 <= j < |p.workers| ==> !Signalled(p, j)
    case Judge => p.pc.Woke? && p.pc.index < |p.workers|
    case Wake(i) => i < |p.workers| && p.workers[i].pc == Idle && p.workers[i].hasData
    case Begin(i) => i < |p.workers| && p.workers[i].pc == Woken && p.workers[i].data.Some?
    case End(i) => i < |p.workers| && p.workers[i].pc.Running? && p.workers[i].pc.url < |p.visitors|
    case Clear(i) => i < |p.workers| && p.workers[i].pc == Done
    case Signal(i) => i < |p.workers| && p.workers[i].pc == Cleared
  }

  function SetWorker(p: Pool, i: nat, w: Worker): Pool
    requires i < |p.workers|
  {
    p.(workers := p.workers[i := w])
  }

  function Do(p: Pool, s: Step): Pool
    requires Can(p, s)
  {
    match s
    case Look =>
      var i := p.pc.i;
      if !p.workers[i].busy && Assigned(p) < p.urls then
        SetWorker(p, i, p.workers[i].(data := Some(Assigned(p)), busy := true, hasData := true))
        .(owner := p.owner + [i], pc := Scan(i + 1))
      else p.(pc := Scan(i + 1))
    case StartWait => p.(pc := AtWait)
    case Receive(k) => SetWorker(p, k, p.workers[k].(finished := false)).(pc := Woke(k))
    case TimeOut => p.(pc := NextPass(p))
    case Judge =>
      var q := if p.workers[p.pc.index].busy then p else p.(counted := p.counted + 1);
      q.(pc := NextPass(q))
    case Wake(i) => SetWorker(p, i, p.workers[i].(hasData := false, pc := Woken))
    case Begin(i) => SetWorker(p, i, p.workers[i].(pc := Running(p.workers[i].data.value)))
    case End(i) =>
      var u := p.workers[i].pc.url;
      SetWorker(p, i, p.workers[i].(pc := Done)).(visitors := p.visitors[u := p.visitors[u] + [i]])
    case Clear(i) => SetWorker(p, i, p.workers[i].(busy := false, pc := Cleared))
    case Signal(i) => SetWorker(p, i, p.workers[i].(finished := true, pc := Idle))
  }

  predicate Run(ps: seq<Pool>, steps: seq<Step>) {
    && |ps| == |steps| + 1 && Starts(ps[0])
    && forall i :: 0 <= i < |steps| ==> Can(ps[i], steps[i]) && ps[i + 1] == Do(ps[i], steps[i])
  }

  // ---- Safety ----

  /** The URL a worker still has to visit. */
  function Due(w: Worker): Option<nat> {
    if w.hasData || w.pc == Woken then w.data else if w.pc.Running? then Some(w.pc.url) else None
  }

  predicate WorkerOk(w: Worker) {
    && (w.busy <==> w.hasData || w.pc == Woken || w.pc.Running? || w.pc == Done)
    && (w.hasData ==> w.pc == Idle || w.pc == Cleared)
    && (w.hasData || w.pc == Woken ==> w.data.Some?)
  }

  /** Completions of a worker that were not counted yet: pending signal, pending data, unfinished round. */
  function Load(w: Worker): nat {
    (if w.finished then 1 else 0) + (if w.hasData then 1 else 0) + (if w.pc == Idle then 0 else 1)
  }

  function Loads(workers: seq<Worker>): nat {
    if workers == [] then 0 else Loads(workers[..|workers| - 1]) + Load(workers[|workers| - 1])
  }

  function Received(p: Pool): nat {
    if p.pc.Woke? then 1 else 0
  }

  /** A URL that was handed out is due at its owner, or was visited by its owner once. */
  predicate UrlOk(p: Pool, u: nat)
    requires u < |p.owner| && u < |p.visitors|
  {
    && p.owner[u] < |p.workers|
    && ((p.visitors[u] == [] && Due(p.workers[p.owner[u]]) == Some(u)) || p.visitors[u] == [p.owner[u]])
  }

  predicate DueOk(p: Pool, i: nat)
    requires i < |p.workers|
  {
    Due(p.workers[i]).Some? ==>
      var u := Due(p.workers[i]).value;
      u < |p.owner| && u < |p.visitors| && p.owner[u] == i && p.visitors[u] == []
  }

  predicate Placed(p: Pool) {
    && Assigned(p) <= p.urls && |p.visitors| == p.urls
    && (forall i {:trigger p.workers[i]} :: 0 <= i < |p.workers| ==> WorkerOk(p.workers[i]) && DueOk(p, i))
    && (forall u {:trigger UrlOk(p, u)} :: 0 <= u < Assigned(p) ==> UrlOk(p, u))
    && (forall u {:trigger p.visitors[u]} :: Assigned(p) <= u < p.urls ==> p.visitors[u] == [])
  }

  predicate Inv(p: Pool) {
    && Placed(p)
    && p.counted + Received(p) + Loads(p.workers) <= Assigned(p)
    && (p.pc.Exited? <==> p.counted >= p.urls)
    && (p.pc.Scan? ==> p.pc.i <= |p.workers|)
  }

  lemma {:induction false} LoadsChange(workers: seq<Worker>, i: nat, w: Worker)
    requires i < |workers|
    ensures Loads(workers[i := w]) == Loads(workers) - Load(workers[i]) + Load(w)
  {
    var n := |workers| - 1;
    if i < n {
      LoadsChange(workers[..n], i, w);
      assert workers[i := w][..n] == workers[..n][i := w];
    } else {
      assert workers[i := w][..n] == workers[..n];
    }
  }

  lemma {:induction false} QuietLoads(workers: seq<Worker>)
    requires Quiet(workers)
    ensures Loads(workers) == 0
  {
    if workers != [] {
      assert QuietWorker(workers[|workers| - 1]);
      QuietLoads(workers[..|workers| - 1]);
    }
  }

  /** Where nothing is outstanding no worker has a load. */
  lemma {:induction false} NoLoads(workers: seq<Worker>, i: nat)
    requires Loads(workers) == 0 && i < |workers|
    ensures Load(workers[i]) == 0
  {
    if i < |workers| - 1 {
      NoLoads(workers[..|workers| - 1], i);
    }
  }

  /** Where something is outstanding some worker has a load. */
  lemma {:induction false} SomeLoad(workers: seq<Worker>) returns (i: nat)
    requires Loads(workers) > 0
    ensures i < |workers| && Load(workers[i]) > 0
  {
    if Load(workers[|workers| - 1]) > 0 {
      i := |workers| - 1;
    } else {
      i := SomeLoad(workers[..|workers| - 1]);
    }
  }

  lemma StartInv(p: Pool)
    requires Starts(p)
    ensures Inv(p) && Loads(p.workers) == 0
  {
    QuietLoads(p.workers);
    assert Assigned(p) == 0 && Received(p) == 0;
  }

  lemma StepInv(p: Pool, s: Step)
    requires Inv(p) && Can(p, s)
    ensures Inv(Do(p, s))
  {
    var q := Do(p, s);
    match s
    case Look => LookInv(p);
    case StartWait => WorkerSame(p, q);
    case Receive(k) => LoadsChange(p.workers, k, q.workers[k]); WorkerStep(p, q, k);
    case TimeOut => WorkerSame(p, q);
    case Judge => WorkerSame(p, q);
    case Wake(i) => LoadsChange(p.workers, i, q.workers[i]); WorkerStep(p, q, i);
    case Begin(i) => LoadsChange(p.workers, i, q.workers[i]); WorkerStep(p, q, i);
    case End(i) => EndInv(p, i);
    case Clear(i) => LoadsChange(p.workers, i, q.workers[i]); WorkerStep(p, q, i);
    case Signal(i) => LoadsChange(p.workers, i, q.workers[i]); WorkerStep(p, q, i);
  }

  lemma WorkerSame(p: Pool, q: Pool)
    requires Placed(p) && q.workers == p.workers && q.owner == p.owner && q.visitors == p.visitors && q.urls == p.urls
    ensures Placed(q)
  {
    forall i | 0 <= i < |q.workers|
      ensures WorkerOk(q.workers[i]) && DueOk(q, i)
    {
      assert WorkerOk(p.workers[i]) && DueOk(p, i);
    }
    forall u | 0 <= u < Assigned(q)
      ensures UrlOk(q, u)
    {
      assert UrlOk(p, u);
    }
  }

  /** A worker's step that leaves what is due to it. */
  lemma WorkerStep(p: Pool, q: Pool, i: nat)
    requires Placed(p) && i < |p.workers| && q.owner == p.owner && q.visitors == p.visitors && q.urls == p.urls
    requires |q.workers| == |p.workers| && q.workers == p.workers[i := q.workers[i]]
    requires WorkerOk(q.workers[i]) && Due(q.workers[i]) == Due(p.workers[i])
    ensures Placed(q)
  {
    forall j | 0 <= j < |q.workers|
      ensures WorkerOk(q.workers[j]) && DueOk(q, j)
    {
      assert WorkerOk(p.workers[j]) && DueOk(p, j);
    }
    forall u | 0 <= u < Assigned(q)
      ensures UrlOk(q, u)
    {
      assert UrlOk(p, u);
    }
  }

  lemma LookInv(p: Pool)
    requires Inv(p) && Can(p, Look)
    ensures Inv(Do(p, Look))
  {
    var q := Do(p, Look);
    var i := p.pc.i;
    if !p.workers[i].busy && Assigned(p) < p.urls {
      LoadsChange(p.workers, i, q.workers[i]);
      forall u | 0 <= u < Assigned(q)
        ensures UrlOk(q, u)
      {
        if u < Assigned(p) {
          assert UrlOk(p, u);
          assert q.owner[u] == p.owner[u];
        }
      }
      forall j | 0 <= j < |q.workers|
        ensures WorkerOk(q.workers[j]) && DueOk(q, j)
      {
        if j != i {
          assert q.workers[j] == p.workers[j];
          assert DueOk(p, j);
        }
      }
    } else {
      WorkerSame(p, q);
    }
  }

  lemma EndInv(p: Pool, i: nat)
    requires Inv(p) && Can(p, End(i))
    ensures Inv(Do(p, End(i)))
  {
    var q := Do(p, End(i));
    var v := p.workers[i].pc.url;
    LoadsChange(p.workers, i, q.workers[i]);
    assert WorkerOk(p.workers[i]) && DueOk(p, i);
    forall u | 0 <= u < Assigned(q)
      ensures UrlOk(q, u)
    {
      assert UrlOk(p, u);
    }
    forall j | 0 <= j < |q.workers|
      ensures WorkerOk(q.workers[j]) && DueOk(q, j)
    {
      if j != i {
        assert q.workers[j] == p.workers[j];
        assert WorkerOk(p.workers[j]) && DueOk(p, j);
      }
    }
  }

  lemma {:induction false} RunInv(ps: seq<Pool>, steps: seq<Step>, n: nat)
    requires Run(ps, steps) && n <= |steps|
    ensures Inv(ps[n])
  {
    if n == 0 {
      StartInv(ps[0]);
    } else {
      RunInv(ps, steps, n - 1);
      StepInv(ps[n - 1], steps[n - 1]);
    }
  }

  /** Safety: when the dispatch loop has exited, every URL was handed to one worker and visited by it exactly
      once, and the pool is as quiet as the next call expects, for any interleaving and any number of URLs. */
  lemma SafetyTheorem(ps: seq<Pool>, steps: seq<Step>, n: nat)
    requires Run(ps, steps) && n <= |steps| && ps[n].pc.Exited?
    ensures Quiet(ps[n].workers) && ps[n].counted == ps[n].urls == |ps[n].owner| == |ps[n].visitors|
    ensures forall u :: 0 <= u < ps[n].urls ==> ps[n].owner[u] < |ps[n].workers| && ps[n].visitors[u] == [ps[n].owner[u]]
  {
    RunInv(ps, steps, n);
    ExitQuiet(ps[n]);
  }

  lemma ExitQuiet(p: Pool)
    requires Inv(p) && p.pc.Exited?
    ensures Quiet(p.workers) && p.counted == p.urls == |p.owner| == |p.visitors|
    ensures forall u :: 0 <= u < p.urls ==> p.owner[u] < |p.workers| && p.visitors[u] == [p.owner[u]]
  {
    forall i | 0 <= i < |p.workers|
      ensures QuietWorker(p.workers[i])
    {
      NoLoads(p.workers, i);
      assert WorkerOk(p.workers[i]);
    }
    forall u | 0 <= u < p.urls
      ensures p.owner[u] < |p.workers| && p.visitors[u] == [p.owner[u]]
    {
      assert UrlOk(p, u);
    }
  }

  // ---- Lost completions ----

  /** URLs that are counted, received, outstanding at a worker or not handed out yet. */
  function Outstanding(p: Pool): int {
    p.counted + Received(p) + Loads(p.workers) + (p.urls - Assigned(p))
  }

  /** No completion is lost. */
  predicate Accounted(p: Pool) {
    Outstanding(p) == p.urls
  }

  /** A signal merges with a pending one, or is received when the worker's flag is up again. */
  predicate Loses(p: Pool, s: Step)
    requires Can(p, s)
  {
    match s
    case Signal(i) => p.workers[i].finished
    case Judge => p.workers[p.pc.index].busy
    case _ => false
  }

  lemma StepOutstanding(p: Pool, s: Step)
    requires Inv(p) && Can(p, s)
    ensures Outstanding(Do(p, s)) == Outstanding(p) - if Loses(p, s) then 1 else 0
  {
    var q := Do(p, s);
    match s
    case Look =>
      if !p.workers[p.pc.i].busy && Assigned(p) < p.urls {
        LoadsChange(p.workers, p.pc.i, q.workers[p.pc.i]);
        assert WorkerOk(p.workers[p.pc.i]);
      }
    case StartWait =>
    case Receive(k) => LoadsChange(p.workers, k, q.workers[k]);
    case TimeOut =>
    case Judge =>
    case Wake(i) => LoadsChange(p.workers, i, q.workers[i]);
    case Begin(i) => LoadsChange(p.workers, i, q.workers[i]);
    case End(i) => LoadsChange(p.workers, i, q.workers[i]);
    case Clear(i) => LoadsChange(p.workers, i, q.workers[i]);
    case Signal(i) => LoadsChange(p.workers, i, q.workers[i]);
  }

  lemma {:induction false} RunOutstanding(ps: seq<Pool>, steps: seq<Step>, m: nat, n: nat)
    requires Run(ps, steps) && m <= n <= |steps|
    ensures Outstanding(ps[n]) <= Outstanding(ps[m]) && ps[n].urls == ps[m].urls
  {
    if m < n {
      RunOutstanding(ps, steps, m, n - 1);
      RunInv(ps, steps, n - 1);
      StepOutstanding(ps[n - 1], steps[n - 1]);
    }
  }

  /** A call that has lost a completion never leaves its loop. */
  lemma LossIsForEver(ps: seq<Pool>, steps: seq<Step>, m: nat, n: nat)
    requires Run(ps, steps) && m <= n <= |steps| && !Accounted(ps[m])
    ensures !Accounted(ps[n]) && !ps[n].pc.Exited?
  {
    RunOutstanding(ps, steps, 0, m);
    RunOutstanding(ps, steps, m, n);
    RunInv(ps, steps, n);
    StartInv(ps[0]);
  }

  // ---- Progress, for groups of at most as many URLs as there are workers ----

  /** With enough workers each gets at most one URL, all in the first pass. */
  predicate OneEach(p: Pool) {
    && p.urls <= |p.workers|
    && (Assigned(p) < p.urls ==> p.pc == Scan(Assigned(p)))
    && (forall i {:trigger p.workers[i]} :: 0 <= i < |p.workers| ==>
          && (i >= Assigned(p) ==> QuietWorker(p.workers[i]))
          && Load(p.workers[i]) <= 1 && (p.workers[i].finished ==> !p.workers[i].busy))
    && (p.pc.Woke? ==> p.pc.index < |p.workers| && !p.workers[p.pc.index].busy && Load(p.workers[p.pc.index]) == 0)
  }

  predicate NoLoss(p: Pool) {
    Inv(p) && Accounted(p) && OneEach(p)
  }

  /** One worker's record is replaced. */
  predicate Replaces(p: Pool, q: Pool, i: nat) {
    i < |p.workers| && |q.workers| == |p.workers| && q.workers == p.workers[i := q.workers[i]]
  }

  lemma StepAccounted(p: Pool, s: Step)
    requires NoLoss(p) && Can(p, s)
    ensures Accounted(Do(p, s))
  {
    StepOutstanding(p, s);
    if s.Signal? {
      assert Load(p.workers[s.i]) <= 1;
    }
  }

  lemma LookOneEach(p: Pool)
    requires Inv(p) && OneEach(p) && Can(p, Look)
    ensures OneEach(Do(p, Look))
  {
    var i := p.pc.i;
    assert Assigned(p) < p.urls ==> QuietWorker(p.workers[i]);
  }

  lemma WorkerOneEach(p: Pool, q: Pool, i: nat)
    requires OneEach(p) && Replaces(p, q, i) && q.urls == p.urls && q.owner == p.owner && q.pc == p.pc
    requires i < Assigned(p) && Load(q.workers[i]) <= 1 && (q.workers[i].finished ==> !q.workers[i].busy)
    requires p.pc == Woke(i) ==> Load(q.workers[i]) == 0 && !q.workers[i].busy
    ensures OneEach(q)
  {
  }

  lemma StepOneEach(p: Pool, s: Step)
    requires Inv(p) && OneEach(p) && Can(p, s)
    ensures OneEach(Do(p, s))
  {
    var q := Do(p, s);
    match s
    case Look => LookOneEach(p);
    case StartWait =>
    case Receive(k) =>
    case TimeOut =>
    case Judge =>
    case Wake(i) => assert WorkerOk(p.workers[i]); WorkerOneEach(p, q, i);
    case Begin(i) => assert WorkerOk(p.workers[i]); WorkerOneEach(p, q, i);
    case End(i) => assert WorkerOk(p.workers[i]); WorkerOneEach(p, q, i);
    case Clear(i) => assert WorkerOk(p.workers[i]); WorkerOneEach(p, q, i);
    case Signal(i) => assert WorkerOk(p.workers[i]); WorkerOneEach(p, q, i);
  }

  lemma StepNoLoss(p: Pool, s: Step)
    requires NoLoss(p) && Can(p, s)
    ensures NoLoss(Do(p, s))
  {
    StepInv(p, s);
    StepAccounted(p, s);
    StepOneEach(p, s);
  }

  lemma {:induction false} RunNoLoss(ps: seq<Pool>, steps: seq<Step>, n: nat)
    requires Run(ps, steps) && n <= |steps| && ps[0].urls <= |ps[0].workers|
    ensures NoLoss(ps[n])
  {
    if n == 0 {
      StartInv(ps[0]);
    } else {
      RunNoLoss(ps, steps, n - 1);
      StepNoLoss(ps[n - 1], steps[n - 1]);
    }
  }

  /** The least signalled index from i on. */
  function LeastSignalled(p: Pool, i: nat, k: nat): (j: nat)
    requires i <= k && Signalled(p, k) && forall m :: 0 <= m < i ==> !Signalled(p, m)
    ensures Signalled(p, j) && forall m :: 0 <= m < j ==> !Signalled(p, m)
    decreases k - i
  {
    if Signalled(p, i) then i else LeastSignalled(p, i + 1, k)
  }

  /** A step other than a time-out that is possible. */
  lemma ProgressStep(p: Pool) returns (s: Step)
    requires NoLoss(p) && !p.pc.Exited?
    ensures Can(p, s) && s != TimeOut
  {
    match p.pc
    case Scan(i) => s := if i < |p.workers| then Look else StartWait;
    case Woke(k) => s := Judge;
    case AtWait =>
      var i := SomeLoad(p.workers);
      var w := p.workers[i];
      assert WorkerOk(w) && DueOk(p, i);
      if w.finished {
        s := Receive(LeastSignalled(p, 0, i));
      } else {
        match w.pc
        case Idle => s := Wake(i);
        case Woken => s := Begin(i);
        case Running(u) => s := End(i);
        case Done => s := Clear(i);
        case Cleared => s := Signal(i);
      }
  }

  // ---- Steps other than time-outs cannot go on for ever ----

  /** How far a worker is from having its round counted, in steps. */
  function Stage(w: Worker): nat {
    (if w.finished then 2 else 0) + (if w.hasData then 7 else 0) +
    match w.pc
    case Idle => 0
    case Woken => 6
    case Running(_) => 5
    case Done => 4
    case Cleared => 3
  }

  function Stages(workers: seq<Worker>): nat {
    if workers == [] then 0 else Stages(workers[..|workers| - 1]) + Stage(workers[|workers| - 1])
  }

  lemma {:induction false} StagesChange(workers: seq<Worker>, i: nat, w: Worker)
    requires i < |workers|
    ensures Stages(workers[i := w]) == Stages(workers) - Stage(workers[i]) + Stage(w)
  {
    var n := |workers| - 1;
    if i < n {
      StagesChange(workers[..n], i, w);
      assert workers[i := w][..n] == workers[..n][i := w];
    } else {
      assert workers[i := w][..n] == workers[..n];
    }
  }

  function StagesLeft(p: Pool): int {
    8 * (p.urls - Assigned(p)) + Stages(p.workers) + Received(p)
  }

  function ScanLeft(p: Pool): int {
    if p.pc.Scan? then |p.workers| + 1 - p.pc.i else 0
  }

  /** n times c, by repeated addition. */
  function Times(n: int, c: nat): nat
    decreases n
  {
    if n <= 0 then 0 else Times(n - 1, c) + c
  }

  function Rank(p: Pool): int {
    Times(StagesLeft(p), |p.workers| + 3) + ScanLeft(p)
  }

  lemma LookStages(p: Pool)
    requires Inv(p) && Can(p, Look)
    ensures StagesLeft(Do(p, Look)) <= StagesLeft(p)
  {
    if !p.workers[p.pc.i].busy && Assigned(p) < p.urls {
      StagesChange(p.workers, p.pc.i, Do(p, Look).workers[p.pc.i]);
      assert WorkerOk(p.workers[p.pc.i]);
    }
  }

  lemma StagesFall(p: Pool, s: Step)
    requires Inv(p) && Can(p, s)
    ensures StagesLeft(Do(p, s)) <= StagesLeft(p)
    ensures !s.Look? && !s.StartWait? && !s.TimeOut? ==> StagesLeft(Do(p, s)) < StagesLeft(p)
  {
    var q := Do(p, s);
    match s
    case Look => LookStages(p);
    case StartWait =>
    case Receive(k) => StagesChange(p.workers, k, q.workers[k]);
    case TimeOut =>
    case Judge =>
    case Wake(i) => StagesChange(p.workers, i, q.workers[i]);
    case Begin(i) => StagesChange(p.workers, i, q.workers[i]);
    case End(i) => StagesChange(p.workers, i, q.workers[i]);
    case Clear(i) => StagesChange(p.workers, i, q.workers[i]);
    case Signal(i) => StagesChange(p.workers, i, q.workers[i]);
  }

  lemma {:induction false} TimesIs(n: nat, c: nat)
    ensures Times(n, c) == n * c
  {
    if n > 0 {
      TimesIs(n - 1, c);
    }
  }

  lemma {:induction false} TimesFalls(a: int, b: int, c: nat)
    requires b <= a
    ensures Times(b, c) <= Times(a, c)
    ensures 0 <= b < a ==> Times(b, c) + c <= Times(a, c)
    decreases a - b
  {
    if b < a {
      TimesFalls(a - 1, b, c);
    }
  }

  lemma RankFalls(p: Pool, s: Step)
    requires Inv(p) && Can(p, s)
    ensures Inv(Do(p, s)) && |Do(p, s).workers| == |p.workers|
    ensures Rank(Do(p, s)) < Rank(p) + if s.TimeOut? then |p.workers| + 2 else 0
  {
    StepInv(p, s);
    StagesFall(p, s);
    TimesFalls(StagesLeft(p), StagesLeft(Do(p, s)), |p.workers| + 3);
  }

  function TimeOuts(steps: seq<Step>): nat {
    if steps == [] then 0
    else TimeOuts(steps[..|steps| - 1]) + if steps[|steps| - 1] == TimeOut then 1 else 0
  }

  lemma {:induction false} RunRankFalls(ps: seq<Pool>, steps: seq<Step>, n: nat)
    requires Run(ps, steps) && n < |steps|
    ensures Rank(ps[n + 1]) < Rank(ps[n]) + if steps[n].TimeOut? then |ps[0].workers| + 2 else 0
    ensures |ps[n + 1].workers| == |ps[0].workers|
  {
    RunInv(ps, steps, n);
    RankFalls(ps[n], steps[n]);
    if n > 0 {
      RunRankFalls(ps, steps, n - 1);
    }
  }

  /** What falls by one in every step, and rises by less than w + 2 in a time-out, bounds the steps. */
  lemma {:induction false} Descent(ranks: seq<int>, steps: seq<Step>, w: nat, n: nat)
    requires n <= |steps| < |ranks|
    requires forall i :: 0 <= i < |steps| ==> ranks[i + 1] < ranks[i] + if steps[i].TimeOut? then w + 2 else 0
    ensures ranks[n] + n <= ranks[0] + Times(TimeOuts(steps[..n]), w + 2)
  {
    if n > 0 {
      Descent(ranks, steps, w, n - 1);
      assert steps[..n][..n - 1] == steps[..n - 1];
      assert ranks[n - 1 + 1] == ranks[n];
    }
  }

  lemma StartRank(p: Pool)
    requires Starts(p)
    ensures Rank(p) <= Times(8 * p.urls + 1, |p.workers| + 3)
  {
    QuietStages(p.workers);
  }

  function Ranks(ps: seq<Pool>): (ranks: seq<int>)
    ensures |ranks| == |ps| && forall i :: 0 <= i < |ps| ==> ranks[i] == Rank(ps[i])
  {
    if ps == [] then [] else [Rank(ps[0])] + Ranks(ps[1..])
  }

  lemma RunRanksFall(ps: seq<Pool>, steps: seq<Step>, ranks: seq<int>, w: nat)
    requires Run(ps, steps) && ranks == Ranks(ps) && w == |ps[0].workers|
    ensures forall n :: 0 <= n < |steps| ==> ranks[n + 1] < ranks[n] + if steps[n].TimeOut? then w + 2 else 0
  {
    forall n | 0 <= n < |steps|
      ensures ranks[n + 1] < ranks[n] + if steps[n].TimeOut? then w + 2 else 0
    {
      RunRankFalls(ps, steps, n);
    }
  }

  lemma EndRank(ps: seq<Pool>, steps: seq<Step>)
    requires Run(ps, steps)
    ensures Rank(ps[|steps|]) >= 0 && Starts(ps[0])
  {
    RunInv(ps, steps, |steps|);
  }

  lemma RunLength(ps: seq<Pool>, steps: seq<Step>, w: nat, ranks: seq<int>)
    requires Run(ps, steps) && w == |ps[0].workers| && ranks == Ranks(ps)
    ensures |steps| <= Times(8 * ps[0].urls + 1, w + 3) + Times(TimeOuts(steps), w + 2)
  {
    RunRanksFall(ps, steps, ranks, w);
    Descent(ranks, steps, w, |steps|);
    assert steps[..|steps|] == steps;
    EndRank(ps, steps);
    StartRank(ps[0]);
  }

  /** A call with n URLs and w workers takes at most (8n + 1)(w + 3) steps beyond w + 2 for each time-out. */
  lemma LengthTheorem(ps: seq<Pool>, steps: seq<Step>, n: nat, w: nat)
    requires Run(ps, steps) && ps[0].urls == n && |ps[0].workers| == w
    ensures |steps| <= (8 * n + 1) * (w + 3) + TimeOuts(steps) * (w + 2)
  {
    RunLength(ps, steps, w, Ranks(ps));
    TimesIs(8 * n + 1, w + 3);
    TimesIs(TimeOuts(steps), w + 2);
  }

  lemma {:induction false} QuietStages(workers: seq<Worker>)
    requires Quiet(workers)
    ensures Stages(workers) == 0
  {
    if workers != [] {
      QuietStages(workers[..|workers| - 1]);
    }
  }

  // ---- With more URLs than workers a completion can be lost ----

  predicate Plays(p: Pool, steps: seq<Step>, q: Pool)
    decreases |steps|
  {
    if steps == [] then p == q
    else Can(p, steps[0]) && Plays(Do(p, steps[0]), steps[1..], q)
  }

  lemma {:induction false} PlaysOn(p: Pool, steps: seq<Step>, q: Pool, more: seq<Step>, r: Pool)
    requires Plays(p, steps, q) && Plays(q, more, r)
    ensures Plays(p, steps + more, r)
    decreases |steps|
  {
    if steps == [] {
      assert steps + more == more;
    } else {
      PlaysOn(Do(p, steps[0]), steps[1..], q, more, r);
      assert (steps + more)[1..] == steps[1..] + more;
    }
  }

  lemma PlaysStep(p: Pool, steps: seq<Step>, q: Pool, s: Step)
    requires Plays(p, steps, q) && Can(q, s)
    ensures Plays(p, steps + [s], Do(q, s))
  {
    assert [s][1..] == [];
    assert Plays(Do(q, s), [], Do(q, s));
    PlaysOn(p, steps, q, [s], Do(q, s));
  }

  /** The states that a played sequence of steps goes through. */
  lemma {:induction false} Traced(p: Pool, steps: seq<Step>, q: Pool) returns (ps: seq<Pool>)
    requires Plays(p, steps, q)
    ensures |ps| == |steps| + 1 && ps[0] == p && ps[|steps|] == q
    ensures forall i :: 0 <= i < |steps| ==> Can(ps[i], steps[i]) && ps[i + 1] == Do(ps[i], steps[i])
    decreases |steps|
  {
    if steps == [] {
      ps := [p];
    } else {
      var rest := Traced(Do(p, steps[0]), steps[1..], q);
      ps := [p] + rest;
      forall i | 0 <= i < |steps|
        ensures Can(ps[i], steps[i]) && ps[i + 1] == Do(ps[i], steps[i])
      {
        if i > 0 {
          assert ps[i] == rest[i - 1] && ps[i + 1] == rest[i] && steps[i] == steps[1..][i - 1];
        }
      }
    }
  }

  predicate Loaded(w: Worker) {
    w.busy && w.hasData && w.data.Some? && !w.finished && w.pc == Idle
  }

  /** The dispatcher has handed a URL to each of the first i workers. */
  predicate HandedOut(p: Pool, i: nat) {
    && Inv(p) && Accounted(p) && p.counted == 0 && p.pc == Scan(i) && i <= |p.workers| < p.urls && Assigned(p) == i
    && (forall j :: 0 <= j < i ==> Loaded(p.workers[j]))
    && (forall j :: i <= j < |p.workers| ==> QuietWorker(p.workers[j]))
  }

  lemma {:induction false} FirstPass(p: Pool, i: nat) returns (steps: seq<Step>, q: Pool)
    requires HandedOut(p, i)
    ensures Plays(p, steps, q) && HandedOut(q, |p.workers|) && |q.workers| == |p.workers| && q.urls == p.urls
    decreases |p.workers| - i
  {
    if i == |p.workers| {
      steps, q := [], p;
    } else {
      StepInv(p, Look);
      StepOutstanding(p, Look);
      assert QuietWorker(p.workers[i]);
      var rest;
      rest, q := FirstPass(Do(p, Look), i + 1);
      steps := [Look] + rest;
      assert steps[1..] == rest;
    }
  }

  /** A pass over busy workers changes nothing. */
  lemma {:induction false} IdlePass(p: Pool, i: nat) returns (steps: seq<Step>)
    requires p.pc == Scan(i) && i <= |p.workers| && forall j :: i <= j < |p.workers| ==> p.workers[j].busy
    ensures Plays(p, steps, p.(pc := Scan(|p.workers|)))
    decreases |p.workers| - i
  {
    if i == |p.workers| {
      steps := [];
    } else {
      var rest := IdlePass(Do(p, Look), i + 1);
      steps := [Look] + rest;
      assert steps[1..] == rest;
    }
  }

  /** Worker 0 took its URL up, visited it and cleared its flag; the other workers did nothing yet. */
  predicate FlagDown(p: Pool) {
    && Inv(p) && Accounted(p) && p.counted == 0 && 1 <= |p.workers| == Assigned(p) < p.urls && p.pc == Scan(0)
    && !p.workers[0].busy && !p.workers[0].hasData && !p.workers[0].finished && p.workers[0].pc == Cleared
    && forall j :: 1 <= j < |p.workers| ==> Loaded(p.workers[j])
  }

  /** Worker 0 got a second URL before it signalled the first. */
  predicate FlagUp(p: Pool) {
    && Inv(p) && Accounted(p) && p.counted == 0 && 1 <= |p.workers| && p.pc == Scan(1)
    && p.workers[0].busy && p.workers[0].finished
    && forall j :: 1 <= j < |p.workers| ==> p.workers[j].busy
  }

  lemma Kept(p: Pool, steps: seq<Step>, q: Pool, s: Step) returns (more: seq<Step>)
    requires Plays(p, steps, q) && Inv(q) && Accounted(q) && Can(q, s) && !Loses(q, s)
    ensures Plays(p, more, Do(q, s)) && Inv(Do(q, s)) && Accounted(Do(q, s))
  {
    PlaysStep(p, steps, q, s);
    StepInv(q, s);
    StepOutstanding(q, s);
    more := steps + [s];
  }

  /** As `FlagDown`, with worker 0 still visiting. */
  predicate Visiting(p: Pool) {
    && Inv(p) && Accounted(p) && p.counted == 0 && 1 <= |p.workers| == Assigned(p) < p.urls && p.pc == Scan(0)
    && !p.workers[0].hasData && !p.workers[0].finished && p.workers[0].pc.Running?
    && forall j :: 1 <= j < |p.workers| ==> Loaded(p.workers[j])
  }

  /** A wait that times out starts the next pass. */
  lemma WaitOut(p: Pool) returns (steps: seq<Step>)
    requires 1 <= |p.workers| && HandedOut(p, |p.workers|)
    ensures Plays(p, steps, p.(pc := Scan(0))) && Inv(p.(pc := Scan(0)))
  {
    assert Plays(p, [], p);
    steps := Kept(p, [], p, StartWait);
    steps := Kept(p, steps, p.(pc := AtWait), TimeOut);
  }

  lemma TakeUp(p: Pool) returns (steps: seq<Step>, q: Pool)
    requires 1 <= |p.workers| && HandedOut(p, |p.workers|)
    ensures Plays(p, steps, q) && Visiting(q)
  {
    assert Loaded(p.workers[0]);
    steps := WaitOut(p);
    q := p.(pc := Scan(0));
    steps := Kept(p, steps, q, Wake(0));
    q := Do(q, Wake(0));
    steps := Kept(p, steps, q, Begin(0));
    q := Do(q, Begin(0));
  }

  lemma LowerFlag(p: Pool) returns (steps: seq<Step>, q: Pool)
    requires Visiting(p)
    ensures Plays(p, steps, q) && FlagDown(q)
  {
    assert DueOk(p, 0);
    assert Plays(p, [], p);
    steps := Kept(p, [], p, End(0));
    q := Do(p, End(0));
    steps := Kept(p, steps, q, Clear(0));
    q := Do(q, Clear(0));
  }

  lemma RaiseFlag(p: Pool) returns (steps: seq<Step>, q: Pool)
    requires FlagDown(p)
    ensures Plays(p, steps, q) && FlagUp(q)
  {
    assert Plays(p, [], p);
    steps := Kept(p, [], p, Look);
    var p1 := Do(p, Look);
    steps := Kept(p, steps, p1, Signal(0));
    q := Do(p1, Signal(0));
  }

  lemma LoseOne(p: Pool) returns (steps: seq<Step>, q: Pool)
    requires FlagUp(p)
    ensures Plays(p, steps, q) && !Accounted(q)
  {
    steps := IdlePass(p, 1);
    var p1 := p.(pc := Scan(|p.workers|));
    assert Inv(p1) by {
      WorkerSame(p, p1);
    }
    steps := Kept(p, steps, p1, StartWait);
    var p2 := Do(p1, StartWait);
    steps := Kept(p, steps, p2, Receive(0));
    var p3 := Do(p2, Receive(0));
    PlaysStep(p, steps, p3, Judge);
    StepOutstanding(p3, Judge);
    steps, q := steps + [Judge], Do(p3, Judge);
  }

  lemma LossRun(p: Pool) returns (steps: seq<Step>, q: Pool)
    requires Starts(p) && 1 <= |p.workers| < p.urls
    ensures Plays(p, steps, q) && !Accounted(q)
  {
    StartInv(p);
    var q1, q2, q3, q4, more;
    steps, q1 := FirstPass(p, 0);
    more, q2 := TakeUp(q1);
    PlaysOn(p, steps, q1, more, q2);
    steps := steps + more;
    more, q3 := LowerFlag(q2);
    PlaysOn(p, steps, q2, more, q3);
    steps := steps + more;
    more, q4 := RaiseFlag(q3);
    PlaysOn(p, steps, q3, more, q4);
    steps := steps + more;
    more, q := LoseOne(q4);
    PlaysOn(p, steps, q4, more, q);
    steps := steps + more;
  }

  ghost predicate Loseable(p: Pool) {
    exists ps: seq<Pool>, steps: seq<Step> :: Run(ps, steps) && ps[0] == p && !Accounted(ps[|steps|])
  }

  /** The exact condition: a call can lose a completion if and only if it has more URLs than workers. */
  lemma LossTheorem(p: Pool)
    requires Starts(p) && 1 <= |p.workers|
    ensures Loseable(p) <==> p.urls > |p.workers|
  {
    if p.urls > |p.workers| {
      var steps, q := LossRun(p);
      var ps := Traced(p, steps, q);
      assert Run(ps, steps);
    } else if Loseable(p) {
      var ps: seq<Pool>, steps: seq<Step> :| Run(ps, steps) && ps[0] == p && !Accounted(ps[|steps|]);
      RunNoLoss(ps, steps, |steps|);
    }
  }

  /** With enough workers, before the exit some step other than a time-out is always possible. */
  lemma ProgressTheorem(ps: seq<Pool>, steps: seq<Step>, n: nat)
    requires Run(ps, steps) && n <= |steps| && ps[0].urls <= |ps[0].workers|
    ensures Accounted(ps[n])
    ensures ps[n].pc.Exited? || exists s :: Can(ps[n], s) && s != TimeOut
  {
    RunNoLoss(ps, steps, n);
    if !ps[n].pc.Exited? {
      var s := ProgressStep(ps[n]);
    }
  }
}
