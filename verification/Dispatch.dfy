/** The server refines a small machine that only hands out, requeues, closes and splits jobs.
    On it: how often the URLs of one initial group can be handed out, and how deep the deque gets. */
module Dispatch {
  import opened Prelude
  import opened UrlGroups
  import opened Lifecycle
  import opened GroupLedger
  import opened Scheduler
  import opened Holding
  import opened Conservation

  datatype Job = Job(urls: seq<UrlId>, failed: bool, origin: GroupId)
  datatype Core = Core(jobs: map<GroupId, Job>, deque: seq<GroupId>, held: set<GroupId>, next: GroupId, log: seq<GroupId>)

  /** `times` is how often one step splits the job: once, or with every notification of a failure. */
  datatype Move =
    | Stay
    | Pop
    | Admit(batch: seq<UrlId>)
    | Retry(g: GroupId)
    | Close(g: GroupId, failed: bool)
    | Halve(g: GroupId, failed: bool, times: nat)

  predicate Can(a: Core, m: Move) {
    match m
    case Stay => true
    case Pop => a.deque != []
    case Admit(batch) => a.deque == [] && batch != []
    case Retry(g) => g in a.held && g in a.jobs && !a.jobs[g].failed
    case Close(g, failed) => g in a.held && g in a.jobs
    case Halve(g, failed, times) =>
      g in a.held && g in a.jobs && g < a.next && |a.jobs[g].urls| > 1 && 1 <= times <= 3
  }

  function LeftHalf(job: Job): Job {
    Job(job.urls[..|job.urls| / 2], false, job.origin)
  }

  function RightHalf(job: Job): Job {
    Job(job.urls[|job.urls| / 2..], false, job.origin)
  }

  /** Both halves of a job are queued; the job itself is no longer held. */
  function HalveOnce(a: Core, g: GroupId, failed: bool): Core
    requires g in a.jobs
  {
    Core(a.jobs[g := a.jobs[g].(failed := failed)][a.next := LeftHalf(a.jobs[g])][a.next + 1 := RightHalf(a.jobs[g])],
         [a.next + 1, a.next] + a.deque, a.held - {g}, a.next + 2, a.log)
  }

  function HalveTimes(a: Core, g: GroupId, failed: bool, times: nat): Core
    requires g in a.jobs && g < a.next
    decreases times
  {
    if times == 0 then a else HalveTimes(HalveOnce(a, g, failed), g, failed, times - 1)
  }

  function Do(a: Core, m: Move): Core
    requires Can(a, m)
  {
    match m
    case Stay => a
    case Pop => Core(a.jobs, a.deque[1..], a.held + {a.deque[0]}, a.next, a.log + [a.deque[0]])
    case Admit(batch) =>
      Core(a.jobs[a.next := Job(batch, false, a.next)], a.deque, a.held + {a.next}, a.next + 1, a.log + [a.next])
    case Retry(g) => Core(a.jobs[g := a.jobs[g].(failed := true)], [g] + a.deque, a.held - {g}, a.next, a.log)
    case Close(g, failed) => Core(a.jobs[g := a.jobs[g].(failed := failed)], a.deque, a.held - {g}, a.next, a.log)
    case Halve(g, failed, times) => HalveTimes(a, g, failed, times)
  }

  // ---- Refinement ----

  function JobOf(g: Group): Job {
    Job(g.urls, g.errorCount > 0, g.origin)
  }

  function Jobs(p: Pool): map<GroupId, Job> {
    map g | g in p.groups :: JobOf(p.groups[g])
  }

  function CoreOf(p: Pool, held: set<GroupId>, log: seq<GroupId>): Core {
    Core(Jobs(p), p.deque, held, p.next, log)
  }

  function Abs(s: Server): Core {
    CoreOf(s.pool, Held(s.fleet), s.dispatched)
  }

  lemma TouchedJobs(p: Pool, q: Pool, g: GroupId)
    requires g in p.groups && Touched(p, q, g)
    ensures Jobs(q) == Jobs(p)
  {
  }

  lemma FailedJobs(p: Pool, q: Pool, g: GroupId)
    requires g in p.groups && Failed(p, q, g)
    ensures Jobs(q) == Jobs(p)[g := Jobs(p)[g].(failed := true)]
  {
  }

  lemma SplitJobs(p: Pool, q: Pool, g: GroupId)
    requires g in p.groups && (forall h :: h in p.groups ==> h < p.next) && SplitOff(p, q, g)
    ensures Jobs(q) == Jobs(p)[g := Jobs(p)[g].(failed := q.groups[g].errorCount > 0)]
                              [p.next := LeftHalf(Jobs(p)[g])][p.next + 1 := RightHalf(Jobs(p)[g])]
  {
  }

  /** The move of a failure. */
  lemma FailureMove(p: Pool, q: Pool, g: GroupId, held: set<GroupId>, log: seq<GroupId>) returns (m: Move)
    requires g in p.groups && g in held && Failed(p, q, g)
    ensures Can(CoreOf(p, held, log), m) && CoreOf(q, held - {g}, log) == Do(CoreOf(p, held, log), m)
    ensures m == if p.groups[g].errorCount == 0 then Retry(g) else Close(g, true)
  {
    FailedJobs(p, q, g);
    m := if p.groups[g].errorCount == 0 then Retry(g) else Close(g, true);
  }

  /** One split of a group, held or already let go. */
  lemma SplitHalves(p: Pool, q: Pool, g: GroupId, held: set<GroupId>, log: seq<GroupId>)
    requires g in p.groups && (forall h :: h in p.groups ==> h < p.next) && SplitOff(p, q, g)
    ensures CoreOf(q, held - {g}, log) == HalveOnce(CoreOf(p, held, log), g, q.groups[g].errorCount > 0)
  {
    SplitJobs(p, q, g);
  }

  /** The move of a VISITED or ERROR notification. */
  lemma NotifyMove(p: Pool, g: GroupId, state: GroupState, held: set<GroupId>, log: seq<GroupId>) returns (m: Move)
    requires g in p.groups && g in held && (forall h :: h in p.groups ==> h < p.next)
    requires state == GroupVisited || state == GroupError
    ensures Can(CoreOf(p, held, log), m) && CoreOf(Notify(p, g, state), held - {g}, log) == Do(CoreOf(p, held, log), m)
    ensures Armed(p.groups[g]) ==> m.Halve? && m.g == g && m.times == 1
    ensures !Armed(p.groups[g]) && state == GroupVisited ==> m.Close? && m.g == g
    ensures !Armed(p.groups[g]) && state == GroupError ==> (m.Retry? || m.Close?) && m.g == g
    ensures state == GroupVisited ==> m.failed == (p.groups[g].errorCount > 0)
  {
    var q := Notify(p, g, state);
    if Armed(p.groups[g]) {
      NotifySplits(p, g, state);
      SplitHalves(p, q, g, held, log);
      m := Halve(g, q.groups[g].errorCount > 0, 1);
      assert HalveTimes(HalveOnce(CoreOf(p, held, log), g, m.failed), g, m.failed, 0)
          == HalveOnce(CoreOf(p, held, log), g, m.failed);
    } else if state == GroupVisited {
      NotifyFinishes(p, g);
      TouchedJobs(p, q, g);
      m := Close(g, p.groups[g].errorCount > 0);
      assert Jobs(p)[g := Jobs(p)[g]] == Jobs(p);
    } else {
      NotifyErrorFails(p, g);
      m := FailureMove(p, q, g, held, log);
    }
  }

  /** An error notification of an armed group is one split and leaves it armed. */
  lemma ErrorHalves(p: Pool, q: Pool, g: GroupId, held: set<GroupId>, log: seq<GroupId>)
    requires g in p.groups && (forall h :: h in p.groups ==> h < p.next) && Armed(p.groups[g]) && q == Notify(p, g, GroupError)
    ensures g in q.groups && Armed(q.groups[g]) && CoreOf(q, held - {g}, log) == HalveOnce(CoreOf(p, held, log), g, true)
  {
    NotifySplits(p, g, GroupError);
    SplitHalves(p, q, g, held, log);
  }

  lemma MajorSame(p: Pool, g: GroupId, code: int, held: set<GroupId>, log: seq<GroupId>)
    requires g in p.groups
    ensures CoreOf(SetMajor(p, g, code), held, log) == CoreOf(p, held, log)
  {
    TouchedJobs(p, SetMajor(p, g, code), g);
  }

  /** The two notifications of a disconnect split an armed group twice. */
  lemma FailHeldHalves(p: Pool, g: GroupId, held: set<GroupId>, log: seq<GroupId>)
    requires g in p.groups && (forall h :: h in p.groups ==> h < p.next) && Armed(p.groups[g])
    ensures var q := FailHeld(p, g);
            && g in q.groups && Armed(q.groups[g])
            && CoreOf(q, held - {g}, log) == HalveTimes(CoreOf(p, held, log), g, true, 2)
  {
    var p1 := Notify(p, g, GroupError);
    var p2 := SetMajor(p1, g, CONNECTION_RESET);
    ErrorHalves(p, p1, g, held, log);
    MajorSame(p1, g, CONNECTION_RESET, held - {g}, log);
    assert held - {g} - {g} == held - {g};
    ErrorHalves(p2, FailHeld(p, g), g, held - {g}, log);
    TwoHalves(CoreOf(p, held, log), g);
  }

  lemma TwoHalves(a: Core, g: GroupId)
    requires g in a.jobs && g < a.next
    ensures HalveTimes(a, g, true, 2) == HalveOnce(HalveOnce(a, g, true), g, true)
    ensures HalveTimes(a, g, true, 3) == HalveTimes(HalveOnce(a, g, true), g, true, 2)
  {
    var b := HalveOnce(a, g, true);
    assert HalveTimes(a, g, true, 2) == HalveTimes(b, g, true, 1) == HalveTimes(HalveOnce(b, g, true), g, true, 0);
  }

  /** A disconnect: two splits if the group is armed, one failure otherwise. */
  lemma FailHeldMove(p: Pool, g: GroupId, held: set<GroupId>, log: seq<GroupId>) returns (m: Move)
    requires g in p.groups && g in held && (forall h :: h in p.groups ==> h < p.next)
    ensures Can(CoreOf(p, held, log), m) && CoreOf(FailHeld(p, g), held - {g}, log) == Do(CoreOf(p, held, log), m)
    ensures m == if Armed(p.groups[g]) then Halve(g, true, 2)
                 else if p.groups[g].errorCount == 0 then Retry(g) else Close(g, true)
  {
    if Armed(p.groups[g]) {
      FailHeldHalves(p, g, held, log);
      m := Halve(g, true, 2);
    } else {
      FailHeldFails(p, g);
      m := FailureMove(p, FailHeld(p, g), g, held, log);
    }
  }

  /** A timeout: three splits if the group is armed, one failure otherwise. */
  lemma TimeoutPoolMove(p: Pool, q: Pool, g: GroupId, code: int, held: set<GroupId>, log: seq<GroupId>) returns (m: Move)
    requires g in p.groups && g in held && (forall h :: h in p.groups ==> h < p.next)
    requires q == FailHeld(Notify(SetMajor(p, g, code), g, GroupError), g)
    ensures Can(CoreOf(p, held, log), m) && CoreOf(q, held - {g}, log) == Do(CoreOf(p, held, log), m)
    ensures m == if Armed(p.groups[g]) then Halve(g, true, 3)
                 else if p.groups[g].errorCount == 0 then Retry(g) else Close(g, true)
  {
    if Armed(p.groups[g]) {
      MajorSame(p, g, code, held, log);
      ErrorHalves(SetMajor(p, g, code), Notify(SetMajor(p, g, code), g, GroupError), g, held, log);
      FailHeldHalves(Notify(SetMajor(p, g, code), g, GroupError), g, held - {g}, log);
      assert held - {g} - {g} == held - {g};
      TwoHalves(CoreOf(p, held, log), g);
      m := Halve(g, true, 3);
    } else {
      TimeoutFails(p, g, code);
      m := FailureMove(p, q, g, held, log);
    }
  }

  /** A failed send: three splits if the group is armed, one failure otherwise. */
  lemma FailedSendMove(p: Pool, q: Pool, g: GroupId, held: set<GroupId>, log: seq<GroupId>) returns (m: Move)
    requires g in p.groups && g in held && (forall h :: h in p.groups ==> h < p.next)
    requires q == Notify(SetMajor(FailHeld(p, g), g, PROCESS_ERROR), g, GroupError)
    ensures Can(CoreOf(p, held, log), m) && CoreOf(q, held - {g}, log) == Do(CoreOf(p, held, log), m)
    ensures m == if Armed(p.groups[g]) then Halve(g, true, 3)
                 else if p.groups[g].errorCount == 0 then Retry(g) else Close(g, true)
  {
    if Armed(p.groups[g]) {
      FailHeldHalves(p, g, held, log);
      MajorSame(FailHeld(p, g), g, PROCESS_ERROR, held - {g}, log);
      assert held - {g} - {g} == held - {g};
      ErrorHalves(SetMajor(FailHeld(p, g), g, PROCESS_ERROR), q, g, held - {g}, log);
      TwoHalves(CoreOf(p, held, log), g);
      TwoHalves(HalveOnce(CoreOf(p, held, log), g, true), g);
      m := Halve(g, true, 3);
    } else {
      FailedSendFails(p, g);
      m := FailureMove(p, q, g, held, log);
    }
  }

  // ---- Moves of the handlers ----

  /** What step e of s does to the machine, if the pool and the log become these. */
  function Next(s: Server, e: Event, p: Pool, log: seq<GroupId>): Core {
    CoreOf(p, HeldNext(s, e), log)
  }

  /** The move of a visit that ends. */
  lemma CloseMove(s: Server, e: Event, p: Pool, g: GroupId, state: GroupState) returns (m: Move)
    requires Shaped(s) && g in Held(s.fleet) && g in s.pool.groups && Touched(s.pool, p, g)
    requires (state == GroupVisited || state == GroupError) && HeldNext(s, e) == Held(s.fleet) - {g}
    requires forall h :: h in p.groups ==> h < p.next
    ensures Can(Abs(s), m) && Next(s, e, Notify(p, g, state), s.dispatched) == Do(Abs(s), m)
    ensures Armed(p.groups[g]) ==> m.Halve? && m.g == g && m.times == 1
    ensures !Armed(p.groups[g]) && state == GroupVisited ==> m.Close? && m.g == g
    ensures !Armed(p.groups[g]) && state == GroupError ==> (m.Retry? || m.Close?) && m.g == g
    ensures state == GroupVisited ==> m.failed == (s.pool.groups[g].errorCount > 0)
  {
    TouchedJobs(s.pool, p, g);
    m := NotifyMove(p, g, state, Held(s.fleet), s.dispatched);
  }

  lemma HandMove(s: Server, e: Event, p: Pool, g: GroupId, log: seq<GroupId>) returns (m: Move)
    requires e.Take? && g in p.groups && g !in Held(s.fleet) && (forall h :: h in p.groups ==> h < p.next)
    requires HeldNext(s, e) == Held(s.fleet) + if e.ok then {g} else {}
    ensures var a := CoreOf(p, Held(s.fleet) + {g}, log);
            var q := if e.ok then p else Notify(SetMajor(FailHeld(p, g), g, PROCESS_ERROR), g, GroupError);
            Can(a, m) && Next(s, e, q, log) == Do(a, m)
    ensures m == if e.ok then Stay
                 else if Armed(p.groups[g]) then Halve(g, true, 3)
                 else if p.groups[g].errorCount == 0 then Retry(g) else Close(g, true)
  {
    m := Stay;
    if !e.ok {
      var q := Notify(SetMajor(FailHeld(p, g), g, PROCESS_ERROR), g, GroupError);
      m := FailedSendMove(p, q, g, Held(s.fleet) + {g}, log);
      assert Held(s.fleet) + {g} - {g} == Held(s.fleet) == HeldNext(s, e);
    }
  }

  lemma PopMove(s: Server, e: Event, t: Server) returns (m: Move)
    requires Shaped(s) && Resolved(s) && e.Take? && e.client in s.fleet.clients && s.pool.deque != []
    requires t == OnTake(s, e.client, e.batch, e.ok)
    ensures Can(Do(Abs(s), Pop), m) && Next(s, e, t.pool, t.dispatched) == Do(Do(Abs(s), Pop), m)
    ensures !m.Pop? && !m.Admit? && (e.ok ==> m.Stay?)
    ensures Unarmed(s.pool, {}) ==> !m.Halve?
  {
    var g := s.pool.deque[0];
    assert Active(s.pool, {}, g);
    m := HandMove(s, e, s.pool.(deque := s.pool.deque[1..]), g, s.dispatched + [g]);
  }

  lemma AdmitMove(s: Server, e: Event, t: Server) returns (m: Move)
    requires Shaped(s) && Resolved(s) && e.Take? && e.client in s.fleet.clients && s.pool.deque == [] && e.batch != []
    requires t == OnTake(s, e.client, e.batch, e.ok)
    ensures Can(Do(Abs(s), Admit(e.batch)), m) && Next(s, e, t.pool, t.dispatched) == Do(Do(Abs(s), Admit(e.batch)), m)
    ensures !m.Pop? && !m.Admit? && !m.Halve? && (e.ok ==> m.Stay?)
  {
    AdmitCore(s, e.batch);
    m := HandMove(s, e, NewGroup(s.pool, e.batch), s.pool.next, s.dispatched + [s.pool.next]);
  }

  lemma AdmitCore(s: Server, batch: seq<UrlId>)
    requires Shaped(s) && s.pool.deque == [] && batch != []
    ensures s.pool.next !in Held(s.fleet)
    ensures CoreOf(NewGroup(s.pool, batch), Held(s.fleet) + {s.pool.next}, s.dispatched + [s.pool.next])
         == Do(Abs(s), Admit(batch))
  {
    NewGroupJobs(s.pool, batch);
    assert Held(s.fleet) <= s.pool.groups.Keys;
  }

  lemma TakeMoves(s: Server, e: Event, t: Server) returns (m1: Move, m2: Move)
    requires Shaped(s) && Resolved(s) && e.Take? && e.client in s.fleet.clients
    requires t == OnTake(s, e.client, e.batch, e.ok)
    ensures Can(Abs(s), m1) && Can(Do(Abs(s), m1), m2) && Next(s, e, t.pool, t.dispatched) == Do(Do(Abs(s), m1), m2)
    ensures m1 == if s.pool.deque != [] then Pop else if e.batch != [] then Admit(e.batch) else Stay
    ensures !m2.Pop? && !m2.Admit? && (e.ok ==> m2.Stay?)
    ensures Unarmed(s.pool, {}) ==> !m2.Halve?
  {
    m1, m2 := Stay, Stay;
    if s.pool.deque != [] {
      m1 := Pop;
      m2 := PopMove(s, e, t);
    } else if e.batch != [] {
      m1 := Admit(e.batch);
      m2 := AdmitMove(s, e, t);
    }
  }

  lemma NewGroupJobs(p: Pool, batch: seq<UrlId>)
    requires forall h :: h in p.groups ==> h < p.next
    ensures p.next !in p.groups && Jobs(NewGroup(p, batch)) == Jobs(p)[p.next := Job(batch, false, p.next)]
  {
  }

  lemma SystemEventMove(s: Server, c: ClientId, t: Server) returns (m: Move)
    requires Shaped(s) && Resolved(s) && Speaks(s, c) && t == OnSystemEvent(s, c)
    ensures Can(Abs(s), m) && Next(s, SystemEvent(c), t.pool, t.dispatched) == Do(Abs(s), m)
    ensures var client := s.fleet.clients[c];
            if client.state == Visiting && client.held.Some? && client.algorithm == Dac
               && |s.pool.groups[client.held.value].urls| > 1
            then (m.Halve? || m.Close?) && m.g == client.held.value && m.failed == (s.pool.groups[m.g].errorCount > 0)
                 && (s.pool.groups[client.held.value].algorithm == Dac ==> m.Halve?) && (m.Halve? ==> m.times == 1)
            else m == Stay
  {
    var client := s.fleet.clients[c];
    m := Stay;
    if client.state == Visiting && client.held.Some? {
      var g := client.held.value;
      HeldGroup(s, c);
      var many := |s.pool.groups[g].urls| > 1;
      SetMaliciousTouches(s.pool, g, client.algorithm, true, None);
      var q := SetMalicious(s.pool, g, client.algorithm, true, None);
      if client.algorithm == Dac && many {
        m := CloseMove(s, SystemEvent(c), q, g, GroupVisited);
      } else if !(client.algorithm == Bulk && many) {
        TouchedJobs(s.pool, q, g);
      }
    }
  }

  lemma StartMove(s: Server, c: ClientId, alg: Algorithm)
    requires Shaped(s) && Resolved(s) && Speaks(s, c)
    ensures Next(s, Start(c, alg), OnStart(s, c, alg).pool, s.dispatched) == Abs(s)
  {
    if s.fleet.clients[c].held.Some? {
      StartTouches(s.pool, s.fleet.clients[c].held.value, alg);
      TouchedJobs(s.pool, OnStart(s, c, alg).pool, s.fleet.clients[c].held.value);
    }
  }

  lemma FinishMove(cfg: Config, s: Server, e: Event, t: Server) returns (m: Move)
    requires Shaped(s) && Resolved(s) && e.Finish? && Speaks(s, e.client)
    requires t == OnFinish(cfg, s, e.client, e.algorithm, e.malicious, e.changed, e.codes)
    ensures Can(Abs(s), m) && Next(s, e, t.pool, t.dispatched) == Do(Abs(s), m)
    ensures var held := s.fleet.clients[e.client].held;
            if held.None? then m == Stay
            else (m.Halve? || m.Close?) && m.g == held.value && m.failed == (s.pool.groups[m.g].errorCount > 0)
                 && (m.Halve? <==> Armed(FinishPool(s.pool, m.g, e.algorithm, e.malicious, e.changed, e.codes).groups[m.g]))
                 && (m.Halve? ==> m.times == 1)
  {
    m := Stay;
    if s.fleet.clients[e.client].held.Some? {
      var g := s.fleet.clients[e.client].held.value;
      HeldGroup(s, e.client);
      FinishTouches(s.pool, g, e.algorithm, e.malicious, e.changed, e.codes);
      m := CloseMove(s, e, FinishPool(s.pool, g, e.algorithm, e.malicious, e.changed, e.codes), g, GroupVisited);
    }
  }

  lemma ErrorMove(cfg: Config, s: Server, e: Event, t: Server) returns (m: Move)
    requires Shaped(s) && Resolved(s) && e.ErrorReport? && Speaks(s, e.client)
    requires t == OnError(cfg, s, e.client, e.algorithm, e.malicious, e.changed, e.codes, e.code)
    ensures Can(Abs(s), m) && Next(s, e, t.pool, t.dispatched) == Do(Abs(s), m)
    ensures var held := s.fleet.clients[e.client].held;
            if held.None? then m == Stay
            else (m.Halve? || m.Close? || m.Retry?) && m.g == held.value && (m.Halve? ==> m.times == 1)
                 && (m.Halve? <==>
                     Armed(ErrorPool(s.pool, m.g, e.algorithm, e.malicious, e.changed, e.codes, e.code).groups[m.g]))
                 && (!RetryCode(e.code) ==> !m.Retry? && m.failed == (s.pool.groups[m.g].errorCount > 0))
  {
    m := Stay;
    if s.fleet.clients[e.client].held.Some? {
      var g := s.fleet.clients[e.client].held.value;
      HeldGroup(s, e.client);
      ErrorTouches(s.pool, g, e.algorithm, e.malicious, e.changed, e.codes, e.code);
      m := CloseMove(s, e, ErrorPool(s.pool, g, e.algorithm, e.malicious, e.changed, e.codes, e.code), g,
                     if RetryCode(e.code) then GroupError else GroupVisited);
    }
  }

  /** The move of a group that fails with its client. */
  predicate FailMove(s: Server, c: ClientId, times: nat, m: Move)
    requires c in s.fleet.clients
  {
    if s.fleet.clients[c].held.None? || s.fleet.clients[c].held.value !in s.pool.groups then m == Stay
    else
      var g := s.fleet.clients[c].held.value;
      m == if Armed(s.pool.groups[g]) then Halve(g, true, times)
           else if s.pool.groups[g].errorCount == 0 then Retry(g) else Close(g, true)
  }

  lemma SendFailureMove(s: Server, c: ClientId, t: Server) returns (m: Move)
    requires Shaped(s) && Resolved(s) && c in s.fleet.clients && s.fleet.clients[c].state != Disconnected
    requires t == OnSendFailure(s, c)
    ensures Can(Abs(s), m) && Next(s, SendFailure(c), t.pool, t.dispatched) == Do(Abs(s), m)
    ensures FailMove(s, c, 2, m)
  {
    m := Stay;
    if s.fleet.clients[c].held.Some? {
      HeldGroup(s, c);
      m := FailHeldMove(s.pool, s.fleet.clients[c].held.value, Held(s.fleet), s.dispatched);
    }
  }

  lemma TimeoutMove(s: Server, v: VmId, code: int, t: Server) returns (m: Move)
    requires Shaped(s) && Resolved(s) && v in s.fleet.vms && t == OnTimeout(s, v, code)
    ensures Can(Abs(s), m) && Next(s, Timeout(v, code), t.pool, t.dispatched) == Do(Abs(s), m)
    ensures if s.fleet.vms[v].client.Some? then FailMove(s, s.fleet.vms[v].client.value, 3, m) else m == Stay
  {
    var client := s.fleet.vms[v].client;
    m := Stay;
    if client.Some? && s.fleet.clients[client.value].held.Some? {
      HeldGroup(s, client.value);
      assert Victim(s.fleet, v) == client;
      m := TimeoutPoolMove(s.pool, t.pool, s.fleet.clients[client.value].held.value, code, Held(s.fleet), s.dispatched);
    }
  }

  lemma SocketMove(s: Server, c: ClientId)
    requires Shaped(s) && Resolved(s) && Speaks(s, c)
    ensures Next(s, SocketFailure(c), OnSocketFailure(s, c).pool, s.dispatched) == Abs(s)
  {
    if s.fleet.clients[c].held.Some? {
      TouchedJobs(s.pool, OnSocketFailure(s, c).pool, s.fleet.clients[c].held.value);
    }
  }

  /** A move that splits at most k times. */
  predicate Within(m: Move, k: nat) {
    m.Halve? ==> m.times <= k
  }

  lemma HandlerMove(cfg: Config, s: Server, e: Event, t: Server) returns (m: Move)
    requires Shaped(s) && Resolved(s) && Enabled(cfg, s, e) && t == Apply(cfg, s, e)
    requires e.SystemEvent? || e.Finish? || e.ErrorReport? || e.SendFailure? || e.Timeout?
    ensures Can(Abs(s), m) && Next(s, e, t.pool, t.dispatched) == Do(Abs(s), m)
    ensures !m.Pop? && !m.Admit? && (!Duplicates(s, e) ==> Within(m, 1))
  {
    match e
    case SystemEvent(c) => m := SystemEventMove(s, c, t);
    case Finish(_, _, _, _, _) => m := FinishMove(cfg, s, e, t);
    case ErrorReport(_, _, _, _, _, _) => m := ErrorMove(cfg, s, e, t);
    case SendFailure(c) => m := SendFailureMove(s, c, t);
    case Timeout(v, code) => m := TimeoutMove(s, v, code, t);
  }

  /** Steps that the machine does not see. */
  lemma OtherMove(cfg: Config, s: Server, e: Event, t: Server)
    requires Shaped(s) && Resolved(s) && Enabled(cfg, s, e) && t == Apply(cfg, s, e)
    requires !e.Take? && !e.SystemEvent? && !e.Finish? && !e.ErrorReport? && !e.SendFailure? && !e.Timeout?
    ensures Next(s, e, t.pool, t.dispatched) == Abs(s)
  {
    if e.Start? {
      StartMove(s, e.client, e.algorithm);
    } else if e.SocketFailure? {
      SocketMove(s, e.client);
    }
  }

  lemma PoolMoves(cfg: Config, s: Server, e: Event, t: Server) returns (m1: Move, m2: Move)
    requires Shaped(s) && Resolved(s) && Enabled(cfg, s, e) && t == Apply(cfg, s, e)
    ensures Can(Abs(s), m1) && Can(Do(Abs(s), m1), m2)
    ensures Next(s, e, t.pool, t.dispatched) == Do(Do(Abs(s), m1), m2)
    ensures !m2.Pop? && !m2.Admit? && (m1.Pop? || m1.Admit? ==> e.Take?)
    ensures m1.Admit? ==> |m1.batch| <= Max(cfg.groupSize, 1)
    ensures Unarmed(s.pool, {}) && !Duplicates(s, e) ==> Within(m1, 1) && Within(m2, 1)
  {
    m1, m2 := Stay, Stay;
    if e.Take? {
      m1, m2 := TakeMoves(s, e, t);
    } else if e.SystemEvent? || e.Finish? || e.ErrorReport? || e.SendFailure? || e.Timeout? {
      m1 := HandlerMove(cfg, s, e, t);
    } else {
      OtherMove(cfg, s, e, t);
    }
  }

  /** Every step of every run is at most two moves; only taking a group hands one out. A move splits a job more than
      once only in the failure of an armed group. */
  lemma StepRefines(cfg: Config, s: Server, e: Event) returns (m1: Move, m2: Move)
    requires Shaped(s) && Enabled(cfg, s, e)
    ensures Resolved(s) && Can(Abs(s), m1) && Can(Do(Abs(s), m1), m2)
    ensures Abs(Apply(cfg, s, e)) == Do(Do(Abs(s), m1), m2)
    ensures !m2.Pop? && !m2.Admit? && (m1.Pop? || m1.Admit? ==> e.Take?)
    ensures m1.Admit? ==> |m1.batch| <= Max(cfg.groupSize, 1)
    ensures Unarmed(s.pool, {}) && !Duplicates(s, e) ==> Within(m1, 1) && Within(m2, 1)
  {
    StepHeld(cfg, s, e);
    m1, m2 := PoolMoves(cfg, s, e, Apply(cfg, s, e));
  }
}
