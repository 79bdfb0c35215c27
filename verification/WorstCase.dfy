/** The bounds on dispatches and depth are attained: for every group size there is a run of the server, with one
    machine and one client at a time, that hands out its only initial group exactly as often as the bound allows. */
module WorstCase {
  import opened Prelude
  import opened UrlGroups
  import opened Lifecycle
  import opened GroupLedger
  import opened Scheduler
  import opened Holding
  import opened Conservation
  import opened OneAlgorithm
  import opened Dispatch
  import opened Budgets
  import opened DispatchBounds

  /** The run leads to s with one group in work at a time; for k == 1 no client goes down holding an armed group. */
  predicate Leads(cfg: Config, states: seq<Server>, events: seq<Event>, s: Server, k: nat) {
    && Run(cfg, states, events) && states[|events|] == s && OneAtATime(states, events)
    && (k == 1 ==> NeverDuplicates(states, events, |events|))
  }

  ghost predicate Reached(cfg: Config, s: Server, k: nat) {
    exists states, events :: Leads(cfg, states, events, s, k)
  }

  lemma InitialReached(cfg: Config, k: nat)
    ensures Reached(cfg, INITIAL, k) && Resolved(INITIAL)
  {
    assert Leads(cfg, [INITIAL], [], INITIAL, k);
  }

  lemma ReachedShaped(cfg: Config, s: Server, k: nat)
    requires Reached(cfg, s, k)
    ensures Shaped(s) && CoreOk(Abs(s)) && Resolved(s)
  {
    var states, events :| Leads(cfg, states, events, s, k);
    RunBounded(cfg, states, events, |events|, 3);
    ShapedResolved(s);
  }

  lemma RunExtends(cfg: Config, states: seq<Server>, events: seq<Event>, e: Event, t: Server)
    requires Run(cfg, states, events) && Resolved(states[|events|]) && Enabled(cfg, states[|events|], e)
    requires t == Apply(cfg, states[|events|], e)
    ensures Run(cfg, states + [t], events + [e])
  {
    var states', events' := states + [t], events + [e];
    forall i | 0 <= i < |events'|
      ensures Resolved(states'[i]) && Enabled(cfg, states'[i], events'[i]) && states'[i + 1] == Apply(cfg, states'[i], events'[i])
    {
      if i < |events| {
        assert states'[i] == states[i] && states'[i + 1] == states[i + 1] && events'[i] == events[i];
      }
    }
  }

  lemma ExtendsOrderly(states: seq<Server>, events: seq<Event>, e: Event, t: Server, k: nat)
    requires |states| == |events| + 1 && OneAtATime(states, events)
    requires (k == 1 ==> NeverDuplicates(states, events, |events|))
    requires (e.Take? ==> Held(states[|events|].fleet) == {}) && (k == 1 ==> !Duplicates(states[|events|], e))
    ensures OneAtATime(states + [t], events + [e])
    ensures k == 1 ==> NeverDuplicates(states + [t], events + [e], |events + [e]|)
  {
  }

  lemma LeadsOn(cfg: Config, states: seq<Server>, events: seq<Event>, s: Server, e: Event, t: Server, k: nat)
    requires Leads(cfg, states, events, s, k) && Resolved(s) && Enabled(cfg, s, e) && t == Apply(cfg, s, e)
    requires (e.Take? ==> Held(s.fleet) == {}) && (k == 1 ==> !Duplicates(s, e))
    ensures Leads(cfg, states + [t], events + [e], t, k)
  {
    RunExtends(cfg, states, events, e, t);
    ExtendsOrderly(states, events, e, t, k);
  }

  lemma StepReached(cfg: Config, s: Server, e: Event, t: Server, k: nat)
    requires Reached(cfg, s, k) && Resolved(s) && Enabled(cfg, s, e) && t == Apply(cfg, s, e)
    requires (e.Take? ==> Held(s.fleet) == {}) && (k == 1 ==> !Duplicates(s, e))
    ensures Reached(cfg, t, k)
  {
    var states, events :| Leads(cfg, states, events, s, k);
    LeadsOn(cfg, states, events, s, e, t, k);
  }

  /** One more step. */
  lemma Advance(cfg: Config, s: Server, e: Event, t: Server, k: nat)
    requires Reached(cfg, s, k) && Resolved(s) && Enabled(cfg, s, e) && t == Apply(cfg, s, e)
    requires (e.Take? ==> Held(s.fleet) == {}) && (k == 1 ==> !Duplicates(s, e))
    ensures Reached(cfg, t, k) && Shaped(t) && Resolved(t) && CoreOk(Abs(t)) && Held(t.fleet) == HeldNext(s, e)
  {
    ReachedShaped(cfg, s, k);
    StepReached(cfg, s, e, t, k);
    StepHeld(cfg, s, e);
    ReachedShaped(cfg, t, k);
  }

  // ---- One machine and one client at a time ----

  /** The machine waits for its revert, no client holds a group, and client ids from c on are free. */
  predicate Station(s: Server, c: ClientId) {
    && s.fleet.vms == map[0 := Vm(WaitingRevert, None)] && s.fleet.work == [0]
    && (forall d :: d in s.fleet.clients ==> d < c) && Held(s.fleet) == {}
  }

  /** Client c runs on the machine and may hold group g. */
  predicate Manned(s: Server, c: ClientId) {
    && s.fleet.vms == map[0 := Vm(Running, Some(c))] && s.fleet.work == []
    && (forall d :: d in s.fleet.clients ==> d <= c) && c in s.fleet.clients
    && s.fleet.clients[c].vm == 0 && s.fleet.clients[c].open && s.fleet.clients[c].state != Disconnected
  }

  /** Client c has been handed group g. */
  predicate Seated(s: Server, c: ClientId, g: GroupId) {
    Manned(s, c) && s.fleet.clients[c].held == Some(g) && g in s.pool.groups && Held(s.fleet) == {g}
  }

  lemma Reverts(cfg: Config, s: Server, c: ClientId, k: nat) returns (t: Server)
    requires Reached(cfg, s, k) && Station(s, c) && Resolved(s)
    ensures Reached(cfg, t, k) && Resolved(t)
    ensures t == s.(fleet := Fleet(s.fleet.clients, map[0 := Vm(Running, None)], [])) && Held(t.fleet) == {}
  {
    t := s.(fleet := Fleet(s.fleet.clients, map[0 := Vm(Running, None)], []));
    RevertsTo(s, t.fleet);
    Advance(cfg, s, Revert(Running), t, k);
  }

  lemma RevertsTo(s: Server, f: Fleet)
    requires s.fleet.vms == map[0 := Vm(WaitingRevert, None)] && s.fleet.work == [0]
    requires f == Fleet(s.fleet.clients, map[0 := Vm(Running, None)], [])
    ensures Reverted(s.fleet, Running) == f
  {
  }

  lemma Connects(cfg: Config, s: Server, c: ClientId, k: nat) returns (t: Server)
    requires Reached(cfg, s, k) && Resolved(s) && c !in s.fleet.clients && Held(s.fleet) == {}
    requires s.fleet.vms == map[0 := Vm(Running, None)] && s.fleet.work == []
    ensures Reached(cfg, t, k) && Resolved(t) && Shaped(t) && Held(t.fleet) == {}
    ensures t == s.(fleet := Fleet(s.fleet.clients[c := Client(Waiting, None, NoAlgorithm, 0, true)],
                                   map[0 := Vm(Running, Some(c))], []))
  {
    t := OnConnect(s, c, 0, true);
    Advance(cfg, s, Connect(c, 0, true), t, k);
    ConnectsTo(s, c);
  }

  lemma ConnectsTo(s: Server, c: ClientId)
    requires Wired(s.fleet) && c !in s.fleet.clients && s.fleet.vms == map[0 := Vm(Running, None)] && s.fleet.work == []
    ensures OnConnect(s, c, 0, true) ==
            s.(fleet := Fleet(s.fleet.clients[c := Client(Waiting, None, NoAlgorithm, 0, true)],
                              map[0 := Vm(Running, Some(c))], []))
  {
    assert s.fleet.clients[c := Client(Connected, None, NoAlgorithm, 0, true)][c := Client(Waiting, None, NoAlgorithm, 0, true)]
        == s.fleet.clients[c := Client(Waiting, None, NoAlgorithm, 0, true)];
  }

  /** The group a client is given next. */
  function NextGroup(p: Pool): GroupId {
    if p.deque != [] then p.deque[0] else p.next
  }

  lemma TakesTo(s: Server, t: Server, c: ClientId, batch: seq<UrlId>)
    requires Resolved(s) && Manned(s, c) && (s.pool.deque != [] || batch != []) && t == OnTake(s, c, batch, true)
    ensures Manned(t, c) && t.fleet.clients[c].held == Some(NextGroup(s.pool)) && NextGroup(s.pool) in t.pool.groups
    ensures t.pool == if s.pool.deque != [] then s.pool.(deque := s.pool.deque[1..]) else NewGroup(s.pool, batch)
  {
  }

  /** The waiting client is handed the head of the deque, or the whole batch as a new group. */
  lemma Takes(cfg: Config, s: Server, c: ClientId, batch: seq<UrlId>, k: nat) returns (t: Server)
    requires Reached(cfg, s, k) && Resolved(s) && Shaped(s) && Manned(s, c) && s.fleet.clients[c].state == Waiting
    requires Held(s.fleet) == {} && (s.pool.deque != [] || batch != [])
    requires Enabled(cfg, s, Take(c, batch, true))
    ensures Reached(cfg, t, k) && Resolved(t) && Shaped(t) && Seated(t, c, NextGroup(s.pool))
    ensures Abs(t) == Do(Abs(s), if s.pool.deque != [] then Pop else Admit(batch))
    ensures t.pool == if s.pool.deque != [] then s.pool.(deque := s.pool.deque[1..]) else NewGroup(s.pool, batch)
  {
    var e := Take(c, batch, true);
    t := OnTake(s, c, batch, true);
    Advance(cfg, s, e, t, k);
    TakesTo(s, t, c, batch);
    TakesAbs(s, e, t);
  }

  lemma TakesAbs(s: Server, e: Event, t: Server)
    requires Shaped(s) && Resolved(s) && e.Take? && e.ok && e.client in s.fleet.clients && (s.pool.deque != [] || e.batch != [])
    requires t == OnTake(s, e.client, e.batch, e.ok) && Held(t.fleet) == HeldNext(s, e)
    ensures Abs(t) == Do(Abs(s), if s.pool.deque != [] then Pop else Admit(e.batch))
  {
    var m1, m2 := TakeMoves(s, e, t);
  }

  /** The machine is reverted, a new client connects and takes a group. */
  lemma Seat(cfg: Config, s: Server, c: ClientId, batch: seq<UrlId>, k: nat) returns (t: Server)
    requires Reached(cfg, s, k) && Station(s, c) && Resolved(s) && (s.pool.deque != [] || batch != [])
    requires NoDup(batch) && (forall u :: u in batch ==> u in s.queue)
    requires |batch| == if s.pool.deque == [] then BatchSize(cfg, |s.queue|) else 0
    ensures Reached(cfg, t, k) && Resolved(t) && Shaped(t)
    ensures Seated(t, c, NextGroup(s.pool)) && Abs(t) == Do(Abs(s), if s.pool.deque != [] then Pop else Admit(batch))
    ensures t.pool == if s.pool.deque != [] then s.pool.(deque := s.pool.deque[1..]) else NewGroup(s.pool, batch)
  {
    var s1 := Reverts(cfg, s, c, k);
    var s2 := Connects(cfg, s1, c, k);
    t := Takes(cfg, s2, c, batch, k);
  }

  // ---- A group fails at once ----

  /** Notifying a group, and what a disconnect does to it, queues no group that an error would split. */
  lemma NotifyUnarmed(p: Pool, g: GroupId, state: GroupState)
    requires g in p.groups && (forall h :: h in p.groups ==> h < p.next) && (forall h :: h in p.deque ==> h in p.groups)
    requires Unarmed(p, {})
    ensures Unarmed(Notify(p, g, state), {})
    ensures forall h :: h in Notify(p, g, state).deque ==> h in Notify(p, g, state).groups
  {
    var q := Notify(p, g, state);
    assert forall h :: h in q.deque ==> h in p.deque || h == g || h == p.next || h == p.next + 1;
  }

  lemma FailHeldUnarmed(p: Pool, g: GroupId)
    requires g in p.groups && (forall h :: h in p.groups ==> h < p.next) && (forall h :: h in p.deque ==> h in p.groups)
    requires Unarmed(p, {})
    ensures Unarmed(FailHeld(p, g), {})
  {
    var p1 := Notify(p, g, GroupError);
    NotifyUnarmed(p, g, GroupError);
    var p2 := if p1.groups[g].malicious then p1 else SetMalicious(p1, g, Dac, false, None);
    assert Unarmed(p2, {});
    assert Unarmed(SetMajor(p2, g, CONNECTION_RESET), {});
    NotifyUnarmed(SetMajor(p2, g, CONNECTION_RESET), g, GroupError);
  }

  lemma DownTo(f: Fleet, c: ClientId)
    requires Wired(f) && f.vms == map[0 := Vm(Running, Some(c))] && f.work == []
    requires (forall d :: d in f.clients ==> d <= c) && c in f.clients && f.clients[c].vm == 0
    ensures var t := ClientDown(f, c);
            t.vms == map[0 := Vm(WaitingRevert, None)] && t.work == [0] && forall d :: d in t.clients ==> d < c + 1
  {
  }

  lemma Fails(cfg: Config, s: Server, c: ClientId, g: GroupId, k: nat) returns (t: Server)
    requires Reached(cfg, s, k) && Resolved(s) && Shaped(s) && Seated(s, c, g) && Unarmed(s.pool, {})
    requires !Armed(s.pool.groups[g])
    ensures Reached(cfg, t, k) && Resolved(t) && Station(t, c + 1) && Unarmed(t.pool, {})
    ensures var m := if s.pool.groups[g].errorCount == 0 then Retry(g) else Close(g, true);
            Can(Abs(s), m) && Abs(t) == Do(Abs(s), m)
  {
    t := OnSendFailure(s, c);
    Advance(cfg, s, SendFailure(c), t, k);
    var m := SendFailureMove(s, c, t);
    DownTo(s.fleet, c);
    FailHeldUnarmed(s.pool, g);
    assert Held(t.fleet) == {g} - {g} == {};
  }

  /** A queued group is handed out and fails. */
  lemma FailRound(cfg: Config, s: Server, c: ClientId, k: nat) returns (t: Server)
    requires Reached(cfg, s, k) && Resolved(s) && Station(s, c) && Unarmed(s.pool, {}) && s.pool.deque != []
    ensures Reached(cfg, t, k) && Resolved(t) && Station(t, c + 1) && Unarmed(t.pool, {})
    ensures var g := s.pool.deque[0];
            var m := if s.pool.groups[g].errorCount == 0 then Retry(g) else Close(g, true);
            Can(Do(Abs(s), Pop), m) && Abs(t) == Do(Do(Abs(s), Pop), m)
  {
    var g := s.pool.deque[0];
    assert Active(s.pool, {}, g);
    var s1 := Seat(cfg, s, c, [], k);
    assert Unarmed(s1.pool, {}) by {
      assert forall h :: h in s1.pool.deque ==> h in s.pool.deque;
      assert forall h :: Active(s1.pool, {}, h) ==> Active(s.pool, {}, h);
    }
    t := Fails(cfg, s1, c, g, k);
  }

  // ---- A group is split ----

  /** The client still holds g, and the machine has not noticed anything. */
  ghost predicate Stage(cfg: Config, s: Server, t: Server, c: ClientId, g: GroupId, k: nat) {
    && Reached(cfg, t, k) && Resolved(t) && Shaped(t) && Seated(t, c, g) && Abs(t) == Abs(s) && Unarmed(t.pool, {})
    && g in s.pool.groups && t.pool.groups[g].urls == s.pool.groups[g].urls && t.pool.deque == s.pool.deque
  }

  lemma StageTouched(s: Server, t: Server, g: GroupId)
    requires Shaped(s) && g in Held(s.fleet) && g in s.pool.groups && Touched(s.pool, t.pool, g) && Unarmed(s.pool, {})
    ensures Unarmed(t.pool, {})
  {
    TouchedUnarmed(s, t.pool, g);
  }

  lemma StartTo(s: Server, t: Server, c: ClientId, g: GroupId, alg: Algorithm)
    requires Resolved(s) && Manned(s, c) && s.fleet.clients[c].held == Some(g) && t == OnStart(s, c, alg)
    ensures Manned(t, c) && t.fleet.clients[c].held == Some(g)
    ensures t.fleet.clients[c].state == Visiting && t.fleet.clients[c].algorithm == alg
    ensures t.pool == Notify(SetAlgorithm(s.pool, g, alg), g, GroupVisiting)
  {
  }

  lemma StartStage(cfg: Config, s: Server, c: ClientId, g: GroupId, alg: Algorithm, k: nat) returns (t: Server)
    requires Stage(cfg, s, s, c, g, k)
    ensures Stage(cfg, s, t, c, g, k)
    ensures t.fleet.clients[c].state == Visiting && t.fleet.clients[c].algorithm == alg
    ensures t.pool.groups[g].algorithm == alg && t.pool.groups[g].malicious == s.pool.groups[g].malicious
  {
    t := OnStart(s, c, alg);
    Advance(cfg, s, Start(c, alg), t, k);
    StartTo(s, t, c, g, alg);
    StartMove(s, c, alg);
    StartTouches(s.pool, g, alg);
    StageTouched(s, t, g);
    assert HeldNext(s, Start(c, alg)) == Held(s.fleet);
  }

  lemma EventStage(cfg: Config, s: Server, c: ClientId, g: GroupId, k: nat) returns (t: Server)
    requires Stage(cfg, s, s, c, g, k) && s.fleet.clients[c].state == Visiting && s.fleet.clients[c].algorithm == Sequential
    ensures Stage(cfg, s, t, c, g, k) && t.pool.groups[g].malicious
  {
    t := OnSystemEvent(s, c);
    Advance(cfg, s, SystemEvent(c), t, k);
    var m := SystemEventMove(s, c, t);
    SetMaliciousTouches(s.pool, g, Sequential, true, None);
    StageTouched(s, t, g);
    assert HeldNext(s, SystemEvent(c)) == Held(s.fleet);
  }

  lemma StageTrans(cfg: Config, s: Server, t: Server, u: Server, c: ClientId, g: GroupId, k: nat)
    requires Stage(cfg, s, t, c, g, k) && Stage(cfg, t, u, c, g, k)
    ensures Stage(cfg, s, u, c, g, k)
  {
  }

  /** A sequential visit with a system event, then a dac start: the held group is armed. */
  lemma ArmStage(cfg: Config, s: Server, c: ClientId, g: GroupId, k: nat) returns (t: Server)
    requires Stage(cfg, s, s, c, g, k) && |s.pool.groups[g].urls| > 1
    ensures Stage(cfg, s, t, c, g, k) && HoldsArmed(t, c)
  {
    var s1 := StartStage(cfg, s, c, g, Sequential, k);
    var s2 := EventStage(cfg, s1, c, g, k);
    t := StartStage(cfg, s2, c, g, Dac, k);
    StageTrans(cfg, s, s1, s2, c, g, k);
    StageTrans(cfg, s, s2, t, c, g, k);
  }

  /** The armed group's client is timed out: the group is split three times. */
  lemma TimesOut(cfg: Config, s: Server, c: ClientId, g: GroupId) returns (t: Server)
    requires Reached(cfg, s, 3) && Resolved(s) && Shaped(s) && Seated(s, c, g) && Unarmed(s.pool, {}) && HoldsArmed(s, c)
    ensures Reached(cfg, t, 3) && Resolved(t) && Station(t, c + 1) && Unarmed(t.pool, {}) && Duplicated(t)
    ensures Can(Abs(s), Halve(g, true, 3)) && Abs(t) == Do(Abs(s), Halve(g, true, 3))
  {
    var e := Timeout(0, CLIENT_INACTIVITY);
    t := OnTimeout(s, 0, CLIENT_INACTIVITY);
    Advance(cfg, s, e, t, 3);
    var m := TimeoutMove(s, 0, CLIENT_INACTIVITY, t);
    DuplicatesDuplicate(cfg, s, e);
    DownTo(s.fleet, c);
    TimeoutUnarmed(s.pool, g, CLIENT_INACTIVITY);
    assert Held(t.fleet) == {g} - {g} == {};
  }

  lemma TimeoutUnarmed(p: Pool, g: GroupId, code: int)
    requires g in p.groups && (forall h :: h in p.groups ==> h < p.next) && (forall h :: h in p.deque ==> h in p.groups)
    requires Unarmed(p, {})
    ensures Unarmed(FailHeld(Notify(SetMajor(p, g, code), g, GroupError), g), {})
  {
    assert Unarmed(SetMajor(p, g, code), {});
    NotifyUnarmed(SetMajor(p, g, code), g, GroupError);
    FailHeldUnarmed(Notify(SetMajor(p, g, code), g, GroupError), g);
  }

  /** A dac visit with a system event: the group is split once. */
  lemma Splits(cfg: Config, s: Server, c: ClientId, g: GroupId, k: nat) returns (t: Server)
    requires Stage(cfg, s, s, c, g, k) && |s.pool.groups[g].urls| > 1 && s.pool.groups[g].algorithm == Dac
    requires s.fleet.clients[c].state == Visiting && s.fleet.clients[c].algorithm == Dac
    ensures t == OnSystemEvent(s, c)
    ensures Reached(cfg, t, k) && Resolved(t) && Station(t, c + 1) && Unarmed(t.pool, {})
    ensures var m := Halve(g, s.pool.groups[g].errorCount > 0, 1); Can(Abs(s), m) && Abs(t) == Do(Abs(s), m)
  {
    var e := SystemEvent(c);
    t := OnSystemEvent(s, c);
    Advance(cfg, s, e, t, k);
    var m := SystemEventMove(s, c, t);
    SplitTo(s, t, c, g);
    assert Held(t.fleet) == {g} - {g} == {};
  }

  lemma SplitTo(s: Server, t: Server, c: ClientId, g: GroupId)
    requires Resolved(s) && Shaped(s) && Seated(s, c, g) && Unarmed(s.pool, {})
    requires |s.pool.groups[g].urls| > 1 && t == OnSystemEvent(s, c)
    requires s.fleet.clients[c].state == Visiting && s.fleet.clients[c].algorithm == Dac
    ensures t.fleet.vms == map[0 := Vm(WaitingRevert, None)] && t.fleet.work == [0]
    ensures (forall d :: d in t.fleet.clients ==> d < c + 1) && Unarmed(t.pool, {})
  {
    SetMaliciousTouches(s.pool, g, Dac, true, None);
    TouchedUnarmed(s, SetMalicious(s.pool, g, Dac, true, None), g);
    NotifyUnarmed(SetMalicious(s.pool, g, Dac, true, None), g, GroupVisited);
    DownTo(WithClient(s.fleet, c, s.fleet.clients[c].(held := None)), c);
  }

  /** A queued group of several URLs that has failed before is handed out and split k times. */
  lemma SplitRound(cfg: Config, s: Server, c: ClientId, k: nat) returns (t: Server)
    requires Reached(cfg, s, k) && Resolved(s) && Station(s, c) && Unarmed(s.pool, {}) && s.pool.deque != []
    requires |s.pool.groups[s.pool.deque[0]].urls| > 1 && s.pool.groups[s.pool.deque[0]].errorCount > 0 && (k == 1 || k == 3)
    ensures Reached(cfg, t, k) && Resolved(t) && Station(t, c + 1) && Unarmed(t.pool, {})
    ensures var m := Halve(s.pool.deque[0], true, k); Can(Do(Abs(s), Pop), m) && Abs(t) == Do(Do(Abs(s), Pop), m)
    ensures k == 3 ==> Duplicated(t)
  {
    var g := s.pool.deque[0];
    var s1 := Seat(cfg, s, c, [], k);
    assert Unarmed(s1.pool, {}) by {
      assert forall h :: h in s1.pool.deque ==> h in s.pool.deque;
      assert forall h :: Active(s1.pool, {}, h) ==> Active(s.pool, {}, h);
    }
    if k == 3 {
      var s2 := ArmStage(cfg, s1, c, g, k);
      t := TimesOut(cfg, s2, c, g);
    } else {
      var s2 := StartStage(cfg, s1, c, g, Dac, k);
      SameFailed(s1, s2, g);
      t := Splits(cfg, s2, c, g, k);
    }
  }

  lemma SameFailed(s: Server, t: Server, g: GroupId)
    requires Abs(s) == Abs(t) && g in s.pool.groups && g in t.pool.groups
    ensures s.pool.groups[g].errorCount > 0 <==> t.pool.groups[g].errorCount > 0
  {
    assert Abs(s).jobs[g] == Abs(t).jobs[g];
  }

  // ---- The worst case ----

  /** Every job stems from initial group r. */
  predicate AllOf(a: Core, r: GroupId) {
    forall g {:trigger a.jobs[g]} :: g in a.jobs ==> a.jobs[g].origin == r
  }

  /** The move the worst case makes with a job it has just handed out. */
  function WorstMove(job: Job, g: GroupId, k: nat): Move {
    if !job.failed then Retry(g) else if |job.urls| == 1 then Close(g, true) else Halve(g, true, k)
  }

  /** Budget, jobs and initial group are as before, and this many more jobs of r were handed out. */
  ghost predicate Spends(a: Core, b: Core, r: GroupId, k: nat, handed: nat) {
    && Budget(b, r, Worsts(k)) == Budget(a, r, Worsts(k)) && AllOf(b, r)
    && Count(b.log, b.jobs, r) == Count(a.log, a.jobs, r) + handed
    && (r in a.jobs ==> r in b.jobs && b.jobs[r].urls == a.jobs[r].urls)
  }

  /** It spends exactly one dispatch of what is due. */
  lemma WorstSpends(a: Core, r: GroupId, k: nat)
    requires CoreOk(a) && AllOf(a, r) && a.deque != [] && (k == 1 || k == 3)
    requires Can(Do(a, Pop), WorstMove(a.jobs[a.deque[0]], a.deque[0], k))
    ensures Spends(a, Do(Do(a, Pop), WorstMove(a.jobs[a.deque[0]], a.deque[0], k)), r, k, 1)
  {
    var g := a.deque[0];
    var job := a.jobs[g];
    var a1 := Do(a, Pop);
    PopBudget(a, r, Worsts(k));
    MoveKeepsOk(a, Pop);
    CountMore(a.log, a.jobs, g, r);
    if !job.failed || |job.urls| == 1 {
      FailSpends(a1, g, r, k);
    } else {
      HalveSpends(a1, g, r, k);
    }
  }

  lemma FailSpends(a: Core, g: GroupId, r: GroupId, k: nat)
    requires CoreOk(a) && AllOf(a, r) && g in a.held && (!a.jobs[g].failed || |a.jobs[g].urls| == 1)
    requires Can(a, WorstMove(a.jobs[g], g, k))
    ensures Spends(a, Do(a, WorstMove(a.jobs[g], g, k)), r, k, 0)
  {
    var m := WorstMove(a.jobs[g], g, k);
    FailBudget(a, m, r, Worsts(k));
    CountSame(a.log, a.jobs, Do(a, m).jobs, r);
  }

  lemma HalveSpends(a: Core, g: GroupId, r: GroupId, k: nat)
    requires CoreOk(a) && AllOf(a, r) && g in a.held && a.jobs[g].failed && |a.jobs[g].urls| > 1
    requires Can(a, Halve(g, true, k))
    ensures Spends(a, Do(a, Halve(g, true, k)), r, k, 0)
  {
    HalveBudget(a, Halve(g, true, k), r, Worsts(k));
    HalveExact(a.jobs[g], k, r);
    HalveKeepsAll(a, Do(a, Halve(g, true, k)), g, r, k);
  }

  /** Splitting a failed job k times queues exactly what it was due. */
  lemma HalveExact(job: Job, k: nat, r: GroupId)
    requires |job.urls| > 1 && job.failed && job.origin == r
    ensures k * Halves(job, r, Worsts(k)) == Worsts(k).held(job)
  {
    var left, right := Worst(|job.urls| / 2, k), Worst(|job.urls| - |job.urls| / 2, k);
    assert Halves(job, r, Worsts(k)) == left + right;
    WorstStep(|job.urls|, k, left, right);
  }

  lemma HalveKeepsAll(a: Core, b: Core, g: GroupId, r: GroupId, k: nat)
    requires CoreOk(a) && AllOf(a, r) && Can(a, Halve(g, true, k)) && b == Do(a, Halve(g, true, k))
    ensures AllOf(b, r) && Count(b.log, b.jobs, r) == Count(a.log, a.jobs, r)
    ensures r in a.jobs ==> r in b.jobs && b.jobs[r].urls == a.jobs[r].urls
  {
    TimesKeep(a, g, true, k);
    CountSame(a.log, a.jobs, b.jobs, r);
  }

  /** One round of the worst case. */
  lemma WorstRound(cfg: Config, s: Server, c: ClientId, k: nat, r: GroupId) returns (t: Server)
    requires Reached(cfg, s, k) && Resolved(s) && Station(s, c) && Unarmed(s.pool, {}) && s.pool.deque != []
    requires AllOf(Abs(s), r) && (k == 1 || k == 3)
    ensures Reached(cfg, t, k) && Resolved(t) && Station(t, c + 1) && Unarmed(t.pool, {}) && Spends(Abs(s), Abs(t), r, k, 1)
  {
    ReachedShaped(cfg, s, k);
    var g := s.pool.deque[0];
    assert Abs(s).jobs[g] == JobOf(s.pool.groups[g]);
    if s.pool.groups[g].errorCount == 0 || |s.pool.groups[g].urls| == 1 {
      t := FailRound(cfg, s, c, k);
    } else {
      t := SplitRound(cfg, s, c, k);
    }
    WorstSpends(Abs(s), r, k);
  }

  /** The worst case goes on until nothing is queued. */
  lemma {:induction false} Exhaust(cfg: Config, s: Server, c: ClientId, k: nat, r: GroupId, due: nat) returns (t: Server)
    requires Reached(cfg, s, k) && Resolved(s) && Station(s, c) && Unarmed(s.pool, {}) && AllOf(Abs(s), r) && r in s.pool.groups
    requires (k == 1 || k == 3) && due == Remaining(Abs(s), r, Worsts(k))
    ensures Reached(cfg, t, k) && r in t.pool.groups && t.pool.groups[r].urls == s.pool.groups[r].urls
    ensures t.pool.deque == [] && Held(t.fleet) == {} && AllOf(Abs(t), r)
    ensures Budget(Abs(t), r, Worsts(k)) == Budget(Abs(s), r, Worsts(k))
    decreases due
  {
    t := s;
    if s.pool.deque != [] {
      var s1 := WorstRound(cfg, s, c, k, r);
      ReachedShaped(cfg, s1, k);
      assert r in Abs(s).jobs && r in Abs(s1).jobs;
      RemainingNonNegative(Abs(s1), r, k);
      t := Exhaust(cfg, s1, c + 1, k, r, Remaining(Abs(s1), r, Worsts(k)));
    }
  }

  // ---- From the start ----

  /** Only URLs 0 to i - 1 have been admitted. */
  ghost predicate Admitted(s: Server, i: nat) {
    && s.pool.urls.Keys == s.queue && s.pool == EMPTY_POOL.(urls := s.pool.urls) && s.dispatched == []
    && s.fleet == Fleet(map[], map[], []) && (forall u: UrlId :: u in s.queue <==> u < i) && |s.queue| == i
  }

  lemma {:induction false} AdmitUrls(cfg: Config, i: nat, k: nat) returns (s: Server)
    ensures Reached(cfg, s, k) && Resolved(s) && Admitted(s, i)
  {
    if i == 0 {
      s := INITIAL;
      InitialReached(cfg, k);
    } else {
      var s1 := AdmitUrls(cfg, i - 1, k);
      s := s1.(pool := s1.pool.(urls := s1.pool.urls[i - 1 := Url(None, UrlFresh, OK)]), queue := s1.queue + {i - 1});
      AdmittedNext(s1, s, i);
      UrlReached(cfg, s1, i - 1, s, k);
    }
  }

  lemma UrlReached(cfg: Config, s: Server, u: UrlId, t: Server, k: nat)
    requires Reached(cfg, s, k) && Resolved(s) && u !in s.pool.urls
    requires t == s.(pool := s.pool.(urls := s.pool.urls[u := Url(None, UrlFresh, OK)]), queue := s.queue + {u})
    ensures Reached(cfg, t, k) && Resolved(t)
  {
    var e := AddUrl(u);
    StepReached(cfg, s, e, t, k);
    ReachedShaped(cfg, t, k);
  }

  lemma AdmittedNext(s: Server, t: Server, i: nat)
    requires i > 0 && Admitted(s, i - 1)
    requires t == s.(pool := s.pool.(urls := s.pool.urls[i - 1 := Url(None, UrlFresh, OK)]), queue := s.queue + {i - 1})
    ensures Admitted(t, i) && i - 1 !in s.pool.urls
  {
  }

  /** All URLs are admitted, and the machine is there. */
  lemma Load(n: nat, k: nat) returns (s: Server)
    ensures Reached(Config(n, false), s, k) && Resolved(s) && Station(s, 0)
    ensures s.pool == EMPTY_POOL.(urls := s.pool.urls) && s.dispatched == [] && |s.queue| == n
    ensures forall u: UrlId :: u in s.queue <==> u < n
  {
    var s1 := AdmitUrls(Config(n, false), n, k);
    s := Apply(Config(n, false), s1, AddVm(0));
    assert Held(s1.fleet) == {};
    Advance(Config(n, false), s1, AddVm(0), s, k);
  }

  /** The initial group of n URLs has been handed out once and failed; it is due for the rest of the worst case. */
  lemma FirstFailure(n: nat, k: nat) returns (s: Server)
    requires n > 0 && (k == 1 || k == 3)
    ensures Reached(Config(n, false), s, k) && Resolved(s) && Station(s, 1) && Unarmed(s.pool, {}) && AllOf(Abs(s), 0)
    ensures 0 in s.pool.groups && |s.pool.groups[0].urls| == n && s.pool.groups[0].errorCount > 0 && s.pool.deque == [0]
    ensures Budget(Abs(s), 0, Worsts(k)) == Worst(n, k)
  {
    var s1 := FirstGroup(n, k);
    s := Fails(Config(n, false), s1, 0, 0, k);
    FailSpends(Abs(s1), 0, 0, k);
    FirstRetry(s1, s, n);
  }

  lemma FirstRetry(s: Server, t: Server, n: nat)
    requires Can(Abs(s), Retry(0)) && Abs(t) == Do(Abs(s), Retry(0)) && s.pool.deque == []
    requires 0 in s.pool.groups && |s.pool.groups[0].urls| == n
    ensures t.pool.deque == [0] && 0 in t.pool.groups && |t.pool.groups[0].urls| == n && t.pool.groups[0].errorCount > 0
  {
    assert 0 in Jobs(t.pool) && Abs(t).jobs[0] == JobOf(t.pool.groups[0]) && Abs(s).jobs[0] == JobOf(s.pool.groups[0]);
  }

  /** All URLs are in one group, which client 0 holds. */
  lemma FirstGroup(n: nat, k: nat) returns (s: Server)
    requires n > 0
    ensures Reached(Config(n, false), s, k) && Resolved(s) && Shaped(s) && Seated(s, 0, 0) && s.pool.deque == []
    ensures |s.pool.groups[0].urls| == n && s.pool.groups[0].errorCount == 0 && !Armed(s.pool.groups[0])
    ensures CoreOk(Abs(s)) && AllOf(Abs(s), 0) && Unarmed(s.pool, {}) && Budget(Abs(s), 0, Worsts(k)) == Worst(n, k)
  {
    var s0 := Load(n, k);
    var batch := seq(n, i => i);
    s := Seat(Config(n, false), s0, 0, batch, k);
    FirstAdmission(s0, s, batch, k);
    ReachedShaped(Config(n, false), s, k);
  }

  lemma FirstAdmission(s: Server, t: Server, batch: seq<UrlId>, k: nat)
    requires s.pool == EMPTY_POOL.(urls := s.pool.urls) && s.dispatched == [] && Held(s.fleet) == {} && batch != []
    requires Abs(t) == Do(Abs(s), Admit(batch)) && t.pool == NewGroup(s.pool, batch)
    ensures AllOf(Abs(t), 0) && Unarmed(t.pool, {}) && Budget(Abs(t), 0, Worsts(k)) == Worst(|batch|, k)
  {
    var a := Abs(s);
    assert a == Core(map[], [], {}, 0, []);
    AdmitBudget(a, batch, 0, Worsts(k));
    assert Worsts(k).held(Job(batch, false, 0)) == Worst(|batch|, k) - 1;
  }

  /** For every size a run hands the only initial group out as often as the bound allows: Worst(n, 3) times, or 4n - 2
      times if no client goes down holding an armed group. */
  lemma BoundAttained(n: nat, k: nat) returns (states: seq<Server>, events: seq<Event>)
    requires n > 0 && (k == 1 || k == 3)
    ensures Run(Config(n, false), states, events) && OneAtATime(states, events)
    ensures k == 1 ==> NeverDuplicates(states, events, |events|)
    ensures var s := states[|events|];
            && 0 in s.pool.groups && s.pool.groups[0].origin == 0 && |s.pool.groups[0].urls| == n
            && Dispatches(s, 0) == (if k == 3 then Worst(n, 3) else 4 * n - 2)
            && (k == 3 && n > 1 ==> Dispatches(s, 0) > 4 * n - 2)
  {
    var s1 := FirstFailure(n, k);
    ReachedShaped(Config(n, false), s1, k);
    RemainingNonNegative(Abs(s1), 0, k);
    var s := Exhaust(Config(n, false), s1, 1, k, 0, Remaining(Abs(s1), 0, Worsts(k)));
    SumZero((g: nat) => Weight(Abs(s), 0, Worsts(k), g), Abs(s).next);
    assert Abs(s).jobs[0] == JobOf(s.pool.groups[0]);
    WorstOnce(n);
    WorstExceeds(n);
    states, events :| Leads(Config(n, false), states, events, s, k);
  }

  /** For every size above one a run leads to a state in which a URL is in two queued groups, which conservation
      excludes. */
  lemma DuplicateReached(n: nat) returns (states: seq<Server>, events: seq<Event>)
    requires n > 1
    ensures Run(Config(n, false), states, events) && OneAtATime(states, events)
    ensures Duplicated(states[|events|]) && !Conserved(states[|events|])
  {
    var s1 := FirstFailure(n, 3);
    var s := SplitRound(Config(n, false), s1, 1, 3);
    DuplicatedNotConserved(s);
    states, events :| Leads(Config(n, false), states, events, s, 3);
  }

  // ---- The deepest deque ----

  /** After splits the head of the deque is the right half. */
  lemma {:induction false} TimesTop(a: Core, g: GroupId, failed: bool, times: nat)
    requires CoreOk(a) && Halvable(a, g) && times > 0
    ensures var b := HalveTimes(a, g, failed, times);
            |b.deque| == |a.deque| + 2 * times && b.deque[0] in b.jobs && b.jobs[b.deque[0]] == RightHalf(a.jobs[g])
    decreases times
  {
    var b := HalveOnce(a, g, failed);
    OnceHalves(a, g, failed);
    HalvedDequeOk(a, b, g);
    HalvedJobsOk(a, b, g);
    if times > 1 {
      TimesTop(b, g, failed, times - 1);
    }
  }

  /** The head of the deque has n URLs. */
  predicate Heads(s: Server, n: nat) {
    s.pool.deque != [] && s.pool.deque[0] in s.pool.groups && |s.pool.groups[s.pool.deque[0]].urls| == n
  }

  /** The head of the deque is failed, retried and split: the deque grows by 2k - 1. */
  lemma DiveRound(cfg: Config, s: Server, c: ClientId, k: nat, n: nat) returns (t: Server, d: ClientId)
    requires Reached(cfg, s, k) && Resolved(s) && Station(s, c) && Unarmed(s.pool, {}) && Heads(s, n) && n > 1
    requires k == 1 || k == 3
    ensures Reached(cfg, t, k) && Resolved(t) && Station(t, d) && Unarmed(t.pool, {}) && Heads(t, n - n / 2)
    ensures |t.pool.deque| == |s.pool.deque| + 2 * k - 1
  {
    var g := s.pool.deque[0];
    var s1: Server;
    if s.pool.groups[g].errorCount == 0 {
      s1 := FailRound(cfg, s, c, k);
      d := c + 1;
      RetriedHead(s, s1, n);
    } else {
      s1, d := s, c;
    }
    ReachedShaped(cfg, s1, k);
    t := SplitRound(cfg, s1, d, k);
    d := d + 1;
    SplitHead(s1, t, g, k, n);
  }

  lemma RetriedHead(s: Server, t: Server, n: nat)
    requires Heads(s, n) && Can(Do(Abs(s), Pop), Retry(s.pool.deque[0])) && Abs(t) == Do(Do(Abs(s), Pop), Retry(s.pool.deque[0]))
    ensures Heads(t, n) && t.pool.deque == s.pool.deque && t.pool.groups[t.pool.deque[0]].errorCount > 0
  {
    var g := s.pool.deque[0];
    assert g in Jobs(t.pool) && Abs(t).jobs[g] == JobOf(t.pool.groups[g]) && Abs(s).jobs[g] == JobOf(s.pool.groups[g]);
  }

  lemma SplitHead(s: Server, t: Server, g: GroupId, k: nat, n: nat)
    requires CoreOk(Abs(s)) && Heads(s, n) && g == s.pool.deque[0] && n > 1 && k > 0
    requires Can(Do(Abs(s), Pop), Halve(g, true, k)) && Abs(t) == Do(Do(Abs(s), Pop), Halve(g, true, k))
    ensures Heads(t, n - n / 2) && |t.pool.deque| == |s.pool.deque| + 2 * k - 1
  {
    var a := Do(Abs(s), Pop);
    MoveKeepsOk(Abs(s), Pop);
    assert Abs(s).jobs[g] == JobOf(s.pool.groups[g]);
    TimesTop(a, g, true, k);
    var h := t.pool.deque[0];
    assert h in Jobs(t.pool) && Abs(t).jobs[h] == JobOf(t.pool.groups[h]);
  }

  /** The growth of the deque on the way down from n URLs to one. */
  function Deep(n: nat, k: nat): nat {
    if k == 3 then 5 * CeilLog2(n) else CeilLog2(n)
  }

  /** The larger half is split again and again, down to a single URL. */
  lemma {:induction false} Dive(cfg: Config, s: Server, c: ClientId, k: nat, n: nat) returns (t: Server)
    requires Reached(cfg, s, k) && Resolved(s) && Station(s, c) && Unarmed(s.pool, {}) && Heads(s, n)
    requires k == 1 || k == 3
    ensures Reached(cfg, t, k) && Resolved(t) && |t.pool.deque| == |s.pool.deque| + Deep(n, k)
    decreases n
  {
    t := s;
    if n > 1 {
      var s1, d := DiveRound(cfg, s, c, k, n);
      t := Dive(cfg, s1, d, k, n - n / 2);
      CeilLog2Step(n, n - n / 2);
    }
  }

  /** For every group size both depth bounds are attained. */
  lemma DepthAttained(n: nat, k: nat) returns (states: seq<Server>, events: seq<Event>)
    requires n > 0 && (k == 1 || k == 3)
    ensures Run(Config(n, false), states, events) && OneAtATime(states, events)
    ensures k == 1 ==> NeverDuplicates(states, events, |events|)
    ensures |states[|events|].pool.deque| == Deep(n, k) + 1
    ensures k == 3 && n > 1 ==> |states[|events|].pool.deque| > CeilLog2(n) + 1
  {
    var s := Deepest(n, k);
    states, events :| Leads(Config(n, false), states, events, s, k);
  }

  lemma Deepest(n: nat, k: nat) returns (s: Server)
    requires n > 0 && (k == 1 || k == 3)
    ensures Reached(Config(n, false), s, k) && |s.pool.deque| == Deep(n, k) + 1
  {
    var s1 := FirstFailure(n, k);
    s := Dive(Config(n, false), s1, 1, k, n);
  }
}
