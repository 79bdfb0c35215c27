/** A machine that a malicious page may have changed is reverted before it visits anything else: in every run whose
    clients connect without failing and only to machines that do not wait for a revert. The server does not check the
    latter, and without it the machine can get a group unreverted. */
module Quarantine {
  import opened Prelude
  import opened UrlGroups
  import opened Lifecycle
  import opened GroupLedger
  import opened Scheduler
  import opened Holding
  import opened Conservation
  import opened Dispatch
  import opened Budgets
  import opened DispatchBounds
  import opened Outcomes
  import opened WorstCase

  /** Client c runs on machine v and can be reached. */
  predicate On(f: Fleet, v: VmId, c: ClientId) {
    c in f.clients && f.clients[c].vm == v && f.clients[c].open
  }

  predicate NobodyOn(f: Fleet, v: VmId) {
    forall c {:trigger f.clients[c]} :: c in f.clients ==> !On(f, v, c)
  }

  /** A group is sent to a client on machine v. */
  predicate Hands(s: Server, e: Event, v: VmId) {
    e.Take? && e.ok && On(s.fleet, v, e.client) && (s.pool.deque != [] || e.batch != [])
  }

  predicate ConnectsTo(e: Event, v: VmId) {
    e.Connect? && e.ok && e.vm == v
  }

  predicate Reverts(s: Server, e: Event, v: VmId) {
    e.Revert? && s.fleet.work != [] && s.fleet.work[0] == v
  }

  /** Clients keep their machine and never come back once they are closed; only a connect brings a new one. */
  predicate ClientsFollow(f: Fleet, g: Fleet, e: Event) {
    forall c {:trigger g.clients[c]} :: c in g.clients ==>
      if c in f.clients then g.clients[c].vm == f.clients[c].vm && (g.clients[c].open ==> f.clients[c].open)
      else e.Connect? && g.clients[c].vm == e.vm && (g.clients[c].open ==> e.ok)
  }

  /** A machine with a client keeps it or loses it, and stops waiting only by a revert, a connect, or a client on it. */
  predicate MachinesFollow(s: Server, g: Fleet, e: Event) {
    forall v {:trigger g.vms[v]} :: v in s.fleet.vms && s.fleet.vms[v].state == WaitingRevert ==>
      v in g.vms && (g.vms[v].state == WaitingRevert || Reverts(s, e, v) || (e.Connect? && e.vm == v)
                     || !NobodyOn(s.fleet, v))
  }

  lemma StepFollows(cfg: Config, s: Server, e: Event)
    requires Shaped(s) && Enabled(cfg, s, e)
    ensures Resolved(s) && ClientsFollow(s.fleet, Apply(cfg, s, e).fleet, e) && MachinesFollow(s, Apply(cfg, s, e).fleet, e)
  {
    ShapedResolved(s);
    if e.Finish? || e.ErrorReport? || e.SystemEvent? {
      ReportFollows(cfg, s, e);
    } else if e.Connect? {
      ConnectFleet(cfg, s, e);
    } else if e.Take? {
      TakeFollows(cfg, s, e);
    } else if e.SendFailure? {
      SendFailureFleet(cfg, s, e);
    } else if e.Timeout? {
      TimeoutFleet(cfg, s, e);
    } else if e.Revert? {
      RevertFleet(cfg, s, e);
    } else if e.Start? {
      StartOutcome(cfg, s, e);
    } else {
      OtherOutcome(cfg, s, e);
    }
  }

  lemma ReportFollows(cfg: Config, s: Server, e: Event)
    requires Shaped(s) && Resolved(s) && Enabled(cfg, s, e) && (e.Finish? || e.ErrorReport? || e.SystemEvent?)
    ensures ClientsFollow(s.fleet, Apply(cfg, s, e).fleet, e) && MachinesFollow(s, Apply(cfg, s, e).fleet, e)
  {
    assert On(s.fleet, s.fleet.clients[e.client].vm, e.client);
    if e.SystemEvent? {
      SystemEventFleet(cfg, s, e);
    } else if s.fleet.clients[e.client].held.Some? {
      if e.Finish? {
        FinishFleet(cfg, s, e);
      } else {
        ErrorFleet(cfg, s, e);
      }
    }
  }

  lemma TakeFollows(cfg: Config, s: Server, e: Event)
    requires Shaped(s) && Resolved(s) && Enabled(cfg, s, e) && e.Take?
    ensures ClientsFollow(s.fleet, Apply(cfg, s, e).fleet, e) && MachinesFollow(s, Apply(cfg, s, e).fleet, e)
  {
    if s.pool.deque != [] || e.batch != [] {
      var g := if s.pool.deque != [] then s.pool.deque[0] else s.pool.next;
      var p := if s.pool.deque != [] then s.pool.(deque := s.pool.deque[1..])
               else s.pool.(groups := s.pool.groups[g := Group(e.batch, GroupFresh, 0, 0, false, NoAlgorithm, 0, g)], next := g + 1);
      GivenFollows(cfg, s, e, p, g);
    }
  }

  lemma GivenFollows(cfg: Config, s: Server, e: Event, p: Pool, g: GroupId)
    requires Shaped(s) && Resolved(s) && Enabled(cfg, s, e) && e.Take? && TakenFrom(s.pool, e.batch, p, g)
    ensures ClientsFollow(s.fleet, Apply(cfg, s, e).fleet, e) && MachinesFollow(s, Apply(cfg, s, e).fleet, e)
  {
    var f := Apply(cfg, s, e).fleet;
    if e.ok {
      TakeOutcome(cfg, s, e, p, g);
      assert f.vms == s.fleet.vms;
    } else {
      LostTakeOutcome(cfg, s, e, p, g);
      DownFollows(s, f, e, e.client);
    }
  }

  lemma DownFollows(s: Server, f: Fleet, e: Event, c: ClientId)
    requires c in s.fleet.clients && TakenDown(f, c, s.fleet.clients[c].vm) && OthersSame(s.fleet, f, c, s.fleet.clients[c].vm)
    ensures ClientsFollow(s.fleet, f, e) && MachinesFollow(s, f, e)
  {
  }

  // ---- From a machine without clients to the next group on it ----

  /** No step from i up to j connects a client to machine v. */
  predicate NoConnect(events: seq<Event>, i: nat, j: nat, v: VmId) {
    j <= |events| && forall k :: i <= k < j ==> !ConnectsTo(events[k], v)
  }

  lemma {:induction false} NobodyComes(cfg: Config, states: seq<Server>, events: seq<Event>, i: nat, j: nat, v: VmId)
    requires Run(cfg, states, events) && i <= j <= |events| && NobodyOn(states[i].fleet, v) && NoConnect(events, i, j, v)
    ensures NobodyOn(states[j].fleet, v)
    decreases j - i
  {
    if i < j {
      NobodyComes(cfg, states, events, i, j - 1, v);
      RunKnown(cfg, states, events, j - 1);
      StepFollows(cfg, states[j - 1], events[j - 1]);
    }
  }

  /** In any run, a machine without clients gets no group until a client connects to it. */
  lemma NoGroupWithoutConnect(cfg: Config, states: seq<Server>, events: seq<Event>, i: nat, j: nat, v: VmId)
    requires Run(cfg, states, events) && i <= j < |events| && NobodyOn(states[i].fleet, v) && Hands(states[j], events[j], v)
    ensures exists k :: i <= k < j && ConnectsTo(events[k], v)
  {
    if NoConnect(events, i, j, v) {
      NobodyComes(cfg, states, events, i, j, v);
      assert false;
    }
  }

  /** No step from i up to j reverts machine v. */
  predicate NoRevert(states: seq<Server>, events: seq<Event>, i: nat, j: nat, v: VmId) {
    j <= |events| && j <= |states| && forall k :: i <= k < j ==> !Reverts(states[k], events[k], v)
  }

  /** No client connects to a machine that waits for its revert. */
  predicate ConnectsToReverted(states: seq<Server>, events: seq<Event>) {
    |events| <= |states| && forall k :: 0 <= k < |events| && events[k].Connect? ==>
      events[k].vm in states[k].fleet.vms ==> states[k].fleet.vms[events[k].vm].state != WaitingRevert
  }

  lemma {:induction false} KeepsWaiting(cfg: Config, states: seq<Server>, events: seq<Event>, i: nat, j: nat, v: VmId)
    requires Run(cfg, states, events) && ConnectsToReverted(states, events) && i <= j <= |events|
    requires NobodyOn(states[i].fleet, v) && v in states[i].fleet.vms && states[i].fleet.vms[v].state == WaitingRevert
    requires NoRevert(states, events, i, j, v)
    ensures NobodyOn(states[j].fleet, v) && v in states[j].fleet.vms && states[j].fleet.vms[v].state == WaitingRevert
    decreases j - i
  {
    if i < j {
      KeepsWaiting(cfg, states, events, i, j - 1, v);
      RunKnown(cfg, states, events, j - 1);
      assert !Reverts(states[j - 1], events[j - 1], v);
      StepKeepsWaiting(cfg, states[j - 1], events[j - 1], v);
    }
  }

  lemma StepKeepsWaiting(cfg: Config, s: Server, e: Event, v: VmId)
    requires Shaped(s) && Enabled(cfg, s, e) && !Reverts(s, e, v) && !(e.Connect? && e.vm == v)
    requires NobodyOn(s.fleet, v) && v in s.fleet.vms && s.fleet.vms[v].state == WaitingRevert
    ensures Resolved(s)
    ensures var f := Apply(cfg, s, e).fleet; NobodyOn(f, v) && v in f.vms && f.vms[v].state == WaitingRevert
  {
    StepFollows(cfg, s, e);
  }

  /** A waiting machine without clients gets no group before its revert. */
  lemma NoGroupUnreverted(cfg: Config, states: seq<Server>, events: seq<Event>, i: nat, j: nat, v: VmId)
    requires Run(cfg, states, events) && ConnectsToReverted(states, events) && i <= j < |events|
    requires NobodyOn(states[i].fleet, v) && v in states[i].fleet.vms && states[i].fleet.vms[v].state == WaitingRevert
    requires Hands(states[j], events[j], v)
    ensures exists k :: i <= k < j && Reverts(states[k], events[k], v)
  {
    if NoRevert(states, events, i, j, v) {
      KeepsWaiting(cfg, states, events, i, j, v);
      assert false;
    }
  }

  // ---- Machines have at most their own client on them ----

  /** No connect fails halfway, which would leave a client on a machine that does not know it. */
  predicate ConnectsSucceed(events: seq<Event>) {
    forall k :: 0 <= k < |events| && events[k].Connect? ==> events[k].ok
  }

  /** A client that is not disconnected can be reached, and is its machine's client. */
  predicate OwnClients(f: Fleet) {
    forall c {:trigger f.clients[c]} :: c in f.clients ==>
      if f.clients[c].state == Disconnected then !f.clients[c].open
      else f.clients[c].open && f.clients[c].vm in f.vms && f.vms[f.clients[c].vm].client == Some(c)
  }

  /** A client goes down, or its visit ends otherwise. */
  lemma EndOwns(f: Fleet, g: Fleet, c: ClientId, v: VmId)
    requires OwnClients(f) && c in f.clients && f.clients[c].state != Disconnected && f.clients[c].vm == v && v in f.vms
    requires OthersSame(f, g, c, v) && (TakenDown(g, c, v) || GoesOn(f, g, c, v))
    ensures OwnClients(g)
  {
    forall d | d in g.clients && d != c && g.clients[d].state != Disconnected
      ensures g.clients[d].open && g.clients[d].vm in g.vms && g.vms[g.clients[d].vm].client == Some(d)
    {
      assert g.clients[d] == f.clients[d];
      assert f.clients[d].vm != v;
    }
  }

  lemma StepOwns(cfg: Config, s: Server, e: Event)
    requires Shaped(s) && Enabled(cfg, s, e) && OwnClients(s.fleet) && (e.Connect? ==> e.ok)
    ensures Resolved(s) && OwnClients(Apply(cfg, s, e).fleet)
  {
    ShapedResolved(s);
    if e.Finish? || e.ErrorReport? || e.SystemEvent? || e.SendFailure? || e.Timeout? {
      EndStepOwns(cfg, s, e);
    } else if e.Connect? {
      ConnectFleet(cfg, s, e);
    } else if e.Take? {
      TakeOwns(cfg, s, e);
    } else if e.Revert? {
      RevertFleet(cfg, s, e);
    } else if e.Start? {
      StartOutcome(cfg, s, e);
    } else {
      OtherOutcome(cfg, s, e);
    }
  }

  lemma EndStepOwns(cfg: Config, s: Server, e: Event)
    requires Shaped(s) && Resolved(s) && Enabled(cfg, s, e) && OwnClients(s.fleet)
    requires e.Finish? || e.ErrorReport? || e.SystemEvent? || e.SendFailure? || e.Timeout?
    ensures OwnClients(Apply(cfg, s, e).fleet)
  {
    var g := Apply(cfg, s, e).fleet;
    if e.Timeout? {
      TimeoutFleet(cfg, s, e);
      if s.fleet.vms[e.vm].client.Some? {
        EndOwns(s.fleet, g, s.fleet.vms[e.vm].client.value, e.vm);
      }
    } else if e.SendFailure? {
      SendFailureFleet(cfg, s, e);
      EndOwns(s.fleet, g, e.client, s.fleet.clients[e.client].vm);
    } else {
      ReportOwns(cfg, s, e, g);
    }
  }

  lemma ReportOwns(cfg: Config, s: Server, e: Event, g: Fleet)
    requires Shaped(s) && Resolved(s) && Enabled(cfg, s, e) && OwnClients(s.fleet) && g == Apply(cfg, s, e).fleet
    requires e.Finish? || e.ErrorReport? || e.SystemEvent?
    ensures OwnClients(g)
  {
    if e.SystemEvent? {
      SystemEventFleet(cfg, s, e);
    } else if s.fleet.clients[e.client].held.Some? {
      if e.Finish? {
        FinishFleet(cfg, s, e);
      } else {
        ErrorFleet(cfg, s, e);
      }
    }
    if g != s.fleet && s.fleet.clients[e.client].held.Some? {
      EndOwns(s.fleet, g, e.client, s.fleet.clients[e.client].vm);
    }
  }

  lemma TakeOwns(cfg: Config, s: Server, e: Event)
    requires Shaped(s) && Resolved(s) && Enabled(cfg, s, e) && e.Take? && OwnClients(s.fleet)
    ensures OwnClients(Apply(cfg, s, e).fleet)
  {
    if s.pool.deque != [] || e.batch != [] {
      var g := if s.pool.deque != [] then s.pool.deque[0] else s.pool.next;
      var p := if s.pool.deque != [] then s.pool.(deque := s.pool.deque[1..])
               else s.pool.(groups := s.pool.groups[g := Group(e.batch, GroupFresh, 0, 0, false, NoAlgorithm, 0, g)], next := g + 1);
      GivenOwns(cfg, s, e, p, g);
    }
  }

  lemma GivenOwns(cfg: Config, s: Server, e: Event, p: Pool, g: GroupId)
    requires Shaped(s) && Resolved(s) && Enabled(cfg, s, e) && e.Take? && TakenFrom(s.pool, e.batch, p, g) && OwnClients(s.fleet)
    ensures OwnClients(Apply(cfg, s, e).fleet)
  {
    if e.ok {
      TakeOutcome(cfg, s, e, p, g);
    } else {
      LostTakeOutcome(cfg, s, e, p, g);
      EndOwns(s.fleet, Apply(cfg, s, e).fleet, e.client, s.fleet.clients[e.client].vm);
    }
  }

  lemma {:induction false} RunOwns(cfg: Config, states: seq<Server>, events: seq<Event>, n: nat)
    requires Run(cfg, states, events) && ConnectsSucceed(events) && n <= |events|
    ensures OwnClients(states[n].fleet)
  {
    if n > 0 {
      RunOwns(cfg, states, events, n - 1);
      RunKnown(cfg, states, events, n - 1);
      StepOwns(cfg, states[n - 1], events[n - 1]);
    }
  }

  /** A machine whose client went down has no client on it that can be reached. */
  lemma DownAlone(f: Fleet, c: ClientId, v: VmId)
    requires OwnClients(f) && TakenDown(f, c, v)
    ensures NobodyOn(f, v)
  {
  }

  /** Quarantine: whatever took a client down, a malicious visit or a failure, its machine gets no group before it has
      been reverted. */
  lemma QuarantineTheorem(cfg: Config, states: seq<Server>, events: seq<Event>, i: nat, j: nat, c: ClientId, v: VmId)
    requires Run(cfg, states, events) && ConnectsSucceed(events) && ConnectsToReverted(states, events)
    requires i < j < |events| && TakenDown(states[i + 1].fleet, c, v) && Hands(states[j], events[j], v)
    ensures exists k :: i < k < j && Reverts(states[k], events[k], v)
  {
    RunOwns(cfg, states, events, i + 1);
    DownAlone(states[i + 1].fleet, c, v);
    NoGroupUnreverted(cfg, states, events, i + 1, j, v);
  }

  /** A message that ends a visit as malicious. */
  predicate EndsMalicious(s: Server, e: Event) {
    match e
    case Finish(c, _, m, _, _) =>
      && c in s.fleet.clients && s.fleet.clients[c].held.Some? && s.fleet.clients[c].held.value in s.pool.groups
      && (s.pool.groups[s.fleet.clients[c].held.value].malicious || m)
    case ErrorReport(c, _, m, _, _, _) => c in s.fleet.clients && s.fleet.clients[c].held.Some? && m
    case SystemEvent(c) =>
      && c in s.fleet.clients && s.fleet.clients[c].state == Visiting && s.fleet.clients[c].algorithm == Dac
      && s.fleet.clients[c].held.Some? && s.fleet.clients[c].held.value in s.pool.groups
      && |s.pool.groups[s.fleet.clients[c].held.value].urls| > 1
    case _ => false
  }

  /** After a malicious visit the machine is reverted before it gets another group. */
  lemma MaliciousVisitTheorem(cfg: Config, states: seq<Server>, events: seq<Event>, i: nat, j: nat)
    requires Run(cfg, states, events) && ConnectsSucceed(events) && ConnectsToReverted(states, events)
    requires i < j < |events| && EndsMalicious(states[i], events[i])
    ensures var v := states[i].fleet.clients[events[i].client].vm;
            Hands(states[j], events[j], v) ==> exists k :: i < k < j && Reverts(states[k], events[k], v)
  {
    var s, e := states[i], events[i];
    RunKnown(cfg, states, events, i);
    if e.Finish? {
      FinishFleet(cfg, s, e);
    } else if e.ErrorReport? {
      ErrorFleet(cfg, s, e);
    } else {
      SystemEventFleet(cfg, s, e);
    }
    var v := s.fleet.clients[e.client].vm;
    if Hands(states[j], events[j], v) {
      QuarantineTheorem(cfg, states, events, i, j, e.client, v);
    }
  }

  // ---- A client that connects too early ----

  lemma ThreeMore(cfg: Config, states: seq<Server>, events: seq<Event>, a: Server, e1: Event, b: Server, e2: Event,
                  c: Server, e3: Event, d: Server)
    returns (states': seq<Server>, events': seq<Event>)
    requires Run(cfg, states, events) && states[|events|] == a && Resolved(a) && Enabled(cfg, a, e1) && b == Apply(cfg, a, e1)
    requires Resolved(b) && Enabled(cfg, b, e2) && c == Apply(cfg, b, e2)
    requires Resolved(c) && Enabled(cfg, c, e3) && d == Apply(cfg, c, e3)
    ensures Run(cfg, states', events') && |events'| == |events| + 3
    ensures states' == states + [b, c, d] && events' == events + [e1, e2, e3]
  {
    RunExtends(cfg, states, events, e1, b);
    RunExtends(cfg, states + [b], events + [e1], e2, c);
    RunExtends(cfg, states + [b] + [c], events + [e1] + [e2], e3, d);
    states', events' := states + [b, c, d], events + [e1, e2, e3];
    assert states + [b] + [c] + [d] == states' && events + [e1] + [e2] + [e3] == events';
  }

  /** A client connects to the waiting machine before its revert, and can be given a group. */
  lemma EarlyConnect(cfg: Config, s: Server, t: Server, c: ClientId)
    requires Shaped(s) && Resolved(s) && c !in s.fleet.clients && 0 in s.fleet.vms && s.fleet.vms[0].client.None?
    requires s.pool.deque != [] && t == OnConnect(s, c, 0, true)
    ensures Enabled(cfg, t, Take(c, [], true)) && Hands(t, Take(c, [], true), 0)
  {
    assert Enabled(cfg, s, Connect(c, 0, true));
    ConnectFleet(cfg, s, Connect(c, 0, true));
  }

  /** A run up to a client that visits all its URLs with dac, the state it is in, and that after its system event. */
  lemma VisitsAll(n: nat) returns (s: Server, t: Server)
    requires n > 1
    ensures Reached(Config(n, false), s, 1) && Resolved(s) && Speaks(s, 0) && On(s.fleet, 0, 0) && EndsMalicious(s, SystemEvent(0))
    ensures t == OnSystemEvent(s, 0) && Reached(Config(n, false), t, 1) && Resolved(t) && Shaped(t) && Station(t, 1)
    ensures t.pool.deque != []
  {
    var s0 := FirstGroup(n, 1);
    s := StartStage(Config(n, false), s0, 0, 0, Dac, 1);
    t := Splits(Config(n, false), s, 0, 0, 1);
    ReachedShaped(Config(n, false), t, 1);
    ReachedShaped(Config(n, false), s, 1);
    TimesTop(Abs(s), 0, s.pool.groups[0].errorCount > 0, 1);
  }

  /** The input that needs the condition: after a malicious visit a client connects to the machine that still waits for
      its revert, and is given the next group there. */
  lemma ReusedUnreverted(n: nat) returns (states: seq<Server>, events: seq<Event>, i: nat)
    requires n > 1
    ensures Run(Config(n, false), states, events) && |events| == i + 3
    ensures EndsMalicious(states[i], events[i]) && On(states[i].fleet, 0, events[i].client)
    ensures events[i + 1] == Connect(1, 0, true) && Station(states[i + 1], 1)
    ensures Hands(states[i + 2], events[i + 2], 0)
  {
    var cfg := Config(n, false);
    var s, a := VisitsAll(n);
    var b := OnConnect(a, 1, 0, true);
    EarlyConnect(cfg, a, b, 1);
    StepReached(cfg, a, Connect(1, 0, true), b, 1);
    ReachedShaped(cfg, b, 1);
    var events0: seq<Event>;
    states, events0 :| Leads(cfg, states, events0, s, 1);
    i := |events0|;
    states, events := ThreeMore(cfg, states, events0, s, SystemEvent(0), a, Connect(1, 0, true), b, Take(1, [], true),
                                Apply(cfg, b, Take(1, [], true)));
  }
}
