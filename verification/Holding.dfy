/** The groups that live clients hold, and how every step changes them. All of this holds in every
    run, whatever clients report and whatever fails. */
module Holding {
  import opened Prelude
  import opened UrlGroups
  import opened Lifecycle
  import opened GroupLedger
  import opened Scheduler

  /** The group a client still works on. */
  function Working(client: Client): set<GroupId> {
    if client.state != Disconnected && client.held.Some? then {client.held.value} else {}
  }

  /** The groups held by live clients. */
  function Held(f: Fleet): set<GroupId> {
    set c, g | c in f.clients && g in Working(f.clients[c]) :: g
  }

  predicate HeldOnce(f: Fleet) {
    forall c, d :: c in f.clients && d in f.clients && c != d ==> Working(f.clients[c]) !! Working(f.clients[d])
  }

  predicate HeldResolved(s: Server) {
    forall c {:trigger s.fleet.clients[c]} ::
      c in s.fleet.clients && s.fleet.clients[c].held.Some? ==> s.fleet.clients[c].held.value in s.pool.groups
  }

  predicate FleetRight(s: Server) {
    Sound(s.fleet) && HeldOnce(s.fleet) && HeldResolved(s)
  }

  /** The fleet is sound, and no group is queued twice, held twice, or both. */
  predicate Shaped(s: Server) {
    && FleetRight(s)
    && (forall h :: h in s.pool.groups ==> h < s.pool.next)
    && (forall g :: g in s.pool.deque ==> g in s.pool.groups)
    && QueuedOnce(s.pool, Held(s.fleet))
  }

  lemma ShapedResolved(s: Server)
    requires Shaped(s)
    ensures Resolved(s)
  {
  }

  /** Replacing one client's record. */
  lemma HeldAfter(f: Fleet, f': Fleet, c: ClientId, client: Client)
    requires HeldOnce(f) && f'.clients == f.clients[c := client]
    requires Working(client) !! (Held(f) - (if c in f.clients then Working(f.clients[c]) else {}))
    ensures Held(f') == Held(f) - (if c in f.clients then Working(f.clients[c]) else {}) + Working(client)
    ensures HeldOnce(f')
  {
    var rest := Held(f) - (if c in f.clients then Working(f.clients[c]) else {});
    forall d | d in f.clients && d != c
      ensures Working(f.clients[d]) <= rest
    {
      assert Working(f.clients[d]) <= Held(f);
    }
    forall g | g in Held(f')
      ensures g in rest + Working(client)
    {
      var d :| d in f'.clients && g in Working(f'.clients[d]);
      if d != c {
        assert f'.clients[d] == f.clients[d];
      }
    }
    forall g | g in rest + Working(client)
      ensures g in Held(f')
    {
      if g in Working(client) {
        assert f'.clients[c] == client;
      } else {
        var d :| d in f.clients && g in Working(f.clients[d]);
        assert f'.clients[d] == f.clients[d];
      }
    }
  }

  /** The group a live client works on is held and registered. */
  lemma HeldGroup(s: Server, c: ClientId)
    requires Shaped(s) && c in s.fleet.clients && s.fleet.clients[c].state != Disconnected
    requires s.fleet.clients[c].held.Some?
    ensures var g := s.fleet.clients[c].held.value;
            g in Held(s.fleet) && g in s.pool.groups
  {
    assert s.fleet.clients[c].held.value in Working(s.fleet.clients[c]);
  }

  // ---- What a step does to the held groups ----

  function HeldBy(s: Server, c: ClientId): set<GroupId> {
    if c in s.fleet.clients && s.fleet.clients[c].held.Some? then {s.fleet.clients[c].held.value} else {}
  }

  /** The groups a step takes away from their clients: a visit ended or its client went down. */
  function Released(s: Server, e: Event): set<GroupId> {
    match e
    case SystemEvent(c) =>
      if c in s.fleet.clients && s.fleet.clients[c].state == Visiting && s.fleet.clients[c].algorithm == Dac
      then set g | g in HeldBy(s, c) && g in s.pool.groups && |s.pool.groups[g].urls| > 1
      else {}
    case Finish(c, _, _, _, _) => HeldBy(s, c)
    case ErrorReport(c, _, _, _, _, _) => HeldBy(s, c)
    case SendFailure(c) => HeldBy(s, c)
    case Timeout(v, _) =>
      if v in s.fleet.vms && s.fleet.vms[v].client.Some? then HeldBy(s, s.fleet.vms[v].client.value) else {}
    case _ => {}
  }

  /** The group a step gives to a client. */
  function Taken(s: Server, e: Event): set<GroupId> {
    match e
    case Take(_, batch, ok) =>
      if !ok then {}
      else if s.pool.deque != [] then {s.pool.deque[0]}
      else if batch != [] then {s.pool.next} else {}
    case _ => {}
  }

  function HeldNext(s: Server, e: Event): set<GroupId> {
    Held(s.fleet) - Released(s, e) + Taken(s, e)
  }

  /** A step that replaces one client's record. */
  lemma OneClient(s: Server, t: Server, c: ClientId, client: Client)
    requires FleetRight(s) && c in s.fleet.clients && t.fleet.clients == s.fleet.clients[c := client] && Sound(t.fleet)
    requires s.pool.groups.Keys <= t.pool.groups.Keys && (client.held.Some? ==> client.held.value in t.pool.groups)
    requires Working(client) !! (Held(s.fleet) - Working(s.fleet.clients[c]))
    ensures FleetRight(t) && Held(t.fleet) == Held(s.fleet) - Working(s.fleet.clients[c]) + Working(client)
  {
    HeldAfter(s.fleet, t.fleet, c, client);
  }

  /** A step that replaces one client's record, but not what it works on. */
  lemma SameHeld(s: Server, t: Server, c: ClientId, client: Client)
    requires FleetRight(s) && c in s.fleet.clients && t.fleet.clients == s.fleet.clients[c := client] && Sound(t.fleet)
    requires s.pool.groups.Keys <= t.pool.groups.Keys && client.held == s.fleet.clients[c].held
    requires Working(client) == Working(s.fleet.clients[c])
    ensures FleetRight(t) && Held(t.fleet) == Held(s.fleet)
  {
    assert Working(client) <= Held(s.fleet);
    OneClient(s, t, c, client);
  }

  lemma ConnectSound(f: Fleet, c: ClientId, v: VmId, ok: bool)
    requires Sound(f) && c !in f.clients && v in f.vms && f.vms[v].client.None?
    ensures Sound(OnConnect(Server(EMPTY_POOL, {}, f, []), c, v, ok).fleet)
  {
    QueuedKeeps(f.work, v);
  }

  lemma ConnectHeld(s: Server, t: Server, c: ClientId, v: VmId, ok: bool)
    requires Shaped(s) && c !in s.fleet.clients && v in s.fleet.vms && s.fleet.vms[v].client.None?
    requires t == OnConnect(s, c, v, ok)
    ensures FleetRight(t) && Held(t.fleet) == Held(s.fleet)
  {
    var client := Client(Waiting, None, NoAlgorithm, v, ok);
    ConnectSound(s.fleet, c, v, ok);
    assert t.fleet.clients == s.fleet.clients[c := client];
    HeldAfter(s.fleet, t.fleet, c, client);
  }

  lemma HandSound(f: Fleet, c: ClientId, g: GroupId)
    requires Sound(f) && c in f.clients && f.clients[c].state == Waiting
    ensures var client := f.clients[c].(held := Some(g));
            && Wired(WithClient(f, c, client))
            && Sound(WithClient(f, c, client.(state := AwaitingVisiting)))
            && Sound(ClientDown(WithClient(f, c, client), c))
  {
    var client := f.clients[c].(held := Some(g), state := AwaitingVisiting);
    ClientChangedSound(f, c, client);
    ClientDownSound(WithClient(f, c, client), c);
    HandDown(f, c, g);
  }

  lemma HandHeld(s: Server, t: Server, c: ClientId, g: GroupId, ok: bool)
    requires FleetRight(s) && c in s.fleet.clients && s.fleet.clients[c].state == Waiting && g in s.pool.groups
    requires (forall h :: h in s.pool.groups ==> h < s.pool.next) && g !in Held(s.fleet)
    requires t == Hand(s, c, g, ok)
    ensures FleetRight(t) && Held(t.fleet) == Held(s.fleet) + if ok then {g} else {}
  {
    var client := s.fleet.clients[c].(held := Some(g), state := if ok then AwaitingVisiting else Disconnected,
                                      open := ok && s.fleet.clients[c].open);
    HandSound(s.fleet, c, g);
    HandClients(s, t, c, g, ok, client);
    OneClient(s, t, c, client);
  }

  lemma HandClients(s: Server, t: Server, c: ClientId, g: GroupId, ok: bool, client: Client)
    requires Wired(s.fleet) && c in s.fleet.clients && g in s.pool.groups && (forall h :: h in s.pool.groups ==> h < s.pool.next)
    requires t == Hand(s, c, g, ok)
    requires client == s.fleet.clients[c].(held := Some(g), state := if ok then AwaitingVisiting else Disconnected,
                                           open := ok && s.fleet.clients[c].open)
    ensures t.fleet.clients == s.fleet.clients[c := client] && s.pool.groups.Keys <= t.pool.groups.Keys
  {
  }

  lemma HandDown(f: Fleet, c: ClientId, g: GroupId)
    requires Wired(f) && c in f.clients
    ensures var client := f.clients[c].(held := Some(g));
            Wired(WithClient(f, c, client)) && Wired(WithClient(f, c, client.(state := AwaitingVisiting))) &&
            ClientDown(WithClient(f, c, client), c) == ClientDown(WithClient(f, c, client.(state := AwaitingVisiting)), c)
  {
    var client := f.clients[c].(held := Some(g));
    assert f.clients[c := client][c := client.(state := Disconnected, open := false)]
        == f.clients[c := client.(state := AwaitingVisiting)][c := client.(state := Disconnected, open := false)];
  }

  lemma PopHeld(s: Server, t: Server, c: ClientId, ok: bool)
    requires Shaped(s) && c in s.fleet.clients && s.fleet.clients[c].state == Waiting && s.pool.deque != []
    requires t == OnTake(s, c, [], ok)
    ensures FleetRight(t) && Held(t.fleet) == Held(s.fleet) + if ok then {s.pool.deque[0]} else {}
  {
    HandHeld(s.(pool := s.pool.(deque := s.pool.deque[1..])), t, c, s.pool.deque[0], ok);
  }

  lemma BatchHeld(s: Server, t: Server, c: ClientId, batch: seq<UrlId>, ok: bool)
    requires Shaped(s) && c in s.fleet.clients && s.fleet.clients[c].state == Waiting && s.pool.deque == [] && batch != []
    requires t == OnTake(s, c, batch, ok)
    ensures FleetRight(t) && Held(t.fleet) == Held(s.fleet) + if ok then {s.pool.next} else {}
  {
    assert Held(s.fleet) <= s.pool.groups.Keys;
    HandHeld(s.(pool := NewGroup(s.pool, batch), queue := s.queue - (set u | u in batch)), t, c, s.pool.next, ok);
  }

  lemma TakeHeld(s: Server, t: Server, c: ClientId, batch: seq<UrlId>, ok: bool)
    requires Shaped(s) && c in s.fleet.clients && s.fleet.clients[c].state == Waiting && t == OnTake(s, c, batch, ok)
    ensures FleetRight(t) && Held(t.fleet) == HeldNext(s, Take(c, batch, ok))
  {
    if s.pool.deque != [] {
      PopHeld(s, t, c, ok);
    } else if batch != [] {
      BatchHeld(s, t, c, batch, ok);
    }
  }

  /** A client goes down with what it holds. */
  lemma DownHeld(s: Server, t: Server, c: ClientId)
    requires Shaped(s) && c in s.fleet.clients && s.fleet.clients[c].state != Disconnected
    requires t.fleet == ClientDown(s.fleet, c) && s.pool.groups.Keys <= t.pool.groups.Keys
    ensures FleetRight(t) && Held(t.fleet) == Held(s.fleet) - HeldBy(s, c)
  {
    ClientDownSound(s.fleet, c);
    OneClient(s, t, c, t.fleet.clients[c]);
  }

  lemma TimeoutHeld(cfg: Config, s: Server, e: Event)
    requires Shaped(s) && Enabled(cfg, s, e) && e.Timeout?
    ensures Resolved(s) && FleetRight(Apply(cfg, s, e)) && Held(Apply(cfg, s, e).fleet) == HeldNext(s, e)
  {
    ShapedResolved(s);
    var f := s.fleet;
    var t := Apply(cfg, s, e);
    if f.vms[e.vm].client.Some? {
      assert Victim(f, e.vm) == f.vms[e.vm].client;
      DownHeld(s, t, f.vms[e.vm].client.value);
    } else {
      VmWaitsSound(f, e.vm);
      assert Held(t.fleet) == Held(f);
    }
  }

  lemma ReleaseSound(f: Fleet, c: ClientId, down: bool)
    requires Sound(f) && c in f.clients && f.clients[c].state != Disconnected && f.clients[c].held.Some?
    ensures Sound(Release(f, c, down))
  {
    QueuedKeeps(f.work, f.clients[c].vm);
  }

  /** The record of a client that let go of its group. */
  function Freed(client: Client, alg: Algorithm, down: bool): Client {
    client.(held := None, algorithm := alg, state := if down then Disconnected else Waiting, open := !down && client.open)
  }

  lemma ReleaseClients(f0: Fleet, f: Fleet, c: ClientId, alg: Algorithm, down: bool)
    requires c in f0.clients && f == WithClient(f0, c, f0.clients[c].(algorithm := alg)) && Wired(f)
    ensures Release(f, c, down).clients == f0.clients[c := Freed(f0.clients[c], alg, down)]
  {
  }

  /** A live client lets go of its group. */
  lemma ReleaseHeld(s: Server, t: Server, c: ClientId, alg: Algorithm, down: bool)
    requires FleetRight(s) && c in s.fleet.clients && s.fleet.clients[c].state != Disconnected && s.fleet.clients[c].held.Some?
    requires s.pool.groups.Keys <= t.pool.groups.Keys
    requires var f := WithClient(s.fleet, c, s.fleet.clients[c].(algorithm := alg)); Wired(f) && t.fleet == Release(f, c, down)
    ensures FleetRight(t) && Held(t.fleet) == Held(s.fleet) - HeldBy(s, c)
  {
    var f := WithClient(s.fleet, c, s.fleet.clients[c].(algorithm := alg));
    ClientChangedSound(s.fleet, c, f.clients[c]);
    ReleaseSound(f, c, down);
    ReleaseClients(s.fleet, f, c, alg, down);
    OneClient(s, t, c, Freed(s.fleet.clients[c], alg, down));
  }

  lemma HearSame(s: Server, c: ClientId)
    requires c in s.fleet.clients
    ensures Hear(s, c, s.fleet.clients[c].algorithm) == s
  {
    assert s.fleet.clients[c := s.fleet.clients[c]] == s.fleet.clients;
  }

  /** A visit event: the client's record takes the algorithm and perhaps the state. */
  lemma HearHeld(s: Server, t: Server, c: ClientId, client: Client)
    requires Shaped(s) && c in s.fleet.clients && s.fleet.clients[c].state != Disconnected
    requires client.vm == s.fleet.clients[c].vm && client.held == s.fleet.clients[c].held
    requires client.state == s.fleet.clients[c].state || (client.state == Visiting && client.held.Some?)
    requires s.pool.groups.Keys <= t.pool.groups.Keys && t.fleet == WithClient(s.fleet, c, client)
    ensures FleetRight(t) && Held(t.fleet) == Held(s.fleet)
  {
    ClientChangedSound(s.fleet, c, client);
    SameHeld(s, t, c, client);
  }

  lemma SystemEventHeld(s: Server, t: Server, c: ClientId)
    requires Shaped(s) && Speaks(s, c) && Resolved(s) && t == OnSystemEvent(s, c)
    ensures FleetRight(t) && Held(t.fleet) == HeldNext(s, SystemEvent(c))
  {
    if Released(s, SystemEvent(c)) == {} {
      assert t.fleet == s.fleet;
    } else {
      HearSame(s, c);
      ReleaseHeld(s, t, c, s.fleet.clients[c].algorithm, true);
    }
  }

  /** A visit that ends with a report: the client lets go of the group if it holds one. */
  lemma EndHeld(s: Server, t: Server, c: ClientId, alg: Algorithm)
    requires Shaped(s) && Speaks(s, c) && s.pool.groups.Keys <= t.pool.groups.Keys
    requires var f := Hear(s, c, alg).fleet;
             Wired(f) && if s.fleet.clients[c].held.None? then t.fleet == f
                         else t.fleet == Release(f, c, true) || t.fleet == Release(f, c, false)
    ensures FleetRight(t) && Held(t.fleet) == Held(s.fleet) - HeldBy(s, c)
  {
    if s.fleet.clients[c].held.None? {
      HearHeld(s, t, c, s.fleet.clients[c].(algorithm := alg));
    } else if t.fleet == Release(Hear(s, c, alg).fleet, c, true) {
      ReleaseHeld(s, t, c, alg, true);
    } else {
      ReleaseHeld(s, t, c, alg, false);
    }
  }

  lemma FinishHeld(cfg: Config, s: Server, t: Server, e: Event)
    requires Shaped(s) && e.Finish? && Speaks(s, e.client) && Resolved(s)
    requires t == OnFinish(cfg, s, e.client, e.algorithm, e.malicious, e.changed, e.codes)
    ensures FleetRight(t) && Held(t.fleet) == Held(s.fleet) - HeldBy(s, e.client)
  {
    EndHeld(s, t, e.client, e.algorithm);
  }

  lemma ErrorHeld(cfg: Config, s: Server, t: Server, e: Event)
    requires Shaped(s) && e.ErrorReport? && Speaks(s, e.client) && Resolved(s)
    requires t == OnError(cfg, s, e.client, e.algorithm, e.malicious, e.changed, e.codes, e.code)
    ensures FleetRight(t) && Held(t.fleet) == Held(s.fleet) - HeldBy(s, e.client)
  {
    EndHeld(s, t, e.client, e.algorithm);
  }

  lemma StartHeld(cfg: Config, s: Server, e: Event)
    requires Shaped(s) && Enabled(cfg, s, e) && e.Start?
    ensures Resolved(s) && FleetRight(Apply(cfg, s, e)) && Held(Apply(cfg, s, e).fleet) == HeldNext(s, e)
  {
    ShapedResolved(s);
    var client := s.fleet.clients[e.client].(algorithm := e.algorithm);
    var next := if client.held.Some? then client.(state := Visiting) else client;
    assert s.fleet.clients[e.client := client][e.client := next] == s.fleet.clients[e.client := next];
    HearHeld(s, Apply(cfg, s, e), e.client, next);
  }

  lemma QuietHeld(cfg: Config, s: Server, t: Server, e: Event)
    requires Shaped(s) && Enabled(cfg, s, e) && (e.AddUrl? || e.AddVm? || e.SocketFailure? || e.Revert?)
    requires Resolved(s) && t == Apply(cfg, s, e)
    ensures FleetRight(t) && Held(t.fleet) == HeldNext(s, e)
  {
    if e.Revert? {
      RevertedSound(s.fleet, e.outcome);
    }
    assert t.fleet.clients == s.fleet.clients;
  }

  /** Every step keeps the fleet sound and changes the held groups by those it releases and takes. */
  lemma StepHeld(cfg: Config, s: Server, e: Event)
    requires Shaped(s) && Enabled(cfg, s, e)
    ensures Resolved(s) && FleetRight(Apply(cfg, s, e)) && Held(Apply(cfg, s, e).fleet) == HeldNext(s, e)
  {
    ShapedResolved(s);
    var t := Apply(cfg, s, e);
    match e
    case AddUrl(_) => QuietHeld(cfg, s, t, e);
    case AddVm(_) => QuietHeld(cfg, s, t, e);
    case Connect(c, v, ok) => ConnectHeld(s, t, c, v, ok);
    case Take(c, batch, ok) => TakeHeld(s, t, c, batch, ok);
    case Start(_, _) => StartHeld(cfg, s, e);
    case OtherVisit(c, alg) => HearHeld(s, t, c, s.fleet.clients[c].(algorithm := alg));
    case SystemEvent(c) => SystemEventHeld(s, t, c);
    case Finish(_, _, _, _, _) => FinishHeld(cfg, s, t, e);
    case ErrorReport(_, _, _, _, _, _) => ErrorHeld(cfg, s, t, e);
    case SocketFailure(_) => QuietHeld(cfg, s, t, e);
    case SendFailure(c) => DownHeld(s, t, c);
    case Timeout(_, _) => TimeoutHeld(cfg, s, e);
    case Revert(_) => QuietHeld(cfg, s, t, e);
  }

  // ---- The URLs of groups ----

  /** The URLs of all groups are registered. */
  predicate PoolKnown(p: Pool) {
    && (forall h :: h in p.groups ==> h < p.next)
    && forall g, u {:trigger u in p.groups[g].urls} :: g in p.groups && u in p.groups[g].urls ==> u in p.urls
  }

  predicate UrlsKnown(s: Server) {
    PoolKnown(s.pool) && s.queue <= s.pool.urls.Keys
  }

  /** The URLs stay registered, and each group's URLs come from a group of before. */
  predicate Stems(p: Pool, q: Pool) {
    q.urls.Keys == p.urls.Keys && p.groups.Keys <= q.groups.Keys && (PoolKnown(p) ==> PoolKnown(q))
  }

  lemma NotifyStems(p: Pool, g: GroupId, state: GroupState)
    requires g in p.groups && (forall h :: h in p.groups ==> h < p.next)
    ensures Stems(p, Notify(p, g, state))
  {
    var q := Notify(p, g, state);
    forall h, u | PoolKnown(p) && h in q.groups && u in q.groups[h].urls
      ensures u in q.urls
    {
      if h in p.groups {
        assert q.groups[h].urls == p.groups[h].urls;
      } else {
        assert u in p.groups[g].urls;
      }
    }
  }

  /** Judging a group or setting its code leaves its URLs. */
  lemma TouchStems(p: Pool, q: Pool, g: GroupId)
    requires g in p.groups && Touched(p, q, g)
    ensures Stems(p, q)
  {
    assert PoolKnown(p) ==> forall h :: h in q.groups ==> q.groups[h].urls == p.groups[h].urls;
  }

  lemma FailHeldStems(p: Pool, g: GroupId)
    requires g in p.groups && (forall h :: h in p.groups ==> h < p.next)
    ensures Stems(p, FailHeld(p, g))
  {
    var p1 := Notify(p, g, GroupError);
    NotifyStems(p, g, GroupError);
    var p2 := if p1.groups[g].malicious then p1 else SetMalicious(p1, g, Dac, false, None);
    if !p1.groups[g].malicious {
      SetMaliciousTouches(p1, g, Dac, false, None);
      TouchStems(p1, p2, g);
    }
    var p3 := SetMajor(p2, g, CONNECTION_RESET);
    TouchStems(p2, p3, g);
    NotifyStems(p3, g, GroupError);
  }
}
