/** The server with its state updated in place, loop by loop and call by call as the handlers do it.
    Every method is proved against the state machine's function for it. */
module CaptureServer {
  import opened Prelude
  import opened UrlGroups
  import opened Lifecycle
  import opened GroupLedger
  import opened Scheduler
  import Pools = UrlGroups

  /** What the recursion of the state setters counts down. */
  function Pending(f: Fleet, c: Option<ClientId>, v: VmId): nat
    requires v in f.vms && (c.Some? ==> c.value in f.clients)
  {
    (if c.Some? && f.clients[c.value].state != Disconnected then 1 else 0)
    + (if f.vms[v].state != WaitingRevert then 1 else 0)
  }

  /** Part way through a loop over us: the URLs before index i have been changed by f. */
  ghost predicate ChangedUpTo(urls: map<UrlId, Url>, before: map<UrlId, Url>, us: seq<UrlId>, i: nat, f: (UrlId, Url) -> Url) {
    && i <= |us| && urls.Keys == before.Keys
    && forall u {:trigger urls[u]} :: u in before ==> urls[u] == if u in us[..i] then f(u, before[u]) else before[u]
  }

  lemma ChangedNext(urls: map<UrlId, Url>, before: map<UrlId, Url>, us: seq<UrlId>, i: nat, f: (UrlId, Url) -> Url)
    requires i < |us| && us[i] in urls && ChangedUpTo(urls, before, us, i, f)
    requires forall u, url :: f(u, f(u, url)) == f(u, url)
    ensures ChangedUpTo(urls[us[i] := f(us[i], urls[us[i]])], before, us, i + 1, f)
  {
    assert us[..i + 1] == us[..i] + [us[i]];
  }

  lemma ChangedAll(urls: map<UrlId, Url>, before: map<UrlId, Url>, us: seq<UrlId>, f: (UrlId, Url) -> Url)
    requires ChangedUpTo(urls, before, us, |us|, f)
    ensures urls == map u | u in before :: if u in us then f(u, before[u]) else before[u]
  {
    assert us[..|us|] == us;
  }

  class CaptureServer {
    const cfg: Config
    var urls: map<UrlId, Url>
    var groups: map<GroupId, Group>
    var deque: seq<GroupId>
    var next: GroupId
    var queue: set<UrlId>
    var clients: map<ClientId, Client>
    var vms: map<VmId, Vm>
    var work: seq<VmId>
    var dispatched: seq<GroupId>

    ghost function PoolNow(): Pool
      reads `urls, `groups, `deque, `next
    {
      Pool(urls, groups, deque, next)
    }

    ghost function FleetNow(): Fleet
      reads `clients, `vms, `work
    {
      Fleet(clients, vms, work)
    }

    ghost function State(): Server
      reads this
    {
      Server(PoolNow(), queue, FleetNow(), dispatched)
    }

    /** Group g and its URLs are registered. */
    ghost predicate Ready(g: GroupId)
      reads `urls, `groups, `next
    {
      && g in groups && (forall u :: u in groups[g].urls ==> u in urls)
      && (forall h :: h in groups ==> h < next)
    }

    constructor (cfg: Config)
      ensures State() == INITIAL && this.cfg == cfg
    {
      this.cfg := cfg;
      urls, groups, deque, next := map[], map[], [], 0;
      queue, clients, vms, work, dispatched := {}, map[], map[], [], [];
    }

    // ---- UrlGroup ----

    method ClearUrls(us: seq<UrlId>)
      requires forall u :: u in us ==> u in urls
      modifies `urls
      ensures urls == Mark(old(urls), us, {})
    {
      ghost var f := (u: UrlId, url: Url) => url.(malicious := Some(u in {}));
      for i := 0 to |us|
        invariant ChangedUpTo(urls, old(urls), us, i, f)
      {
        ChangedNext(urls, old(urls), us, i, f);
        urls := urls[us[i] := urls[us[i]].(malicious := Some(false))];
      }
      ChangedAll(urls, old(urls), us, f);
    }

    /** The bulk verdicts: by state changes where they are known, else one for all. */
    method JudgeUrls(us: seq<UrlId>, malicious: bool, changed: Option<set<UrlId>>)
      requires forall u :: u in us ==> u in urls
      modifies `urls
      ensures urls == Mark(old(urls), us, if changed.Some? then changed.value
                                          else if malicious then set u | u in us else {})
    {
      ghost var flagged := if changed.Some? then changed.value else if malicious then set u | u in us else {};
      ghost var f := (u: UrlId, url: Url) => url.(malicious := Some(u in flagged));
      for i := 0 to |us|
        invariant ChangedUpTo(urls, old(urls), us, i, f)
      {
        ChangedNext(urls, old(urls), us, i, f);
        if changed.None? {
          urls := urls[us[i] := urls[us[i]].(malicious := Some(malicious))];
        } else {
          urls := urls[us[i] := urls[us[i]].(malicious := Some(us[i] in changed.value))];
        }
      }
      ChangedAll(urls, old(urls), us, f);
    }

    method SetMalicious(g: GroupId, algorithm: Algorithm, malicious: bool, changed: Option<set<UrlId>>)
      requires Ready(g)
      modifies `urls, `groups
      ensures PoolNow() == Pools.SetMalicious(old(PoolNow()), g, algorithm, malicious, changed)
      ensures Ready(g)
    {
      var us := groups[g].urls;
      groups := groups[g := groups[g].(malicious := malicious)];
      if algorithm != Bulk {
        if !malicious {
          ClearUrls(us);
        } else {
          if |us| == 1 {
            urls := urls[us[0] := urls[us[0]].(malicious := Some(true))];
            assert urls == Mark(old(urls), us, {us[0]});
          }
        }
      } else {
        JudgeUrls(us, malicious, changed);
      }
    }

    method SetUrlGroupState(g: GroupId, state: GroupState)
      requires Ready(g)
      modifies `urls, `groups, `deque, `next
      ensures PoolNow() == Notify(old(PoolNow()), g, state)
      ensures Ready(g)
    {
      groups := groups[g := groups[g].(state := state)];
      if state == GroupError {
        groups := groups[g := groups[g].(errorCount := groups[g].errorCount + 1)];
      }
      var us, major := groups[g].urls, groups[g].major;
      ghost var f := (u: UrlId, url: Url) => UrlEntering(url, state, major);
      for i := 0 to |us|
        modifies `urls
        invariant ChangedUpTo(urls, old(urls), us, i, f)
      {
        ChangedNext(urls, old(urls), us, i, f);
        var url := urls[us[i]];
        if state == GroupVisiting {
          url := url.(state := UrlVisiting);
        } else if state == GroupVisited {
          if url.major == OK {
            url := url.(state := UrlVisited);
          } else {
            url := url.(state := UrlError);
          }
        } else if state == GroupError {
          if url.major == OK {
            url := url.(major := Known(major));
          }
          url := url.(state := UrlError);
        }
        urls := urls[us[i] := url];
      }
      ChangedAll(urls, old(urls), us, f);
      assert PoolNow() == Enter(old(PoolNow()), g, state);
      Update(g);
    }

    // ---- UrlGroupsController ----

    /** Replaces a group by its halves, which go to the head of the deque. */
    method SplitGroup(g: GroupId)
      requires Ready(g)
      modifies `groups, `deque, `next
      ensures PoolNow() == Split(old(PoolNow()), g)
    {
      var us := groups[g].urls;
      var urls1, urls2 := [], [];
      var b := |us| / 2;
      for i := 0 to |us|
        invariant urls1 == us[..Min(i, b)] && urls2 == us[b..Max(i, b)]
      {
        if i < b {
          urls1 := urls1 + [us[i]];
        } else {
          urls2 := urls2 + [us[i]];
        }
      }
      assert urls1 == us[..b] && urls2 == us[b..];
      var origin := groups[g].origin;
      groups := groups[next := FreshGroup(urls1, origin)];
      deque := [next] + deque;
      next := next + 1;
      groups := groups[next := FreshGroup(urls2, origin)];
      deque := [next] + deque;
      next := next + 1;
      assert deque == [next - 1, next - 2] + old(deque);
    }

    /** Copies a failed group's error to its URLs. The flag starts as true, so a network reset is
        not needed for a retry. */
    method CopyError(g: GroupId) returns (networkReset: bool)
      requires Ready(g)
      modifies `urls
      ensures PoolNow() == FailUrls(old(PoolNow()), g) && networkReset
    {
      var us, major := groups[g].urls, groups[g].major;
      networkReset := true;
      ghost var f := (u: UrlId, url: Url) => url.(major := Known(major), state := UrlError);
      for i := 0 to |us|
        invariant ChangedUpTo(urls, old(urls), us, i, f) && networkReset
      {
        ChangedNext(urls, old(urls), us, i, f);
        var url := urls[us[i]].(major := Known(major));
        if url.major == NETWORK_ERROR {
          networkReset := true;
        }
        urls := urls[us[i] := url.(state := UrlError)];
      }
      ChangedAll(urls, old(urls), us, f);
    }

    method Update(g: GroupId)
      requires Ready(g)
      modifies `urls, `groups, `deque, `next
      ensures PoolNow() == Pools.Update(old(PoolNow()), g)
      ensures Ready(g)
    {
      var grp := groups[g];
      if grp.state == GroupVisited {
        if Armed(grp) {
          SplitGroup(g);
        }
      } else if grp.state == GroupError {
        var split := false;
        if Armed(grp) {
          SplitGroup(g);
          split := true;
        }
        var networkReset := CopyError(g);
        var retry := networkReset || grp.major in {VM_STALLED, CLIENT_INACTIVITY, CONNECTION_RESET};
        if !split && retry && grp.errorCount <= 1 {
          groups := groups[g := groups[g].(retryCount := groups[g].retryCount + 1)];
          deque := [g] + deque;
        }
      }
    }

    // ---- Client and VirtualMachine: setters that call each other ----

    /** The pool after the client lost its connection. */
    ghost function PoolAfterDown(p: Pool, client: Client): Pool
      requires client.held.Some? ==> client.held.value in p.groups && (forall h :: h in p.groups ==> h < p.next)
    {
      if client.held.Some? then FailHeld(p, client.held.value) else p
    }

    ghost predicate HolderReady(c: ClientId)
      reads `urls, `groups, `next, `clients
    {
      c in clients && (clients[c].held.Some? ==> Ready(clients[c].held.value))
    }

    /** The client is gone from its machine, which waits for its revert with exactly one item in the queue. */
    ghost predicate Detached(c: ClientId)
      reads `clients, `vms, `work
    {
      && c in clients && clients[c].state == Disconnected && !clients[c].open && clients[c].vm in vms
      && vms[clients[c].vm] == Vm(WaitingRevert, None) && clients[c].vm in work && NoDup(work)
    }

    method Disconnect(c: ClientId)
      requires Wired(FleetNow()) && HolderReady(c) && clients[c].state == Disconnected
      modifies `urls, `groups, `deque, `next, `clients, `vms, `work
      ensures FleetNow() == ClientDown(old(FleetNow()), c)
      ensures PoolNow() == PoolAfterDown(old(PoolNow()), old(clients[c]))
      ensures RevertQueued(old(FleetNow())) ==> Detached(c)
      decreases 1, Pending(FleetNow(), Some(c), clients[c].vm), 2
    {
      var v := clients[c].vm;
      vms := vms[v := vms[v].(client := None)];
      if vms[v].state != WaitingRevert {
        SetVmState(v, WaitingRevert);
      }
      assert vms == old(vms)[v := Vm(WaitingRevert, None)];
      var client := clients[c];
      if client.held.Some? {
        SetUrlGroupState(client.held.value, GroupError);
      }
      clients := clients[c := client.(open := false)];
      if client.held.Some? {
        FinalError(client.held.value);
      }
      assert FleetNow() == ClientDown(old(FleetNow()), c);
      DownQueued(old(FleetNow()), c);
    }

    /** The second notification of a disconnect. */
    method FinalError(g: GroupId)
      requires Ready(g)
      modifies `urls, `groups, `deque, `next
      ensures var p1 := old(PoolNow());
              var p2 := if p1.groups[g].malicious then p1 else Pools.SetMalicious(p1, g, Dac, false, None);
              PoolNow() == Notify(SetMajor(p2, g, CONNECTION_RESET), g, GroupError)
    {
      if !groups[g].malicious {
        SetMalicious(g, Dac, false, None);
      }
      groups := groups[g := groups[g].(major := Known(CONNECTION_RESET))];
      SetUrlGroupState(g, GroupError);
    }

    method SetClientState(c: ClientId, state: ClientState)
      requires Wired(FleetNow()) && HolderReady(c)
      modifies `urls, `groups, `deque, `next, `clients, `vms, `work
      ensures state == Disconnected && old(clients[c].state) != Disconnected ==>
                FleetNow() == ClientDown(old(FleetNow()), c) && PoolNow() == PoolAfterDown(old(PoolNow()), old(clients[c]))
      ensures state == Disconnected && old(clients[c].state) != Disconnected && RevertQueued(old(FleetNow())) ==> Detached(c)
      ensures state != Disconnected ==> PoolNow() == old(PoolNow())
      ensures old(clients[c].state) == state ==> FleetNow() == old(FleetNow()) && PoolNow() == old(PoolNow())
      ensures state == Waiting && old(clients[c].state) != Waiting ==>
                FleetNow() == WithVm(WithClient(old(FleetNow()), c, old(clients[c]).(state := Waiting)), old(clients[c].vm),
                                     old(vms[clients[c].vm]).(state := Running))
      ensures state != Waiting && state != Disconnected ==>
                FleetNow() == WithClient(old(FleetNow()), c, old(clients[c]).(state := state))
      decreases if state == Disconnected then 1 else 2, Pending(FleetNow(), Some(c), clients[c].vm), 1
    {
      var client := clients[c];
      if client.state == state {
        assert clients == clients[c := client];
        return;
      }
      clients := clients[c := client.(state := state)];
      if state == Waiting {
        SetVmState(client.vm, Running);
      } else if state == Disconnected {
        Disconnect(c);
        assert clients == old(clients)[c := client.(state := Disconnected, open := false)];
      }
    }

    method SetVmState(v: VmId, state: VmState)
      requires Wired(FleetNow()) && v in vms
      requires state == WaitingRevert && vms[v].client.Some? ==> HolderReady(vms[v].client.value)
      modifies `urls, `groups, `deque, `next, `clients, `vms, `work
      ensures state == WaitingRevert ==> FleetNow() == VmWaits(old(FleetNow()), v)
      ensures state == WaitingRevert ==>
                var victim := Victim(old(FleetNow()), v);
                PoolNow() == if victim.Some? then PoolAfterDown(old(PoolNow()), old(clients)[victim.value]) else old(PoolNow())
      ensures state != WaitingRevert ==>
                FleetNow() == WithVm(old(FleetNow()), v, old(vms[v]).(state := state)) && PoolNow() == old(PoolNow())
      decreases if state == WaitingRevert then 1 else 0, Pending(FleetNow(), vms[v].client, v), 1
    {
      var vm := vms[v];
      if vm.state == state {
        assert vms == vms[v := vm];
        return;
      }
      vms := vms[v := vm.(state := state)];
      if state == WaitingRevert {
        if vm.client.Some? && clients[vm.client.value].state != Disconnected {
          SetClientState(vm.client.value, Disconnected);
          assert vms == old(vms)[v := Vm(WaitingRevert, None)];
        }
        RevertAsync(v);
      }
    }

    // ---- VBoxServer ----

    method RevertAsync(v: VmId)
      modifies `work
      ensures work == Queued(old(work), v)
    {
      if v !in work {
        work := work + [v];
      }
    }

    /** One revert item: the machine is reverted, then the item is removed. */
    method ProcessWorkItem(outcome: VmState)
      requires Wired(FleetNow()) && work != [] && work[0] in vms && outcome in {Running, VmError, Reverting}
      modifies `urls, `groups, `deque, `next, `clients, `vms, `work
      ensures State() == old(State()).(fleet := Reverted(old(FleetNow()), outcome))
    {
      var v := work[0];
      SetVmState(v, Reverting);
      if outcome != Reverting {
        SetVmState(v, outcome);
      }
      work := work[1..];
      assert vms == old(vms)[v := old(vms)[v].(state := outcome)];
    }

    method AddVirtualMachine(v: VmId)
      requires Wired(FleetNow()) && RevertQueued(FleetNow()) && v !in vms
      modifies `urls, `groups, `deque, `next, `clients, `vms, `work
      ensures State() == old(State()).(fleet := Fleet(old(clients), old(vms)[v := Vm(WaitingRevert, None)], old(work) + [v]))
    {
      vms := vms[v := Vm(Stopped, None)];
      SetVmState(v, WaitingRevert);
      assert vms == old(vms)[v := Vm(WaitingRevert, None)];
    }

    // ---- ClientEventController ----

    method OpenSession(c: ClientId, v: VmId)
      requires Wired(FleetNow()) && c !in clients && v in vms
      modifies `urls, `groups, `deque, `next, `clients, `vms, `work
      ensures PoolNow() == old(PoolNow()) && Wired(FleetNow())
      ensures FleetNow() == Fleet(old(clients)[c := Client(Connected, None, NoAlgorithm, v, true)],
                                  old(vms)[v := old(vms)[v].(client := Some(c))], old(work))
    {
      clients := clients[c := Client(Connecting, None, NoAlgorithm, v, true)];
      vms := vms[v := vms[v].(client := Some(c))];
      SetClientState(c, Connected);
      assert clients == old(clients)[c := Client(Connected, None, NoAlgorithm, v, true)];
    }

    /** A client connects to a machine that has none; ok says whether the option messages are sent. */
    method ParseConnect(c: ClientId, v: VmId, ok: bool)
      requires Wired(FleetNow()) && c !in clients && v in vms
      modifies `urls, `groups, `deque, `next, `clients, `vms, `work
      ensures State() == OnConnect(old(State()), c, v, ok)
    {
      OpenSession(c, v);
      if !ok {
        SetClientState(c, Disconnected);
      }
      SetClientState(c, Waiting);
    }

    // ---- The client's work loop ----

    /** Takes URLs from the queue, as many as fit a group and are there. */
    method TakeBatch() returns (urlList: seq<UrlId>)
      modifies `queue
      ensures NoDup(urlList) && (forall u :: u in urlList ==> u in old(queue))
      ensures |urlList| == BatchSize(cfg, |old(queue)|)
      ensures queue == old(queue) - (set u | u in urlList)
    {
      urlList := [];
      var size := cfg.groupSize;
      if |queue| < size {
        size := |queue|;
      }
      if size == 0 {
        size := 1;
      }
      for i := 0 to size
        invariant NoDup(urlList) && (forall u :: u in urlList ==> u in old(queue))
        invariant queue == old(queue) - (set u | u in urlList)
        invariant |urlList| + |queue| == |old(queue)| && |urlList| == Min(i, |old(queue)|)
      {
        if queue != {} {
          var u :| u in queue;
          queue := queue - {u};
          urlList := urlList + [u];
        }
      }
    }

    method CreateGroup(urlList: seq<UrlId>)
      modifies `groups, `next
      ensures PoolNow() == NewGroup(old(PoolNow()), urlList)
    {
      groups := groups[next := FreshGroup(urlList, next)];
      next := next + 1;
    }

    /** Pops the next group, or batches URLs into a new one. */
    method TakeUrlGroup() returns (g: Option<GroupId>, ghost batch: seq<UrlId>)
      modifies `queue, `deque, `groups, `next
      ensures NoDup(batch) && (forall u :: u in batch ==> u in old(queue))
      ensures |batch| == if old(deque) == [] then BatchSize(cfg, |old(queue)|) else 0
      ensures old(deque) != [] ==>
                g == Some(old(deque)[0]) && PoolNow() == old(PoolNow()).(deque := old(deque)[1..]) && queue == old(queue)
      ensures old(deque) == [] && batch != [] ==>
                g == Some(old(next)) && PoolNow() == NewGroup(old(PoolNow()), batch)
                && queue == old(queue) - (set u | u in batch)
      ensures old(deque) == [] && batch == [] ==> g == None && PoolNow() == old(PoolNow()) && queue == old(queue)
    {
      batch := [];
      if deque == [] {
        var urlList := TakeBatch();
        batch := urlList;
        if |urlList| > 0 {
          g := Some(next);
          CreateGroup(urlList);
        } else {
          g := None;
          assert queue == old(queue);
        }
      } else {
        g := Some(deque[0]);
        deque := deque[1..];
      }
    }

    /** Sends a group to the client; ok says whether the send succeeds. */
    method SetVisitingUrlGroup(c: ClientId, g: GroupId, ok: bool)
      requires Wired(FleetNow()) && c in clients && clients[c].state == Waiting && Ready(g)
      modifies this
      ensures State() == Hand(old(State()), c, g, ok)
    {
      dispatched := dispatched + [g];
      if ok {
        SendGroup(c, g);
      } else {
        LoseGroup(c, g);
        FailSend(g);
      }
    }

    method SendGroup(c: ClientId, g: GroupId)
      requires c in clients
      modifies `clients
      ensures clients == old(clients)[c := old(clients)[c].(held := Some(g), state := AwaitingVisiting)]
    {
      clients := clients[c := clients[c].(held := Some(g))];
      clients := clients[c := clients[c].(state := AwaitingVisiting)];
    }

    /** The send fails: the client is disconnected while it holds the group. */
    method LoseGroup(c: ClientId, g: GroupId)
      requires Wired(FleetNow()) && c in clients && clients[c].state == Waiting && Ready(g)
      modifies `urls, `groups, `deque, `next, `clients, `vms, `work
      ensures FleetNow() == ClientDown(WithClient(old(FleetNow()), c, old(clients)[c].(held := Some(g))), c)
      ensures PoolNow() == FailHeld(old(PoolNow()), g) && Ready(g)
    {
      clients := clients[c := clients[c].(held := Some(g))];
      SetClientState(c, Disconnected);
      FailHeldKeepsUrls(old(PoolNow()), g);
    }

    /** The third notification of a failed send. */
    method FailSend(g: GroupId)
      requires Ready(g)
      modifies `urls, `groups, `deque, `next
      ensures PoolNow() == Notify(SetMajor(old(PoolNow()), g, PROCESS_ERROR), g, GroupError)
    {
      groups := groups[g := groups[g].(major := Known(PROCESS_ERROR))];
      SetUrlGroupState(g, GroupError);
    }

    method Retrieve(c: ClientId, ok: bool) returns (ghost batch: seq<UrlId>)
      requires Resolved(State()) && c in clients && clients[c].state == Waiting && (ok ==> clients[c].open)
      requires (deque != [] ==> Ready(deque[0])) && queue <= urls.Keys
      modifies this
      ensures Enabled(cfg, old(State()), Take(c, batch, ok))
      ensures Resolved(old(State())) && State() == OnTake(old(State()), c, batch, ok)
    {
      var g;
      g, batch := TakeUrlGroup();
      if g.Some? {
        TakenThenHanded(old(State()), State(), c, batch, ok, g.value);
        SetVisitingUrlGroup(c, g.value, ok);
      }
    }

    // ---- Client messages ----

    method ParseSystemEvent(c: ClientId)
      requires Resolved(State()) && HolderReady(c)
      modifies this
      ensures Resolved(old(State())) && State() == OnSystemEvent(old(State()), c)
    {
      var client := clients[c];
      if client.state != Visiting || client.held.None? {
        return;
      }
      var g := client.held.value;
      if client.algorithm == Bulk && |groups[g].urls| > 1 {
        // recorded by the state change handler only
      } else if client.algorithm == Dac && |groups[g].urls| > 1 {
        SetMalicious(g, Dac, true, None);
        SetUrlGroupState(g, GroupVisited);
        ReleaseGroup(c, true);
      } else {
        SetMalicious(g, client.algorithm, true, None);
      }
    }

    /** The client forgets its group, then is disconnected or waits. */
    method ReleaseGroup(c: ClientId, down: bool)
      requires Wired(FleetNow()) && c in clients && clients[c].state != Disconnected && clients[c].state != Waiting
      modifies `urls, `groups, `deque, `next, `clients, `vms, `work
      ensures FleetNow() == Release(old(FleetNow()), c, down) && PoolNow() == old(PoolNow())
    {
      clients := clients[c := clients[c].(held := None)];
      if down {
        SetClientState(c, Disconnected);
      } else {
        SetClientState(c, Waiting);
      }
    }

    method ParseVisitStart(c: ClientId, algorithm: Algorithm)
      requires Resolved(State()) && HolderReady(c)
      modifies this
      ensures Resolved(old(State())) && State() == OnStart(old(State()), c, algorithm)
    {
      clients := clients[c := clients[c].(algorithm := algorithm)];
      if clients[c].held.Some? {
        StartGroup(clients[c].held.value, algorithm);
        SetClientState(c, Visiting);
      }
    }

    method StartGroup(g: GroupId, algorithm: Algorithm)
      requires Ready(g)
      modifies `urls, `groups, `deque, `next
      ensures PoolNow() == Notify(SetAlgorithm(old(PoolNow()), g, algorithm), g, GroupVisiting)
    {
      groups := groups[g := groups[g].(algorithm := algorithm)];
      SetUrlGroupState(g, GroupVisiting);
    }

    /** The error codes that the items of a result carry, the last one of each URL. */
    static function CodesOf(items: seq<(UrlId, int)>, zeroes: bool): map<UrlId, int> {
      if items == [] then map[]
      else
        var last := items[|items| - 1];
        var rest := CodesOf(items[..|items| - 1], zeroes);
        if last.1 == OK && !zeroes then rest else rest[last.0 := last.1]
    }

    /** Copies the items' codes to the URLs; a finish event skips zero codes. */
    method ReadItems(g: GroupId, items: seq<(UrlId, int)>, zeroes: bool)
      requires Ready(g) && (forall i :: 0 <= i < |items| ==> items[i].0 in groups[g].urls)
      modifies `urls
      ensures PoolNow() == ReportCodes(old(PoolNow()), g, CodesOf(items, zeroes))
    {
      for i := 0 to |items|
        modifies `urls
        invariant urls.Keys == old(urls).Keys
        invariant PoolNow() == ReportCodes(old(PoolNow()), g, CodesOf(items[..i], zeroes))
      {
        assert items[..i + 1][..i] == items[..i];
        if zeroes || items[i].1 != OK {
          urls := urls[items[i].0 := urls[items[i].0].(major := Known(items[i].1))];
        }
      }
      assert items[..|items|] == items;
    }

    /** The pool of a finish event up to its verdict. */
    method JudgeFinish(g: GroupId, algorithm: Algorithm, malicious: bool, changed: set<UrlId>, items: seq<(UrlId, int)>)
      returns (verdict: bool)
      requires Ready(g) && (forall i :: 0 <= i < |items| ==> items[i].0 in groups[g].urls)
      modifies `urls, `groups, `deque, `next
      ensures PoolNow() == Notify(FinishPool(old(PoolNow()), g, algorithm, malicious, changed, CodesOf(items, false)), g, GroupVisited)
      ensures verdict == (old(groups[g].malicious) || malicious)
    {
      ReadItems(g, items, false);
      NoZeroes(items);
      verdict := groups[g].malicious || malicious;
      if verdict {
        SetMalicious(g, algorithm, true, Some(changed));
      } else {
        SetMalicious(g, algorithm, false, Some(changed));
      }
      SetUrlGroupState(g, GroupVisited);
    }

    method ParseVisitFinish(c: ClientId, algorithm: Algorithm, malicious: bool, changed: set<UrlId>, items: seq<(UrlId, int)>)
      requires Resolved(State()) && HolderReady(c) && clients[c].state != Disconnected
      requires clients[c].held.Some? ==>
                 clients[c].state != Waiting && forall i :: 0 <= i < |items| ==> items[i].0 in groups[clients[c].held.value].urls
      modifies this
      ensures Resolved(old(State()))
      ensures State() == OnFinish(cfg, old(State()), c, algorithm, malicious, changed, CodesOf(items, false))
    {
      clients := clients[c := clients[c].(algorithm := algorithm)];
      if clients[c].held.Some? {
        var verdict := JudgeFinish(clients[c].held.value, algorithm, malicious, changed, items);
        ReleaseGroup(c, verdict || cfg.revertAfterEach);
      }
    }

    /** Writing state changes to the URLs' logs marks those URLs. */
    method WriteChanges(g: GroupId, changed: set<UrlId>)
      requires Ready(g)
      modifies `urls
      ensures PoolNow() == FlushChanges(old(PoolNow()), g, changed)
    {
      var us := groups[g].urls;
      ghost var f := (u: UrlId, url: Url) => if u in changed then url.(malicious := Some(true)) else url;
      for i := 0 to |us|
        invariant ChangedUpTo(urls, old(urls), us, i, f)
      {
        ChangedNext(urls, old(urls), us, i, f);
        if us[i] in changed {
          urls := urls[us[i] := urls[us[i]].(malicious := Some(true))];
        }
        assert urls == urls[us[i] := urls[us[i]]];
      }
      ChangedAll(urls, old(urls), us, f);
    }

    /** An error report's verdict and its notification: a failure for the codes to retry, else a visit. */
    method JudgeError(g: GroupId, algorithm: Algorithm, malicious: bool, changed: set<UrlId>, items: seq<(UrlId, int)>, code: int)
      requires Ready(g) && (forall i :: 0 <= i < |items| ==> items[i].0 in groups[g].urls)
      modifies `urls, `groups, `deque, `next
      ensures PoolNow() == Notify(ErrorPool(old(PoolNow()), g, algorithm, malicious, changed, CodesOf(items, true), code), g,
                                  if RetryCode(code) then GroupError else GroupVisited)
    {
      ReadError(g, algorithm, malicious, changed, items, code);
      if RetryCode(code) {
        SetUrlGroupState(g, GroupError);
      } else {
        SetUrlGroupState(g, GroupVisited);
      }
    }

    method ReadError(g: GroupId, algorithm: Algorithm, malicious: bool, changed: set<UrlId>, items: seq<(UrlId, int)>, code: int)
      requires Ready(g) && (forall i :: 0 <= i < |items| ==> items[i].0 in groups[g].urls)
      modifies `urls, `groups
      ensures PoolNow() == ErrorPool(old(PoolNow()), g, algorithm, malicious, changed, CodesOf(items, true), code)
      ensures Ready(g)
    {
      ReadItems(g, items, true);
      if RetryCode(code) {
        SetMalicious(g, algorithm, malicious, Some(changed));
        groups := groups[g := groups[g].(major := Known(code))];
      } else {
        if malicious {
          WriteChanges(g, changed);
        }
        SetMalicious(g, algorithm, malicious, Some(changed));
      }
    }

    method ParseVisitError(c: ClientId, algorithm: Algorithm, malicious: bool, changed: set<UrlId>, items: seq<(UrlId, int)>,
                           code: int)
      requires Resolved(State()) && HolderReady(c) && clients[c].state != Disconnected
      requires clients[c].held.Some? ==>
                 clients[c].state != Waiting && forall i :: 0 <= i < |items| ==> items[i].0 in groups[clients[c].held.value].urls
      modifies this
      ensures Resolved(old(State()))
      ensures State() == OnError(cfg, old(State()), c, algorithm, malicious, changed, CodesOf(items, true), code)
    {
      clients := clients[c := clients[c].(algorithm := algorithm)];
      if clients[c].held.Some? {
        CloseError(c, clients[c].held.value, algorithm, malicious, changed, items, code);
      }
    }

    /** The error is judged, then the client lets go of its group and is disconnected or waits. */
    method CloseError(c: ClientId, g: GroupId, algorithm: Algorithm, malicious: bool, changed: set<UrlId>,
                      items: seq<(UrlId, int)>, code: int)
      requires Ready(g) && (forall i :: 0 <= i < |items| ==> items[i].0 in groups[g].urls)
      requires Wired(FleetNow()) && c in clients && clients[c].state != Disconnected && clients[c].state != Waiting
      modifies `urls, `groups, `deque, `next, `clients, `vms, `work
      ensures PoolNow() == Notify(ErrorPool(old(PoolNow()), g, algorithm, malicious, changed, CodesOf(items, true), code), g,
                                  if RetryCode(code) then GroupError else GroupVisited)
      ensures FleetNow() == Release(old(FleetNow()), c, RetryCode(code) || malicious || cfg.revertAfterEach)
    {
      JudgeError(g, algorithm, malicious, changed, items, code);
      if RetryCode(code) {
        ReleaseGroup(c, true);
      } else {
        ReleaseGroup(c, malicious || cfg.revertAfterEach);
      }
    }

    // ---- VirtualMachinesStateChecker ----

    /** The checker gives up on a machine: its client's group fails, then the machine waits for its revert. */
    method CheckerTimeout(v: VmId, code: int)
      requires Resolved(State()) && Attached(FleetNow()) && v in vms && (vms[v].client.Some? ==> HolderReady(vms[v].client.value))
      modifies this
      ensures Resolved(old(State())) && State() == OnTimeout(old(State()), v, code)
    {
      SetError(v, code);
      SetVmState(v, WaitingRevert);
    }

    method SetError(v: VmId, code: int)
      requires Wired(FleetNow()) && v in vms && (vms[v].client.Some? ==> HolderReady(vms[v].client.value))
      modifies `urls, `groups, `deque, `next
      ensures vms[v].client.Some? ==> HolderReady(vms[v].client.value)
      ensures PoolNow() ==
              if vms[v].client.Some? && clients[vms[v].client.value].held.Some?
              then Notify(SetMajor(old(PoolNow()), clients[vms[v].client.value].held.value, code),
                          clients[vms[v].client.value].held.value, GroupError)
              else old(PoolNow())
    {
      if vms[v].client.Some? {
        var c := vms[v].client.value;
        if clients[c].held.Some? {
          var g := clients[c].held.value;
          groups := groups[g := groups[g].(major := Known(code))];
          SetUrlGroupState(g, GroupError);
        }
      }
    }
  }

  /** A URL's code is that of its last item, not counting items with code zero in a finish event. */
  lemma {:induction false} CodesTheorem(items: seq<(UrlId, int)>, zeroes: bool, i: nat)
    requires i < |items| && (zeroes || items[i].1 != 0)
    requires forall j :: i < j < |items| && items[j].0 == items[i].0 ==> !zeroes && items[j].1 == 0
    ensures items[i].0 in CaptureServer.CodesOf(items, zeroes)
    ensures CaptureServer.CodesOf(items, zeroes)[items[i].0] == items[i].1
  {
    if i < |items| - 1 {
      CodesTheorem(items[..|items| - 1], zeroes, i);
    }
  }

  /** No other URL has a code. */
  lemma {:induction false} CodesOnly(items: seq<(UrlId, int)>, zeroes: bool, u: UrlId)
    requires forall i :: 0 <= i < |items| && items[i].0 == u ==> !zeroes && items[i].1 == 0
    ensures u !in CaptureServer.CodesOf(items, zeroes)
  {
    if items != [] {
      CodesOnly(items[..|items| - 1], zeroes, u);
    }
  }

  /** Codes read without zeroes are the non-zero ones. */
  lemma {:induction false} NoZeroes(items: seq<(UrlId, int)>)
    ensures NonZero(CaptureServer.CodesOf(items, false)) == CaptureServer.CodesOf(items, false)
  {
    if items != [] {
      NoZeroes(items[..|items| - 1]);
    }
  }

  /** A group that was popped or made of a batch is what the state machine hands over. */
  lemma TakenThenHanded(s: Server, t: Server, c: ClientId, batch: seq<UrlId>, ok: bool, g: GroupId)
    requires Resolved(s) && c in s.fleet.clients
    requires if s.pool.deque != [] then g == s.pool.deque[0] && t == s.(pool := s.pool.(deque := s.pool.deque[1..]))
             else batch != [] && g == s.pool.next
                  && t == s.(pool := NewGroup(s.pool, batch), queue := s.queue - (set u | u in batch))
    ensures Resolved(s) && g in t.pool.groups && (forall h :: h in t.pool.groups ==> h < t.pool.next)
    ensures OnTake(s, c, batch, ok) == Hand(t, c, g, ok)
  {
  }

  lemma NotifyKeepsUrls(p: Pool, g: GroupId, state: GroupState)
    requires g in p.groups && (forall h :: h in p.groups ==> h < p.next)
    ensures var q := Notify(p, g, state);
            q.groups[g].urls == p.groups[g].urls && q.urls.Keys == p.urls.Keys
  {
  }

  lemma FailHeldKeepsUrls(p: Pool, g: GroupId)
    requires g in p.groups && (forall h :: h in p.groups ==> h < p.next)
    ensures var q := FailHeld(p, g);
            q.groups[g].urls == p.groups[g].urls && q.urls.Keys == p.urls.Keys
  {
    var p1 := Notify(p, g, GroupError);
    NotifyKeepsUrls(p, g, GroupError);
    var p2 := if p1.groups[g].malicious then p1 else Pools.SetMalicious(p1, g, Dac, false, None);
    assert p2.groups[g].urls == p.groups[g].urls && p2.urls.Keys == p.urls.Keys;
    NotifyKeepsUrls(SetMajor(p2, g, CONNECTION_RESET), g, GroupError);
  }
}
