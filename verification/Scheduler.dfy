/** The server as a state machine. Each handler (a message of a client, a tick of the state
    checker, a revert work item, a client asking for work) is one atomic step. */
module Scheduler {
  import opened Prelude
  import opened UrlGroups
  import opened Lifecycle
  import opened GroupLedger

  datatype Config = Config(groupSize: nat, revertAfterEach: bool)

  /** `queue` holds the URLs not yet batched; `dispatched` logs every group handed to a client. */
  datatype Server = Server(pool: Pool, queue: set<UrlId>, fleet: Fleet, dispatched: seq<GroupId>)

  const INITIAL := Server(EMPTY_POOL, {}, Fleet(map[], map[], []), [])

  datatype Event =
    | AddUrl(url: UrlId)
    | AddVm(vm: VmId)
    | Connect(client: ClientId, vm: VmId, ok: bool)
    | Take(client: ClientId, batch: seq<UrlId>, ok: bool)
    | Start(client: ClientId, algorithm: Algorithm)
    | OtherVisit(client: ClientId, algorithm: Algorithm)
    | SystemEvent(client: ClientId)
    | Finish(client: ClientId, algorithm: Algorithm, malicious: bool, changed: set<UrlId>, codes: map<UrlId, int>)
    | ErrorReport(client: ClientId, algorithm: Algorithm, malicious: bool, changed: set<UrlId>, codes: map<UrlId, int>,
                  code: int)
    | SocketFailure(client: ClientId)
    | SendFailure(client: ClientId)
    | Timeout(vm: VmId, code: int)
    | Revert(outcome: VmState)

  /** Visitation errors after which the group counts as visited. */
  predicate RetryCode(code: int) {
    code !in {0x10000110, 0x10000112, 0x10000113, 0x10000300}
  }

  function BatchSize(cfg: Config, available: nat): nat {
    var n := Min(cfg.groupSize, available);
    Min(if n == 0 then 1 else n, available)
  }

  predicate Speaks(s: Server, c: ClientId) {
    c in s.fleet.clients && s.fleet.clients[c].open
  }

  /** When a step can happen. A machine that still has a client is not connected again. */
  predicate Enabled(cfg: Config, s: Server, e: Event) {
    match e
    case AddUrl(u) => u !in s.pool.urls
    case AddVm(v) => v !in s.fleet.vms
    case Connect(c, v, ok) => c !in s.fleet.clients && v in s.fleet.vms && s.fleet.vms[v].client.None?
    case Take(c, batch, ok) =>
      && c in s.fleet.clients && s.fleet.clients[c].state == Waiting && (ok ==> s.fleet.clients[c].open)
      && NoDup(batch) && (forall u :: u in batch ==> u in s.queue)
      && |batch| == (if s.pool.deque == [] then BatchSize(cfg, |s.queue|) else 0)
    case Start(c, alg) => Speaks(s, c)
    case OtherVisit(c, alg) => Speaks(s, c)
    case SystemEvent(c) => Speaks(s, c)
    case Finish(c, _, _, _, _) => Speaks(s, c)
    case ErrorReport(c, _, _, _, _, _) => Speaks(s, c)
    case SocketFailure(c) => Speaks(s, c)
    case SendFailure(c) => c in s.fleet.clients && s.fleet.clients[c].state != Disconnected
    case Timeout(v, code) => v in s.fleet.vms && (code == CLIENT_INACTIVITY || code == VM_STALLED)
    case Revert(outcome) => s.fleet.work != [] && outcome in {Running, VmError, Reverting}
  }

  // ---- The handlers ----

  function OnConnect(s: Server, c: ClientId, v: VmId, ok: bool): Server
    requires Wired(s.fleet) && c !in s.fleet.clients && v in s.fleet.vms
  {
    var f := s.fleet;
    var f1 := Fleet(f.clients[c := Client(Connected, None, NoAlgorithm, v, true)],
                    f.vms[v := f.vms[v].(client := Some(c))], f.work);
    // A failing option message disconnects; the handler then still moves on to Waiting.
    var f2 := if ok then f1 else ClientDown(f1, c);
    s.(fleet := WithVm(WithClient(f2, c, f2.clients[c].(state := Waiting)), v, f2.vms[v].(state := Running)))
  }

  /** Handing group g to client c; a failing send fails the group for the client's disconnect and once more. */
  function Hand(s: Server, c: ClientId, g: GroupId, ok: bool): Server
    requires Wired(s.fleet) && c in s.fleet.clients && g in s.pool.groups && (forall h :: h in s.pool.groups ==> h < s.pool.next)
  {
    var client := s.fleet.clients[c].(held := Some(g));
    var log := s.dispatched + [g];
    if ok then
      s.(fleet := WithClient(s.fleet, c, client.(state := AwaitingVisiting)), dispatched := log)
    else
      s.(fleet := ClientDown(WithClient(s.fleet, c, client), c),
         pool := Notify(SetMajor(FailHeld(s.pool, g), g, PROCESS_ERROR), g, GroupError),
         dispatched := log)
  }

  function OnTake(s: Server, c: ClientId, batch: seq<UrlId>, ok: bool): Server
    requires Wired(s.fleet) && c in s.fleet.clients && (forall h :: h in s.pool.groups ==> h < s.pool.next)
    requires s.pool.deque != [] ==> s.pool.deque[0] in s.pool.groups
  {
    if s.pool.deque != [] then
      Hand(s.(pool := s.pool.(deque := s.pool.deque[1..])), c, s.pool.deque[0], ok)
    else if batch != [] then
      Hand(s.(pool := NewGroup(s.pool, batch), queue := s.queue - (set u | u in batch)), c, s.pool.next, ok)
    else s
  }

  /** A visit event first records the algorithm the client reports. */
  function Hear(s: Server, c: ClientId, alg: Algorithm): Server
    requires c in s.fleet.clients
  {
    s.(fleet := WithClient(s.fleet, c, s.fleet.clients[c].(algorithm := alg)))
  }

  function OnStart(s: Server, c: ClientId, alg: Algorithm): Server
    requires c in s.fleet.clients && (forall h :: h in s.pool.groups ==> h < s.pool.next)
    requires s.fleet.clients[c].held.Some? ==> s.fleet.clients[c].held.value in s.pool.groups
  {
    var s1 := Hear(s, c, alg);
    var client := s1.fleet.clients[c];
    if client.held.None? then s1
    else s1.(pool := Notify(SetAlgorithm(s.pool, client.held.value, alg), client.held.value, GroupVisiting),
             fleet := WithClient(s1.fleet, c, client.(state := Visiting)))
  }

  /** The client lets go of its group and is disconnected, or waits for the next one. */
  function Release(f: Fleet, c: ClientId, down: bool): Fleet
    requires Wired(f) && c in f.clients
  {
    var client := f.clients[c].(held := None);
    if down then ClientDown(WithClient(f, c, client), c)
    else WithVm(WithClient(f, c, client.(state := Waiting)), client.vm, f.vms[client.vm].(state := Running))
  }

  function OnSystemEvent(s: Server, c: ClientId): Server
    requires Wired(s.fleet) && c in s.fleet.clients && (forall h :: h in s.pool.groups ==> h < s.pool.next)
    requires s.fleet.clients[c].held.Some? ==> s.fleet.clients[c].held.value in s.pool.groups
  {
    var client := s.fleet.clients[c];
    if client.state != Visiting || client.held.None? then s
    else
      var g := client.held.value;
      var many := |s.pool.groups[g].urls| > 1;
      if client.algorithm == Bulk && many then s
      else if client.algorithm == Dac && many then
        s.(pool := Notify(SetMalicious(s.pool, g, Dac, true, None), g, GroupVisited), fleet := Release(s.fleet, c, true))
      else s.(pool := SetMalicious(s.pool, g, client.algorithm, true, None))
  }

  /** A finish event's zero codes are not recorded. */
  function NonZero(codes: map<UrlId, int>): map<UrlId, int> {
    map u | u in codes && codes[u] != OK :: codes[u]
  }

  /** The pool of a finish event just before the group counts as visited: an earlier system event
      or the reported flag makes it malicious. */
  function FinishPool(p: Pool, g: GroupId, alg: Algorithm, malicious: bool, changed: set<UrlId>, codes: map<UrlId, int>): Pool
    requires g in p.groups
  {
    SetMalicious(ReportCodes(p, g, NonZero(codes)), g, alg, p.groups[g].malicious || malicious, Some(changed))
  }

  function OnFinish(cfg: Config, s: Server, c: ClientId, alg: Algorithm, malicious: bool, changed: set<UrlId>,
                    codes: map<UrlId, int>): Server
    requires Wired(s.fleet) && c in s.fleet.clients && (forall h :: h in s.pool.groups ==> h < s.pool.next)
    requires s.fleet.clients[c].held.Some? ==> s.fleet.clients[c].held.value in s.pool.groups
  {
    var s1 := Hear(s, c, alg);
    if s.fleet.clients[c].held.None? then s1
    else
      var g := s.fleet.clients[c].held.value;
      var verdict := s.pool.groups[g].malicious || malicious;
      s1.(pool := Notify(FinishPool(s.pool, g, alg, malicious, changed, codes), g, GroupVisited),
          fleet := Release(s1.fleet, c, verdict || cfg.revertAfterEach))
  }

  /** The pool of an error report just before the group counts as failed (a code to retry) or as visited. */
  function ErrorPool(p: Pool, g: GroupId, alg: Algorithm, malicious: bool, changed: set<UrlId>, codes: map<UrlId, int>,
                     code: int): Pool
    requires g in p.groups
  {
    var p1 := ReportCodes(p, g, codes);
    if RetryCode(code) then SetMajor(SetMalicious(p1, g, alg, malicious, Some(changed)), g, code)
    else SetMalicious(if malicious then FlushChanges(p1, g, changed) else p1, g, alg, malicious, Some(changed))
  }

  function OnError(cfg: Config, s: Server, c: ClientId, alg: Algorithm, malicious: bool, changed: set<UrlId>,
                   codes: map<UrlId, int>, code: int): Server
    requires Wired(s.fleet) && c in s.fleet.clients && (forall h :: h in s.pool.groups ==> h < s.pool.next)
    requires s.fleet.clients[c].held.Some? ==> s.fleet.clients[c].held.value in s.pool.groups
  {
    var s1 := Hear(s, c, alg);
    if s.fleet.clients[c].held.None? then s1
    else
      var g := s.fleet.clients[c].held.value;
      s1.(pool := Notify(ErrorPool(s.pool, g, alg, malicious, changed, codes, code), g,
                         if RetryCode(code) then GroupError else GroupVisited),
          fleet := Release(s1.fleet, c, RetryCode(code) || malicious || cfg.revertAfterEach))
  }

  function OnSocketFailure(s: Server, c: ClientId): Server
    requires c in s.fleet.clients
    requires s.fleet.clients[c].held.Some? ==> s.fleet.clients[c].held.value in s.pool.groups
  {
    if s.fleet.clients[c].held.None? then s
    else s.(pool := SetMajor(s.pool, s.fleet.clients[c].held.value, SOCKET_ERROR))
  }

  /** A live client is disconnected while it may hold a group. */
  function OnSendFailure(s: Server, c: ClientId): Server
    requires Wired(s.fleet) && c in s.fleet.clients && (forall h :: h in s.pool.groups ==> h < s.pool.next)
    requires s.fleet.clients[c].held.Some? ==> s.fleet.clients[c].held.value in s.pool.groups
  {
    s.(fleet := ClientDown(s.fleet, c),
       pool := if s.fleet.clients[c].held.Some? then FailHeld(s.pool, s.fleet.clients[c].held.value) else s.pool)
  }

  /** The checker fails the group of the machine's client, then makes the machine wait for its
      revert, which disconnects the client and fails the group again. */
  function OnTimeout(s: Server, v: VmId, code: int): Server
    requires Wired(s.fleet) && v in s.fleet.vms && (forall h :: h in s.pool.groups ==> h < s.pool.next)
    requires forall c {:trigger s.fleet.clients[c]} ::
               c in s.fleet.clients && s.fleet.clients[c].held.Some? ==> s.fleet.clients[c].held.value in s.pool.groups
  {
    var f := s.fleet;
    if f.vms[v].client.Some? && f.clients[f.vms[v].client.value].held.Some? then
      var g := f.clients[f.vms[v].client.value].held.value;
      var p := Notify(SetMajor(s.pool, g, code), g, GroupError);
      s.(fleet := VmWaits(f, v), pool := if Victim(f, v).Some? then FailHeld(p, g) else p)
    else s.(fleet := VmWaits(f, v))
  }

  /** All that Apply needs of a state. */
  predicate Resolved(s: Server) {
    && Wired(s.fleet) && RevertQueued(s.fleet)
    && (forall h :: h in s.pool.groups ==> h < s.pool.next)
    && (forall g :: g in s.pool.deque ==> g in s.pool.groups)
    && (forall c {:trigger s.fleet.clients[c]} ::
          c in s.fleet.clients && s.fleet.clients[c].held.Some? ==> s.fleet.clients[c].held.value in s.pool.groups)
  }

  function Apply(cfg: Config, s: Server, e: Event): Server
    requires Resolved(s) && Enabled(cfg, s, e)
  {
    match e
    case AddUrl(u) => s.(pool := s.pool.(urls := s.pool.urls[u := Url(None, UrlFresh, OK)]), queue := s.queue + {u})
    case AddVm(v) => s.(fleet := Fleet(s.fleet.clients, s.fleet.vms[v := Vm(WaitingRevert, None)], s.fleet.work + [v]))
    case Connect(c, v, ok) => OnConnect(s, c, v, ok)
    case Take(c, batch, ok) => OnTake(s, c, batch, ok)
    case Start(c, alg) => OnStart(s, c, alg)
    case OtherVisit(c, alg) => Hear(s, c, alg)
    case SystemEvent(c) => OnSystemEvent(s, c)
    case Finish(c, alg, malicious, changed, codes) => OnFinish(cfg, s, c, alg, malicious, changed, codes)
    case ErrorReport(c, alg, malicious, changed, codes, code) => OnError(cfg, s, c, alg, malicious, changed, codes, code)
    case SocketFailure(c) => OnSocketFailure(s, c)
    case SendFailure(c) => OnSendFailure(s, c)
    case Timeout(v, code) => OnTimeout(s, v, code)
    case Revert(outcome) => s.(fleet := Reverted(s.fleet, outcome))
  }
}
