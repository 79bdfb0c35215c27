/** What each message and each failure leaves behind, field by field and through all the setters it sets off: the
    verdict, state and code of every URL, the group, the client, and whether its machine is reverted. */
module Outcomes {
  import opened Prelude
  import opened UrlGroups
  import opened Lifecycle
  import opened GroupLedger
  import opened Scheduler
  import opened Holding
  import opened Conservation

  /** The codes of the server's table; INVALID_ERROR_CODE_FROM_CLIENT stands for all others. */
  const CODES := [0, 0x10000101, 0x10000102, 0x10000103, 0x10000104, 0x10000110, 0x10000111, 0x10000112, 0x10000113,
                  0x10000114, 0x10000200, 0x10000300, 0x10004000, 0x10004100, 0x10004200, 0x10004300, 0x10005000,
                  0x10005001, 0x10005002, 0x10005003, 0x10006000, 0x10007000]

  /** A code that the server does not know never counts as success. */
  lemma KnownCodes(code: int)
    ensures Known(code) == if code in CODES then code else 0x10006000
    ensures Known(code) == 0 <==> code == 0
  {
    assert code in CODES <==> exists i :: 0 <= i < 22 && CODES[i] == code;
  }

  // ---- Clients and machines ----

  /** Client c is gone, and its machine waits to be reverted. */
  predicate TakenDown(f: Fleet, c: ClientId, v: VmId) {
    && c in f.clients && f.clients[c].state == Disconnected && !f.clients[c].open && f.clients[c].vm == v
    && v in f.vms && f.vms[v] == Vm(WaitingRevert, None) && v in f.work
  }

  /** Client c waits for its next group on a machine that runs; nothing is reverted for it. */
  predicate GoesOn(f: Fleet, g: Fleet, c: ClientId, v: VmId)
    requires c in f.clients && v in f.vms
  {
    && c in g.clients && g.clients[c].state == Waiting && g.clients[c].open == f.clients[c].open && g.clients[c].vm == v
    && v in g.vms && g.vms[v] == Vm(Running, f.vms[v].client) && g.work == f.work
  }

  /** Nobody but client c on machine v is concerned. */
  predicate OthersSame(f: Fleet, g: Fleet, c: ClientId, v: VmId) {
    && g.clients.Keys == f.clients.Keys && (forall d :: d in f.clients && d != c ==> g.clients[d] == f.clients[d])
    && g.vms.Keys == f.vms.Keys && (forall w :: w in f.vms && w != v ==> g.vms[w] == f.vms[w])
    && (g.work == f.work || g.work == f.work + [v])
  }

  lemma DownOutcome(f: Fleet, c: ClientId)
    requires Sound(f) && c in f.clients
    ensures TakenDown(ClientDown(f, c), c, f.clients[c].vm) && OthersSame(f, ClientDown(f, c), c, f.clients[c].vm)
    ensures ClientDown(f, c).clients[c].held == f.clients[c].held
  {
  }

  /** What becomes of the client and its machine when a visit ends. */
  predicate VisitEnded(f: Fleet, g: Fleet, c: ClientId, down: bool)
    requires c in f.clients && f.clients[c].vm in f.vms
  {
    && OthersSame(f, g, c, f.clients[c].vm) && c in g.clients && g.clients[c].held == None
    && if down then TakenDown(g, c, f.clients[c].vm) else GoesOn(f, g, c, f.clients[c].vm)
  }

  lemma ReleaseOutcome(f: Fleet, h: Fleet, c: ClientId, alg: Algorithm, down: bool)
    requires Sound(f) && c in f.clients && f.clients[c].state != Disconnected
    requires h == WithClient(f, c, f.clients[c].(algorithm := alg))
    ensures Wired(h) && VisitEnded(f, Release(h, c, down), c, down) && Release(h, c, down).clients[c].algorithm == alg
  {
  }

  /** After a finish the client goes down and its machine is reverted exactly if the group was flagged before, the
      message says so, or every visit is followed by a revert. */
  lemma FinishFleet(cfg: Config, s: Server, e: Event)
    requires Shaped(s) && Enabled(cfg, s, e) && e.Finish? && s.fleet.clients[e.client].held.Some?
    ensures Resolved(s)
    ensures VisitEnded(s.fleet, Apply(cfg, s, e).fleet, e.client,
                       s.pool.groups[s.fleet.clients[e.client].held.value].malicious || e.malicious || cfg.revertAfterEach)
    ensures Apply(cfg, s, e).fleet.clients[e.client].algorithm == e.algorithm
  {
    ShapedResolved(s);
    ReleaseOutcome(s.fleet, Hear(s, e.client, e.algorithm).fleet, e.client, e.algorithm,
                   s.pool.groups[s.fleet.clients[e.client].held.value].malicious || e.malicious || cfg.revertAfterEach);
  }

  /** The codes, in decimals as the source compares them, after which a group counts as visited all the same. */
  predicate Tolerated(code: int) {
    code == 268435728 || code == 268435730 || code == 268435731 || code == 268436224
  }

  /** After an error report the machine is also reverted for every code that is not tolerated. An earlier flag of
      the group does not count. */
  lemma ErrorFleet(cfg: Config, s: Server, e: Event)
    requires Shaped(s) && Enabled(cfg, s, e) && e.ErrorReport? && s.fleet.clients[e.client].held.Some?
    ensures Resolved(s)
    ensures VisitEnded(s.fleet, Apply(cfg, s, e).fleet, e.client,
                       !Tolerated(e.code) || e.malicious || cfg.revertAfterEach)
    ensures Apply(cfg, s, e).fleet.clients[e.client].algorithm == e.algorithm
  {
    ShapedResolved(s);
    ReleaseOutcome(s.fleet, Hear(s, e.client, e.algorithm).fleet, e.client, e.algorithm,
                   !Tolerated(e.code) || e.malicious || cfg.revertAfterEach);
  }

  /** A system event ends the visit, and reverts the machine, exactly if the client visits several URLs with dac. */
  lemma SystemEventFleet(cfg: Config, s: Server, e: Event)
    requires Shaped(s) && Enabled(cfg, s, e) && e.SystemEvent?
    ensures Resolved(s)
    ensures var client := s.fleet.clients[e.client];
            if client.state == Visiting && client.algorithm == Dac && client.held.Some?
               && |s.pool.groups[client.held.value].urls| > 1
            then VisitEnded(s.fleet, Apply(cfg, s, e).fleet, e.client, true)
            else Apply(cfg, s, e).fleet == s.fleet
  {
    ShapedResolved(s);
    HearSame(s, e.client);
    if s.fleet.clients[e.client].state == Visiting {
      ReleaseOutcome(s.fleet, s.fleet, e.client, s.fleet.clients[e.client].algorithm, true);
    }
  }

  /** A client that connects waits on a running machine. If an option message failed it is already cut off: it is not
      the machine's client, its socket is closed, and a revert is queued. */
  lemma ConnectFleet(cfg: Config, s: Server, e: Event)
    requires Shaped(s) && Enabled(cfg, s, e) && e.Connect?
    ensures Resolved(s)
    ensures var t := Apply(cfg, s, e);
            && t == s.(fleet := t.fleet)
            && t.fleet.clients == s.fleet.clients[e.client := Client(Waiting, None, NoAlgorithm, e.vm, e.ok)]
            && t.fleet.vms == s.fleet.vms[e.vm := Vm(Running, if e.ok then Some(e.client) else None)]
            && if e.ok then t.fleet.work == s.fleet.work
               else e.vm in t.fleet.work && (t.fleet.work == s.fleet.work || t.fleet.work == s.fleet.work + [e.vm])
  {
    ShapedResolved(s);
  }

  /** The machine whose turn it is ends in the outcome of its revert, and nothing else changes. */
  lemma RevertFleet(cfg: Config, s: Server, e: Event)
    requires Shaped(s) && Enabled(cfg, s, e) && e.Revert?
    ensures Resolved(s)
    ensures var v := s.fleet.work[0];
            && v in s.fleet.vms && v !in Apply(cfg, s, e).fleet.work
            && Apply(cfg, s, e) == s.(fleet := Fleet(s.fleet.clients, s.fleet.vms[v := Vm(e.outcome, s.fleet.vms[v].client)],
                                                     s.fleet.work[1..]))
  {
    ShapedResolved(s);
    assert s.fleet.work == [s.fleet.work[0]] + s.fleet.work[1..];
  }

  /** A failing send takes the client down with what it holds. */
  lemma SendFailureFleet(cfg: Config, s: Server, e: Event)
    requires Shaped(s) && Enabled(cfg, s, e) && e.SendFailure?
    ensures Resolved(s)
    ensures var v := s.fleet.clients[e.client].vm;
            TakenDown(Apply(cfg, s, e).fleet, e.client, v) && OthersSame(s.fleet, Apply(cfg, s, e).fleet, e.client, v)
  {
    ShapedResolved(s);
    DownOutcome(s.fleet, e.client);
  }

  /** A timeout takes the machine's client down, if it has one, and makes the machine wait for its revert. */
  lemma TimeoutFleet(cfg: Config, s: Server, e: Event)
    requires Shaped(s) && Enabled(cfg, s, e) && e.Timeout?
    ensures Resolved(s)
    ensures var t := Apply(cfg, s, e);
            && e.vm in t.fleet.vms && t.fleet.vms[e.vm] == Vm(WaitingRevert, None) && e.vm in t.fleet.work
            && match s.fleet.vms[e.vm].client
               case None => t.fleet.clients == s.fleet.clients && forall w :: w in s.fleet.vms && w != e.vm ==> t.fleet.vms[w] == s.fleet.vms[w]
               case Some(c) => TakenDown(t.fleet, c, e.vm) && OthersSame(s.fleet, t.fleet, c, e.vm)
  {
    ShapedResolved(s);
    if s.fleet.vms[e.vm].client.Some? {
      assert Victim(s.fleet, e.vm) == s.fleet.vms[e.vm].client;
      DownOutcome(s.fleet, s.fleet.vms[e.vm].client.value);
    } else {
      QueuedKeeps(s.fleet.work, e.vm);
    }
  }

  /** A batch has as many URLs as the group size, fewer if there are not so many, one for a group size of zero. */
  lemma BatchOutcome(cfg: Config, s: Server, e: Event)
    requires Enabled(cfg, s, e) && e.Take? && s.pool.deque == []
    ensures |e.batch| == if |s.queue| < cfg.groupSize then |s.queue| else if cfg.groupSize == 0 < |s.queue| then 1 else cfg.groupSize
  {
  }

  /** Group g of p is the head of the deque, or else the new group of a batch. */
  predicate TakenFrom(s: Pool, batch: seq<UrlId>, p: Pool, g: GroupId) {
    if s.deque != [] then g == s.deque[0] && p == s.(deque := s.deque[1..])
    else batch != [] && g == s.next
         && p == s.(groups := s.groups[g := Group(batch, GroupFresh, 0, 0, false, NoAlgorithm, 0, g)], next := g + 1)
  }

  /** A waiting client is given the head of the deque, or else a new group of URLs from the queue. */
  lemma TakeOutcome(cfg: Config, s: Server, e: Event, p: Pool, g: GroupId)
    requires Shaped(s) && Enabled(cfg, s, e) && e.Take? && e.ok && TakenFrom(s.pool, e.batch, p, g)
    ensures Resolved(s)
    ensures Apply(cfg, s, e) ==
            Server(p, if s.pool.deque != [] then s.queue else s.queue - (set u | u in e.batch),
                   s.fleet.(clients :=
                     s.fleet.clients[e.client := s.fleet.clients[e.client].(held := Some(g), state := AwaitingVisiting)]),
                   s.dispatched + [g])
  {
    ShapedResolved(s);
  }

  /** If the send fails the client goes down, and the group is handed out all the same. */
  lemma LostTakeOutcome(cfg: Config, s: Server, e: Event, p: Pool, g: GroupId)
    requires Shaped(s) && Enabled(cfg, s, e) && e.Take? && !e.ok && TakenFrom(s.pool, e.batch, p, g)
    ensures Resolved(s)
    ensures var t, v := Apply(cfg, s, e), s.fleet.clients[e.client].vm;
            && t.dispatched == s.dispatched + [g]
            && t.queue == (if s.pool.deque != [] then s.queue else s.queue - (set u | u in e.batch))
            && TakenDown(t.fleet, e.client, v) && OthersSame(s.fleet, t.fleet, e.client, v)
  {
    ShapedResolved(s);
    HandDown(s.fleet, e.client, g);
    var client := s.fleet.clients[e.client].(held := Some(g), state := AwaitingVisiting);
    LostFleet(s.fleet, WithClient(s.fleet, e.client, client), e.client, client);
  }

  lemma LostFleet(f: Fleet, h: Fleet, c: ClientId, client: Client)
    requires Sound(f) && c in f.clients && f.clients[c].state == Waiting && h == WithClient(f, c, client)
    requires client.vm == f.clients[c].vm && client.state == AwaitingVisiting && client.held.Some?
    ensures Wired(h) && TakenDown(ClientDown(h, c), c, client.vm) && OthersSame(f, ClientDown(h, c), c, client.vm)
  {
    ClientChangedSound(f, c, client);
    DownOutcome(h, c);
  }

  // ---- Groups and their URLs ----

  /** The verdicts after group g of p was judged: under bulk by the state changes of each URL; else all benign for a
      benign group, malicious for a single URL, and open for several. No other URL's verdict changes. */
  predicate Judged(p: Pool, q: Pool, g: GroupId, bulk: bool, bad: bool, changed: set<UrlId>)
    requires g in p.groups
  {
    && q.urls.Keys == p.urls.Keys
    && (forall u {:trigger q.urls[u]} :: u in p.urls && u in p.groups[g].urls ==>
          q.urls[u].malicious == if bulk then Some(u in changed)
                                 else if !bad then Some(false)
                                 else if |p.groups[g].urls| == 1 then Some(true) else p.urls[u].malicious)
    && (forall u {:trigger q.urls[u]} :: u in p.urls && u !in p.groups[g].urls ==> q.urls[u] == p.urls[u])
  }

  /** Judging a group sets its flag and the verdicts of its URLs, and nothing else. Without a report of state changes a
      bulk group's URLs all get the group's verdict. */
  lemma VerdictTheorem(p: Pool, g: GroupId, alg: Algorithm, bad: bool, changed: Option<set<UrlId>>)
    requires g in p.groups
    ensures var q := SetMalicious(p, g, alg, bad, changed);
            && Judged(p, q, g, alg == Bulk, bad,
                      if changed.Some? then changed.value else if bad then set u | u in p.groups[g].urls else {})
            && q == p.(urls := q.urls, groups := p.groups[g := p.groups[g].(malicious := bad)])
            && forall u :: u in p.urls ==> q.urls[u] == p.urls[u].(malicious := q.urls[u].malicious)
  {
    if |p.groups[g].urls| == 1 {
      assert forall u :: u in p.groups[g].urls ==> u == p.groups[g].urls[0];
    }
  }

  /** Group g was split into fresh halves, the second on top of the deque. */
  predicate Split2(p: Pool, q: Pool, g: GroupId)
    requires g in p.groups
  {
    var us, r := p.groups[g].urls, p.groups[g].origin;
    && q.deque == [p.next + 1, p.next] + p.deque && q.next == p.next + 2
    && q.groups.Keys == p.groups.Keys + {p.next, p.next + 1}
    && q.groups[p.next] == Group(us[..|us| / 2], GroupFresh, 0, 0, false, NoAlgorithm, 0, r)
    && q.groups[p.next + 1] == Group(us[|us| / 2..], GroupFresh, 0, 0, false, NoAlgorithm, 0, r)
  }

  predicate Unsplit(p: Pool, q: Pool) {
    q.next == p.next && q.groups.Keys == p.groups.Keys
  }

  predicate OtherGroupsSame(p: Pool, q: Pool, g: GroupId) {
    forall h :: h in p.groups && h != g && h < p.next ==> h in q.groups && q.groups[h] == p.groups[h]
  }

  /** A visit of g ended: each URL is visited, or failed if there is a code for it, and a malicious dac group of
      several is split. `codes` are the codes reported with this message. */
  predicate VisitRecorded(p: Pool, q: Pool, g: GroupId, bad: bool, codes: map<UrlId, int>)
    requires g in p.groups
  {
    var many := p.groups[g].algorithm == Dac && bad && |p.groups[g].urls| > 1;
    && q.urls.Keys == p.urls.Keys && OtherGroupsSame(p, q, g) && g in q.groups
    && (forall u {:trigger q.urls[u]} :: u in p.urls && u in p.groups[g].urls ==>
          && q.urls[u].major == (if u in codes then Known(codes[u]) else p.urls[u].major)
          && q.urls[u].state == if q.urls[u].major == 0 then UrlVisited else UrlError)
    && q.groups[g] == p.groups[g].(state := GroupVisited, malicious := bad)
    && if many then Split2(p, q, g) else Unsplit(p, q) && q.deque == p.deque
  }

  lemma VisitedOutcome(p: Pool, g: GroupId)
    requires g in p.groups && (forall h :: h in p.groups ==> h < p.next)
    ensures var q := Notify(p, g, GroupVisited);
            && VisitRecorded(p, q, g, p.groups[g].malicious, map[])
            && (forall u :: u in p.urls ==> q.urls[u].malicious == p.urls[u].malicious)
            && (forall u :: u in p.urls && u !in p.groups[g].urls ==> q.urls[u] == p.urls[u])
  {
  }

  /** After a finish the URLs have their verdicts, states and codes; codes of zero are not reported. */
  lemma FinishOutcome(cfg: Config, s: Server, e: Event, g: GroupId)
    requires Shaped(s) && Enabled(cfg, s, e) && e.Finish? && s.fleet.clients[e.client].held == Some(g)
    ensures Resolved(s)
    ensures var t, bad := Apply(cfg, s, e), s.pool.groups[g].malicious || e.malicious;
            && Judged(s.pool, t.pool, g, e.algorithm == Bulk, bad, e.changed)
            && VisitRecorded(s.pool, t.pool, g, bad, map u | u in e.codes && e.codes[u] != 0 :: e.codes[u])
  {
    ShapedResolved(s);
    var bad := s.pool.groups[g].malicious || e.malicious;
    var p1 := ReportCodes(s.pool, g, NonZero(e.codes));
    var p2 := SetMalicious(p1, g, e.algorithm, bad, Some(e.changed));
    VerdictTheorem(p1, g, e.algorithm, bad, Some(e.changed));
    VisitedOutcome(p2, g);
    EndOutcome(s.pool, p1, p2, Notify(p2, g, GroupVisited), g, e.algorithm == Bulk, bad, e.changed, NonZero(e.codes));
    JudgedAgain(s.pool, p1, Notify(p2, g, GroupVisited), g, e.algorithm == Bulk, bad, e.changed, NonZero(e.codes));
  }

  /** The codes of this message are written, and what they do not concern is left. */
  predicate CodesWritten(p: Pool, q: Pool, g: GroupId, codes: map<UrlId, int>)
    requires g in p.groups
  {
    && q == p.(urls := q.urls) && q.urls.Keys == p.urls.Keys
    && (forall u {:trigger q.urls[u]} :: u in p.urls && u in p.groups[g].urls ==>
          q.urls[u].major == if u in codes then Known(codes[u]) else p.urls[u].major)
    && (forall u {:trigger q.urls[u]} :: u in p.urls && u !in p.groups[g].urls ==> q.urls[u] == p.urls[u])
  }

  /** Codes, then the verdict, then the end of the visit. */
  lemma EndOutcome(p: Pool, p1: Pool, p2: Pool, q: Pool, g: GroupId, bulk: bool, bad: bool, changed: set<UrlId>,
                   codes: map<UrlId, int>)
    requires g in p.groups && CodesWritten(p, p1, g, codes) && Judged(p1, p2, g, bulk, bad, changed)
    requires p2 == p1.(urls := p2.urls, groups := p1.groups[g := p1.groups[g].(malicious := bad)])
    requires forall u :: u in p1.urls ==> p2.urls[u] == p1.urls[u].(malicious := p2.urls[u].malicious)
    requires VisitRecorded(p2, q, g, bad, map[])
    requires forall u :: u in p2.urls ==> q.urls[u].malicious == p2.urls[u].malicious
    requires forall u :: u in p2.urls && u !in p2.groups[g].urls ==> q.urls[u] == p2.urls[u]
    ensures Judged(p1, q, g, bulk, bad, changed) && VisitRecorded(p, q, g, bad, codes)
  {
  }

  /** Judging again after other verdicts: they matter only where the judgement leaves them. */
  lemma JudgedAgain(p: Pool, p1: Pool, q: Pool, g: GroupId, bulk: bool, bad: bool, changed: set<UrlId>, codes: map<UrlId, int>)
    requires g in p.groups && CodesWritten(p, p1, g, codes) && Judged(p1, q, g, bulk, bad, changed)
    requires bulk || !bad || |p.groups[g].urls| <= 1 || forall u :: u in p.urls ==> p1.urls[u].malicious == p.urls[u].malicious
    ensures Judged(p, q, g, bulk, bad, changed)
  {
  }

  /** A group failed: all its URLs have the last code, and unless it is split the group goes back on top of the deque
      after its first failure and nowhere after a later one. */
  predicate FailureRecorded(p: Pool, q: Pool, g: GroupId, times: nat, code: int)
    requires g in p.groups
  {
    && q.urls.Keys == p.urls.Keys && OtherGroupsSame(p, q, g) && g in q.groups && p.groups.Keys <= q.groups.Keys
    && (forall u {:trigger q.urls[u]} :: u in p.urls && u in p.groups[g].urls ==>
          q.urls[u].major == code && q.urls[u].state == UrlError)
    && (forall u {:trigger q.urls[u]} :: u in p.urls && u !in p.groups[g].urls ==> q.urls[u] == p.urls[u])
    && q.groups[g].state == GroupError && q.groups[g].errorCount == p.groups[g].errorCount + times
    && q.groups[g].urls == p.groups[g].urls && q.groups[g].algorithm == p.groups[g].algorithm
    && q.groups[g].retryCount == p.groups[g].retryCount + (if !Armed(p.groups[g]) && p.groups[g].errorCount == 0 then 1 else 0)
    && if Armed(p.groups[g]) then |q.deque| == |p.deque| + 2 * times && q.next == p.next + 2 * times
       else Unsplit(p, q) && q.deque == if p.groups[g].errorCount == 0 then [g] + p.deque else p.deque
  }

  lemma ErrorNotified(p: Pool, q: Pool, g: GroupId)
    requires g in p.groups && (forall h :: h in p.groups ==> h < p.next) && q == Notify(p, g, GroupError)
    ensures FailureRecorded(p, q, g, 1, Known(p.groups[g].major))
    ensures q.groups[g].malicious == p.groups[g].malicious && q.groups[g].major == p.groups[g].major
    ensures forall u :: u in p.urls ==> q.urls[u].malicious == p.urls[u].malicious
  {
  }

  /** More notifications, under another code. */
  lemma NextFailure(p: Pool, q: Pool, q': Pool, r: Pool, g: GroupId, times: nat, before: int, more: nat, code: int)
    requires g in p.groups && (forall h :: h in p.groups ==> h < p.next) && times > 0
    requires FailureRecorded(p, q, g, times, before)
    requires g in q'.groups && (q' == q || Touched(q, q', g)) && FailureRecorded(q', r, g, more, code)
    requires q'.groups[g].algorithm == q.groups[g].algorithm && q'.groups[g].retryCount == q.groups[g].retryCount
    requires Armed(q'.groups[g]) <==> Armed(p.groups[g])
    ensures FailureRecorded(p, r, g, times + more, code)
  {
    forall h | h in p.groups && h != g && h < p.next
      ensures h in r.groups && r.groups[h] == p.groups[h]
    {
      assert q'.groups[h] == q.groups[h] == p.groups[h] && h < q'.next;
    }
  }

  /** The pool after a report with a code that is not tolerated. */
  lemma FailedReport(p: Pool, q: Pool, g: GroupId, alg: Algorithm, bad: bool, changed: set<UrlId>, codes: map<UrlId, int>,
                     code: int)
    requires g in p.groups && (forall h :: h in p.groups ==> h < p.next)
    requires q == Notify(SetMajor(SetMalicious(ReportCodes(p, g, codes), g, alg, bad, Some(changed)), g, code), g, GroupError)
    ensures Judged(p, q, g, alg == Bulk, bad, changed)
    ensures FailureRecorded(p.(groups := p.groups[g := p.groups[g].(malicious := bad)]), q, g, 1, Known(code))
    ensures q.groups[g].malicious == bad && q.groups[g].major == Known(code)
  {
    var p1 := ReportCodes(p, g, codes);
    var p3 := SetMajor(SetMalicious(p1, g, alg, bad, Some(changed)), g, code);
    ReportWritten(p, p1, g, codes);
    JudgedUnderCode(p1, p3, g, alg, bad, changed, code);
    ErrorNotified(p3, q, g);
    FailedEnd(p, p1, p3, q, g, alg == Bulk, bad, changed, codes, Known(code));
  }

  lemma ReportWritten(p: Pool, q: Pool, g: GroupId, codes: map<UrlId, int>)
    requires g in p.groups && q == ReportCodes(p, g, codes)
    ensures CodesWritten(p, q, g, codes) && forall u :: u in p.urls ==> q.urls[u].malicious == p.urls[u].malicious
  {
  }

  lemma JudgedUnderCode(p: Pool, q: Pool, g: GroupId, alg: Algorithm, bad: bool, changed: set<UrlId>, code: int)
    requires g in p.groups && q == SetMajor(SetMalicious(p, g, alg, bad, Some(changed)), g, code)
    ensures Judged(p, q, g, alg == Bulk, bad, changed) && Known(Known(code)) == Known(code)
    ensures q == p.(urls := q.urls, groups := p.groups[g := p.groups[g].(malicious := bad, major := Known(code))])
  {
    VerdictTheorem(p, g, alg, bad, Some(changed));
    KnownCodes(code);
    KnownCodes(Known(code));
  }

  lemma FailedEnd(p: Pool, p1: Pool, p3: Pool, q: Pool, g: GroupId, bulk: bool, bad: bool, changed: set<UrlId>,
                  codes: map<UrlId, int>, code: int)
    requires g in p.groups && CodesWritten(p, p1, g, codes) && Judged(p1, p3, g, bulk, bad, changed)
    requires forall u :: u in p.urls ==> p1.urls[u].malicious == p.urls[u].malicious
    requires p3 == p1.(urls := p3.urls, groups := p1.groups[g := p1.groups[g].(malicious := bad, major := code)])
    requires FailureRecorded(p3, q, g, 1, code)
    requires forall u :: u in p3.urls ==> q.urls[u].malicious == p3.urls[u].malicious
    ensures Judged(p, q, g, bulk, bad, changed)
    ensures FailureRecorded(p.(groups := p.groups[g := p.groups[g].(malicious := bad)]), q, g, 1, code)
  {
    JudgedAgain(p, p1, p3, g, bulk, bad, changed, codes);
  }

  /** An error report with a code that is not tolerated judges the group and fails it with that code. */
  lemma FailedReportOutcome(cfg: Config, s: Server, e: Event, g: GroupId)
    requires Shaped(s) && Enabled(cfg, s, e) && e.ErrorReport? && s.fleet.clients[e.client].held == Some(g)
    requires !Tolerated(e.code)
    ensures Resolved(s)
    ensures var q := Apply(cfg, s, e).pool;
            && Judged(s.pool, q, g, e.algorithm == Bulk, e.malicious, e.changed)
            && FailureRecorded(s.pool.(groups := s.pool.groups[g := s.pool.groups[g].(malicious := e.malicious)]), q, g, 1,
                               Known(e.code))
            && q.groups[g].malicious == e.malicious && q.groups[g].major == Known(e.code)
  {
    ShapedResolved(s);
    FailedReport(s.pool, Apply(cfg, s, e).pool, g, e.algorithm, e.malicious, e.changed, e.codes, e.code);
  }

  /** Writing a URL's state changes to its log marks it malicious, which only the bulk and the single verdict override. */
  predicate Logged(p: Pool, q: Pool, g: GroupId, changed: set<UrlId>)
    requires g in p.groups
  {
    q.urls.Keys == p.urls.Keys &&
    forall u {:trigger q.urls[u]} :: u in p.urls ==>
      if u !in p.groups[g].urls then q.urls[u] == p.urls[u]
      else q.urls[u].malicious == if u in changed then Some(true) else p.urls[u].malicious
  }

  lemma ToleratedReport(p: Pool, q: Pool, g: GroupId, alg: Algorithm, bad: bool, changed: set<UrlId>, codes: map<UrlId, int>)
    requires g in p.groups && (forall h :: h in p.groups ==> h < p.next)
    requires var p1 := ReportCodes(p, g, codes);
             q == Notify(SetMalicious(if bad then FlushChanges(p1, g, changed) else p1, g, alg, bad, Some(changed)), g, GroupVisited)
    ensures VisitRecorded(p, q, g, bad, codes)
    ensures if alg == Bulk || !bad || |p.groups[g].urls| <= 1 then Judged(p, q, g, alg == Bulk, bad, changed)
            else Logged(p, q, g, changed)
  {
    var p1 := ReportCodes(p, g, codes);
    var p2 := if bad then FlushChanges(p1, g, changed) else p1;
    var p3 := SetMalicious(p2, g, alg, bad, Some(changed));
    FlushWritten(p, p2, g, bad, changed, codes);
    VerdictTheorem(p2, g, alg, bad, Some(changed));
    VisitedOutcome(p3, g);
    EndOutcome(p, p2, p3, q, g, alg == Bulk, bad, changed, codes);
    if alg == Bulk || !bad || |p.groups[g].urls| <= 1 {
      JudgedAgain(p, p2, q, g, alg == Bulk, bad, changed, codes);
    } else {
      FlushLogs(p, p1, p2, q, g, changed, codes);
    }
  }

  lemma FlushWritten(p: Pool, q: Pool, g: GroupId, bad: bool, changed: set<UrlId>, codes: map<UrlId, int>)
    requires g in p.groups && q == if bad then FlushChanges(ReportCodes(p, g, codes), g, changed) else ReportCodes(p, g, codes)
    ensures CodesWritten(p, q, g, codes)
    ensures !bad ==> forall u :: u in p.urls ==> q.urls[u].malicious == p.urls[u].malicious
  {
  }

  lemma FlushLogs(p: Pool, p1: Pool, p2: Pool, q: Pool, g: GroupId, changed: set<UrlId>, codes: map<UrlId, int>)
    requires g in p.groups && p1 == ReportCodes(p, g, codes) && p2 == FlushChanges(p1, g, changed)
    requires |p.groups[g].urls| > 1 && Judged(p2, q, g, false, true, changed)
    ensures Logged(p, q, g, changed)
  {
  }

  /** With a tolerated code the visit counts. */
  lemma ToleratedReportOutcome(cfg: Config, s: Server, e: Event, g: GroupId)
    requires Shaped(s) && Enabled(cfg, s, e) && e.ErrorReport? && s.fleet.clients[e.client].held == Some(g)
    requires Tolerated(e.code)
    ensures Resolved(s)
    ensures var q := Apply(cfg, s, e).pool;
            && VisitRecorded(s.pool, q, g, e.malicious, e.codes)
            && if e.algorithm == Bulk || !e.malicious || |s.pool.groups[g].urls| <= 1
               then Judged(s.pool, q, g, e.algorithm == Bulk, e.malicious, e.changed)
               else Logged(s.pool, q, g, e.changed)
  {
    ShapedResolved(s);
    ToleratedReport(s.pool, Apply(cfg, s, e).pool, g, e.algorithm, e.malicious, e.changed, e.codes);
  }

  /** The verdicts of a group whose client was lost: unchanged if the group was flagged, else benign. */
  predicate LostVerdicts(p: Pool, q: Pool, g: GroupId)
    requires g in p.groups
  {
    && g in q.groups && q.groups[g].malicious == p.groups[g].malicious
    && q.urls.Keys == p.urls.Keys
    && forall u {:trigger q.urls[u]} :: u in p.urls && u in p.groups[g].urls ==>
         q.urls[u].malicious == if p.groups[g].malicious then p.urls[u].malicious else Some(false)
  }

  /** What a disconnect does between its two notifications. */
  lemma Cleared(p1: Pool, p3: Pool, g: GroupId)
    requires g in p1.groups
    requires p3 == SetMajor(if p1.groups[g].malicious then p1 else SetMalicious(p1, g, Dac, false, None), g, CONNECTION_RESET)
    ensures Touched(p1, p3, g) && p3.groups[g] == p1.groups[g].(major := 0x10004200) && LostVerdicts(p1, p3, g)
  {
    if !p1.groups[g].malicious {
      VerdictTheorem(p1, g, Dac, false, None);
    }
  }

  /** A disconnect fails the group twice. */
  lemma DisconnectOutcome(p: Pool, q: Pool, g: GroupId)
    requires g in p.groups && (forall h :: h in p.groups ==> h < p.next) && q == FailHeld(p, g)
    ensures FailureRecorded(p, q, g, 2, 0x10004200) && LostVerdicts(p, q, g)
    ensures q.groups[g].major == 0x10004200
  {
    var p1 := Notify(p, g, GroupError);
    var p3 := SetMajor(if p1.groups[g].malicious then p1 else SetMalicious(p1, g, Dac, false, None), g, CONNECTION_RESET);
    ErrorNotified(p, p1, g);
    Cleared(p1, p3, g);
    ErrorNotified(p3, q, g);
    KnownCodes(CONNECTION_RESET);
    NextFailure(p, p1, p3, q, g, 1, Known(p.groups[g].major), 1, 0x10004200);
  }

  /** A failing send, or a client that is lost, fails its group: two notifications. */
  lemma SendFailureOutcome(cfg: Config, s: Server, e: Event)
    requires Shaped(s) && Enabled(cfg, s, e) && e.SendFailure?
    ensures Resolved(s) && Apply(cfg, s, e).queue == s.queue && Apply(cfg, s, e).dispatched == s.dispatched
    ensures match s.fleet.clients[e.client].held
            case None => Apply(cfg, s, e).pool == s.pool
            case Some(g) => FailureRecorded(s.pool, Apply(cfg, s, e).pool, g, 2, 0x10004200)
                            && LostVerdicts(s.pool, Apply(cfg, s, e).pool, g)
  {
    ShapedResolved(s);
    if s.fleet.clients[e.client].held.Some? {
      DisconnectOutcome(s.pool, Apply(cfg, s, e).pool, s.fleet.clients[e.client].held.value);
    }
  }

  lemma TimeoutPool(p: Pool, q: Pool, g: GroupId, code: int)
    requires g in p.groups && (forall h :: h in p.groups ==> h < p.next)
    requires q == FailHeld(Notify(SetMajor(p, g, code), g, GroupError), g)
    ensures FailureRecorded(p, q, g, 3, 0x10004200) && LostVerdicts(p, q, g)
  {
    var p1 := Notify(SetMajor(p, g, code), g, GroupError);
    ErrorUnderCode(p, p1, g, code);
    DisconnectOutcome(p1, q, g);
    NextFailure(p, p1, p1, q, g, 1, Known(code), 2, 0x10004200);
    SameVerdicts(p, p1, p1, q, g);
  }

  lemma ErrorUnderCode(p: Pool, q: Pool, g: GroupId, code: int)
    requires g in p.groups && (forall h :: h in p.groups ==> h < p.next) && q == Notify(SetMajor(p, g, code), g, GroupError)
    ensures FailureRecorded(p, q, g, 1, Known(code)) && VerdictsKept(p, q, g)
    ensures q.groups[g].algorithm == p.groups[g].algorithm
  {
    ErrorNotified(SetMajor(p, g, code), q, g);
    KnownCodes(code);
    KnownCodes(Known(code));
    AfterCode(p, SetMajor(p, g, code), q, g, code, 1, Known(code));
  }

  lemma AfterCode(p: Pool, p1: Pool, q: Pool, g: GroupId, code: int, times: nat, last: int)
    requires g in p.groups && p1 == SetMajor(p, g, code) && FailureRecorded(p1, q, g, times, last)
    ensures FailureRecorded(p, q, g, times, last)
  {
  }

  predicate VerdictsKept(p: Pool, q: Pool, g: GroupId)
    requires g in p.groups
  {
    && g in q.groups && q.groups[g].malicious == p.groups[g].malicious && q.groups[g].urls == p.groups[g].urls
    && q.urls.Keys == p.urls.Keys && forall u {:trigger q.urls[u]} :: u in p.urls ==> q.urls[u].malicious == p.urls[u].malicious
  }

  /** Failures before or after do not change what becomes of the verdicts. */
  lemma SameVerdicts(p: Pool, p1: Pool, p2: Pool, q: Pool, g: GroupId)
    requires g in p.groups && g in p1.groups && g in p2.groups
    requires (VerdictsKept(p, p1, g) && p1 == p2 && LostVerdicts(p2, q, g)) || (p == p1 && LostVerdicts(p1, p2, g) && VerdictsKept(p2, q, g))
    requires p2.groups[g].urls == p.groups[g].urls
    ensures LostVerdicts(p, q, g)
  {
  }

  /** A timeout fails the group of the machine's client: three notifications, the last under the code of a lost
      connection. */
  lemma TimeoutOutcome(cfg: Config, s: Server, e: Event)
    requires Shaped(s) && Enabled(cfg, s, e) && e.Timeout?
    ensures Resolved(s) && Apply(cfg, s, e).queue == s.queue && Apply(cfg, s, e).dispatched == s.dispatched
    ensures var client := s.fleet.vms[e.vm].client;
            if client.None? || s.fleet.clients[client.value].held.None? then Apply(cfg, s, e).pool == s.pool
            else FailureRecorded(s.pool, Apply(cfg, s, e).pool, s.fleet.clients[client.value].held.value, 3, 0x10004200)
                 && LostVerdicts(s.pool, Apply(cfg, s, e).pool, s.fleet.clients[client.value].held.value)
  {
    ShapedResolved(s);
    var client := s.fleet.vms[e.vm].client;
    if client.Some? && s.fleet.clients[client.value].held.Some? {
      assert Victim(s.fleet, e.vm) == client;
      TimeoutPool(s.pool, Apply(cfg, s, e).pool, s.fleet.clients[client.value].held.value, e.code);
    }
  }

  /** A group that could not be sent fails: three notifications, the last under the code of a process error. */
  lemma LostTakePool(p: Pool, q: Pool, g: GroupId)
    requires g in p.groups && (forall h :: h in p.groups ==> h < p.next)
    requires q == Notify(SetMajor(FailHeld(p, g), g, PROCESS_ERROR), g, GroupError)
    ensures FailureRecorded(p, q, g, 3, 0x10000111) && LostVerdicts(p, q, g)
  {
    var p1 := FailHeld(p, g);
    DisconnectOutcome(p, p1, g);
    ErrorUnderCode(p1, q, g, PROCESS_ERROR);
    KnownCodes(PROCESS_ERROR);
    NextFailure(p, p1, p1, q, g, 2, 0x10004200, 1, 0x10000111);
    SameVerdicts(p, p, p1, q, g);
  }

  lemma LostTakeIs(s: Server, t: Server, c: ClientId, batch: seq<UrlId>, p: Pool, g: GroupId)
    requires Resolved(s) && c in s.fleet.clients && TakenFrom(s.pool, batch, p, g) && t == OnTake(s, c, batch, false)
    ensures g in p.groups && (forall h :: h in p.groups ==> h < p.next)
    ensures t.pool == Notify(SetMajor(FailHeld(p, g), g, PROCESS_ERROR), g, GroupError)
  {
    if s.pool.deque == [] {
      assert p == NewGroup(s.pool, batch);
      assert t == Hand(s.(pool := p, queue := s.queue - (set u | u in batch)), c, g, false);
    } else {
      assert t == Hand(s.(pool := p), c, g, false);
    }
  }

  lemma LostTakeFails(cfg: Config, s: Server, e: Event, p: Pool, g: GroupId)
    requires Shaped(s) && Enabled(cfg, s, e) && e.Take? && !e.ok && TakenFrom(s.pool, e.batch, p, g)
    ensures Resolved(s) && g in p.groups
    ensures FailureRecorded(p, Apply(cfg, s, e).pool, g, 3, 0x10000111) && LostVerdicts(p, Apply(cfg, s, e).pool, g)
  {
    ShapedResolved(s);
    LostTakeIs(s, Apply(cfg, s, e), e.client, e.batch, p, g);
    LostTakePool(p, Apply(cfg, s, e).pool, g);
  }

  lemma StartPool(p: Pool, q: Pool, g: GroupId, alg: Algorithm)
    requires g in p.groups && (forall h :: h in p.groups ==> h < p.next)
    requires q == Notify(SetAlgorithm(p, g, alg), g, GroupVisiting)
    ensures q == p.(urls := q.urls, groups := p.groups[g := p.groups[g].(algorithm := alg, state := GroupVisiting)])
    ensures q.urls.Keys == p.urls.Keys
    ensures forall u {:trigger q.urls[u]} :: u in p.urls ==>
              q.urls[u] == if u in p.groups[g].urls then p.urls[u].(state := UrlVisiting) else p.urls[u]
  {
  }

  lemma StartFleet(f: Fleet, c: ClientId, alg: Algorithm)
    requires c in f.clients
    ensures f.clients[c := f.clients[c].(algorithm := alg)][c := f.clients[c].(algorithm := alg, state := Visiting)]
         == f.clients[c := f.clients[c].(algorithm := alg, state := Visiting)]
  {
  }

  /** A start message sets the algorithm of client and group and moves both, and the group's URLs, to visiting. */
  lemma StartOutcome(cfg: Config, s: Server, e: Event)
    requires Shaped(s) && Enabled(cfg, s, e) && e.Start?
    ensures Resolved(s)
    ensures var t, c := Apply(cfg, s, e), s.fleet.clients[e.client];
            && t == s.(pool := t.pool, fleet := s.fleet.(clients := s.fleet.clients[e.client := c.(
                       algorithm := e.algorithm, state := if c.held.Some? then Visiting else c.state)]))
            && match c.held
               case None => t.pool == s.pool
               case Some(g) =>
                 && t.pool == s.pool.(urls := t.pool.urls,
                                      groups := s.pool.groups[g := s.pool.groups[g].(algorithm := e.algorithm, state := GroupVisiting)])
                 && t.pool.urls.Keys == s.pool.urls.Keys
                 && forall u {:trigger t.pool.urls[u]} :: u in s.pool.urls ==>
                      t.pool.urls[u] == if u in s.pool.groups[g].urls then s.pool.urls[u].(state := UrlVisiting) else s.pool.urls[u]
  {
    ShapedResolved(s);
    StartFleet(s.fleet, e.client, e.algorithm);
    if s.fleet.clients[e.client].held.Some? {
      StartPool(s.pool, Apply(cfg, s, e).pool, s.fleet.clients[e.client].held.value, e.algorithm);
    }
  }

  /** A system event of a dac visit of several URLs ends it as malicious with all verdicts open; one of a bulk visit of
      several is left to the final report; any other flags the group, and a single URL. */
  lemma SystemEventOutcome(cfg: Config, s: Server, e: Event)
    requires Shaped(s) && Enabled(cfg, s, e) && e.SystemEvent?
    ensures Resolved(s)
    ensures var q, client := Apply(cfg, s, e).pool, s.fleet.clients[e.client];
            if client.state != Visiting || client.held.None? then q == s.pool
            else
              var g := client.held.value;
              var many := |s.pool.groups[g].urls| > 1;
              if many && client.algorithm == Bulk then q == s.pool
              else if many && client.algorithm == Dac then
                VisitRecorded(s.pool, q, g, true, map[]) && Judged(s.pool, q, g, false, true, {})
              else
                && q == s.pool.(urls := q.urls, groups := s.pool.groups[g := s.pool.groups[g].(malicious := true)])
                && Judged(s.pool, q, g, client.algorithm == Bulk, true, set u | u in s.pool.groups[g].urls)
  {
    ShapedResolved(s);
    var client := s.fleet.clients[e.client];
    if client.state == Visiting && client.held.Some? {
      var g := client.held.value;
      VerdictTheorem(s.pool, g, client.algorithm, true, None);
      if client.algorithm == Dac && |s.pool.groups[g].urls| > 1 {
        FlaggedVisit(s.pool, g);
      }
    }
  }

  lemma FlaggedVisit(p: Pool, g: GroupId)
    requires g in p.groups && (forall h :: h in p.groups ==> h < p.next) && |p.groups[g].urls| > 1
    ensures var q := Notify(SetMalicious(p, g, Dac, true, None), g, GroupVisited);
            VisitRecorded(p, q, g, true, map[]) && Judged(p, q, g, false, true, {})
  {
    var p1 := SetMalicious(p, g, Dac, true, None);
    assert p1 == p.(groups := p.groups[g := p.groups[g].(malicious := true)]);
    VisitedOutcome(p1, g);
  }

  /** The remaining messages: a new URL is fresh and queued, a new machine waits for its revert, another visit event
      changes the client's algorithm, and a broken socket leaves its code with the group. */
  lemma OtherOutcome(cfg: Config, s: Server, e: Event)
    requires Shaped(s) && Enabled(cfg, s, e)
    ensures Resolved(s)
    ensures e.AddUrl? ==>
              Apply(cfg, s, e) == s.(pool := s.pool.(urls := s.pool.urls[e.url := Url(None, UrlFresh, 0)]), queue := s.queue + {e.url})
    ensures e.AddVm? ==>
              Apply(cfg, s, e).fleet == s.fleet.(vms := s.fleet.vms[e.vm := Vm(WaitingRevert, None)], work := s.fleet.work + [e.vm])
    ensures e.OtherVisit? ==>
              Apply(cfg, s, e) ==
              s.(fleet := s.fleet.(clients := s.fleet.clients[e.client := s.fleet.clients[e.client].(algorithm := e.algorithm)]))
    ensures e.SocketFailure? && s.fleet.clients[e.client].held.Some? ==>
              var g := s.fleet.clients[e.client].held.value;
              Apply(cfg, s, e) == s.(pool := s.pool.(groups := s.pool.groups[g := s.pool.groups[g].(major := 0x10004300)]))
  {
    ShapedResolved(s);
  }
}
